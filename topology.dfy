/** The validating topology builder: which layer specifications the network
    accepts, what it appends for them, and the fold of a task's
    specification list that configuration performs. */
module Topology {
  import opened Tasks
  import opened Layers

  /** The layer-list invariant the builder keeps. Every non-null entry is a
      constructed layer; the Input variant occurs only at index 0; every
      non-null entry after index 0 has a non-null predecessor whose neuron
      count equals its input count. Null entries (type None) may appear
      anywhere. */
  predicate WellFormed(ls: seq<Layer>)
  {
    && (forall i :: 0 <= i < |ls| && ls[i].Layer? ==>
          Shaped(ls[i]) && (ls[i].kind == Input <==> i == 0))
    && (forall i, j :: 0 <= i < |ls| && 0 <= j < |ls| && j == i + 1 && ls[j].Layer? ==>
          ls[i].Layer? && ls[j].numInputs == ls[i].numNeurons)
  }

  /** AddLayer dereferences the last entry only for a dense layer with valid
      counts on a non-empty list; that entry must not be the null one. */
  predicate AddLayerDefined(ls: seq<Layer>, kind: LayerType, numNeurons: int, numInputs: int)
  {
    !(numNeurons >= 1 && numInputs >= 0 && IsDense(kind) && |ls| > 0 && ls[|ls| - 1].Null?)
  }

  /** The four rejection rules, in the order the source checks them. */
  predicate Rejects(ls: seq<Layer>, kind: LayerType, numNeurons: int, numInputs: int)
    requires AddLayerDefined(ls, kind, numNeurons, numInputs)
  {
    || numNeurons < 1 || numInputs < 0
    || (kind == Input && |ls| > 0)
    || (IsDense(kind) && (|ls| == 0 || ls[|ls| - 1].numNeurons != numInputs))
  }

  /** The layer list after AddLayer: unchanged on rejection, otherwise the
      new entry (null for None) appended at the end. */
  function Appended(ls: seq<Layer>, kind: LayerType, numNeurons: int, numInputs: int, u: nat -> real): seq<Layer>
    requires AddLayerDefined(ls, kind, numNeurons, numInputs)
  {
    if Rejects(ls, kind, numNeurons, numInputs) then ls
    else ls + [NewLayer(kind, numNeurons, numInputs, u)]
  }

  /** AddLayer leaves the list unchanged exactly when a rule rejects the
      spec, and otherwise appends exactly one entry: a layer of the requested
      variant and sizes with vectors of length numNeurons (and, when dense, a
      numNeurons by numInputs weight matrix), or the null entry for None. */
  lemma AddLayerOutcome(ls: seq<Layer>, kind: LayerType, numNeurons: int, numInputs: int, u: nat -> real)
    requires AddLayerDefined(ls, kind, numNeurons, numInputs)
    ensures var r := Appended(ls, kind, numNeurons, numInputs, u);
      && (r == ls <==> Rejects(ls, kind, numNeurons, numInputs))
      && (!Rejects(ls, kind, numNeurons, numInputs) ==>
            && |r| == |ls| + 1 && r[..|ls|] == ls
            && (kind == None <==> r[|ls|].Null?)
            && (kind != None ==>
                  && Shaped(r[|ls|]) && r[|ls|].kind == kind
                  && r[|ls|].numNeurons == numNeurons && r[|ls|].numInputs == numInputs
                  && |r[|ls|].activation| == numNeurons && |r[|ls|].errors| == numNeurons
                  && (IsDense(kind) ==>
                        |r[|ls|].biases| == numNeurons && IsMatrix(r[|ls|].weights, numNeurons, numInputs))))
  {
    var r := Appended(ls, kind, numNeurons, numInputs, u);
    if !Rejects(ls, kind, numNeurons, numInputs) {
      assert |r| == |ls| + 1;
    }
  }

  /** AddLayer keeps the layer-list invariant. */
  lemma AddLayerKeepsWellFormed(ls: seq<Layer>, kind: LayerType, numNeurons: int, numInputs: int, u: nat -> real)
    requires WellFormed(ls)
    requires AddLayerDefined(ls, kind, numNeurons, numInputs)
    ensures WellFormed(Appended(ls, kind, numNeurons, numInputs, u))
  {
    var r := Appended(ls, kind, numNeurons, numInputs, u);
    if !Rejects(ls, kind, numNeurons, numInputs) {
      forall i | 0 <= i < |r| && r[i].Layer?
        ensures Shaped(r[i]) && (r[i].kind == Input <==> i == 0)
        ensures i > 0 ==> r[i - 1].Layer? && r[i].numInputs == r[i - 1].numNeurons
      {
        if i < |ls| {
          assert r[i] == ls[i];
          if i > 0 { assert r[i - 1] == ls[i - 1]; }
        }
      }
    }
  }

  /** Configuration never dereferences a null last entry: every spec in the
      list meets AddLayerDefined against the list built so far. */
  predicate ReplayDefined(ls: seq<Layer>, specs: seq<TaskLayer>, u: nat -> real)
    decreases |specs|
  {
    || |specs| == 0
    || (&& AddLayerDefined(ls, specs[0].kind, specs[0].numNeurons, specs[0].numInputs)
        && ReplayDefined(Appended(ls, specs[0].kind, specs[0].numNeurons, specs[0].numInputs, u), specs[1..], u))
  }

  /** AddLayer applied to each spec in order; rejected specs are skipped. */
  function Replay(ls: seq<Layer>, specs: seq<TaskLayer>, u: nat -> real): seq<Layer>
    requires ReplayDefined(ls, specs, u)
    decreases |specs|
  {
    if |specs| == 0 then ls
    else Replay(Appended(ls, specs[0].kind, specs[0].numNeurons, specs[0].numInputs, u), specs[1..], u)
  }

  /** Configuration keeps the layer-list invariant, never changes a layer
      that was already there, and adds at most one entry per spec. */
  lemma {:induction false} ReplayKeepsWellFormed(ls: seq<Layer>, specs: seq<TaskLayer>, u: nat -> real)
    requires WellFormed(ls) && ReplayDefined(ls, specs, u)
    ensures var r := Replay(ls, specs, u);
      WellFormed(r) && |ls| <= |r| <= |ls| + |specs| && r[..|ls|] == ls
    decreases |specs|
  {
    if |specs| > 0 {
      var s := specs[0];
      var next := Appended(ls, s.kind, s.numNeurons, s.numInputs, u);
      AddLayerKeepsWellFormed(ls, s.kind, s.numNeurons, s.numInputs, u);
      ReplayKeepsWellFormed(next, specs[1..], u);
      var r := Replay(next, specs[1..], u);
      assert |ls| <= |next| <= |ls| + 1 && next[..|ls|] == ls;
      assert r[..|next|] == next;
      assert r[..|ls|] == next[..|ls|];
    }
  }

  /** A declared topology that is a proper chain: an Input layer first, then
      dense layers each fed by its predecessor, all counts valid. */
  predicate Chained(specs: seq<TaskLayer>)
  {
    && |specs| >= 1
    && specs[0].kind == Input
    && (forall i :: 0 <= i < |specs| ==> specs[i].numNeurons >= 1 && specs[i].numInputs >= 0)
    && (forall i :: 1 <= i < |specs| ==>
          IsDense(specs[i].kind) && specs[i].numInputs == specs[i - 1].numNeurons)
  }

  /** The list holds exactly the first k specs of the chain, as layers. */
  predicate Built(ls: seq<Layer>, specs: seq<TaskLayer>)
  {
    && |ls| <= |specs|
    && forall i :: 0 <= i < |ls| ==>
         ls[i].Layer? && ls[i].kind == specs[i].kind
         && ls[i].numNeurons == specs[i].numNeurons && ls[i].numInputs == specs[i].numInputs
  }

  /** Replaying a chained topology onto a list that holds a prefix of it
      accepts every remaining spec. */
  lemma {:induction false} ReplayChain(ls: seq<Layer>, specs: seq<TaskLayer>, u: nat -> real)
    requires Chained(specs) && Built(ls, specs)
    ensures ReplayDefined(ls, specs[|ls|..], u)
    ensures Built(Replay(ls, specs[|ls|..], u), specs)
    ensures |Replay(ls, specs[|ls|..], u)| == |specs|
    decreases |specs| - |ls|
  {
    var k := |ls|;
    if k < |specs| {
      var s := specs[k];
      assert specs[k..][0] == s && specs[k..][1..] == specs[k + 1..];
      assert AddLayerDefined(ls, s.kind, s.numNeurons, s.numInputs);
      assert !Rejects(ls, s.kind, s.numNeurons, s.numInputs);
      var next := Appended(ls, s.kind, s.numNeurons, s.numInputs, u);
      assert next == ls + [NewLayer(s.kind, s.numNeurons, s.numInputs, u)];
      assert Built(next, specs);
      ReplayChain(next, specs, u);
    } else {
      assert specs[k..] == [];
    }
  }

  /** Configuring an empty network from a chained topology yields one layer
      per spec, in order, with the declared variant and sizes, and no null
      entry. */
  lemma ConfigureChainedTopology(specs: seq<TaskLayer>, u: nat -> real)
    requires Chained(specs)
    ensures ReplayDefined([], specs, u)
    ensures var r := Replay([], specs, u);
      && |r| == |specs| && WellFormed(r)
      && forall i :: 0 <= i < |r| ==>
           r[i].Layer? && r[i].kind == specs[i].kind
           && r[i].numNeurons == specs[i].numNeurons && r[i].numInputs == specs[i].numInputs
  {
    assert specs[0..] == specs;
    ReplayChain([], specs, u);
    ReplayKeepsWellFormed([], specs, u);
  }
}
