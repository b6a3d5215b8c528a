/** Parameter dicts as mutable objects, and the in-place utilities copy, get_dW and
    reduce_add_average, each proved to do what its value-level counterpart in ParamSpec says.
    Object identity stands for Python's reference semantics: two names for one dict are one
    ParamMap. */
module ParamMaps {
  import opened Tensors
  import opened Faults
  import opened ParamSpec

  /** A dict from parameter names to tensors whose values are replaced in place. Its keys and their
      order are fixed when it is built: the modelled code never adds or removes a key. */
  class ParamMap {
    const names: seq<Name>
    var tensors: map<Name, Tensor>

    ghost predicate Valid()
      reads this
    {
      WellFormed(Params(names, tensors))
    }

    /** A snapshot of the dict's contents. */
    function Value(): Params
      reads this
    {
      Params(names, tensors)
    }

    constructor (p: Params)
      requires WellFormed(p)
      ensures Valid() && Value() == p
    {
      names := p.names;
      tensors := p.tensors;
    }
  }

  /** The contents of a list of dicts. */
  function TensorsOf(ps: seq<ParamMap>): (ts: seq<map<Name, Tensor>>)
    reads set p | p in ps
    ensures |ts| == |ps| && forall j :: 0 <= j < |ps| ==> ts[j] == ps[j].tensors
  {
    if ps == [] then [] else [ps[0].tensors] + TensorsOf(ps[1..])
  }

  /** Snapshots of a list of dicts. */
  function ValuesOf(ps: seq<ParamMap>): (vs: seq<Params>)
    reads set p | p in ps
    ensures |vs| == |ps| && forall j :: 0 <= j < |ps| ==> vs[j] == ps[j].Value()
  {
    if ps == [] then [] else [ps[0].Value()] + ValuesOf(ps[1..])
  }

  /** The key lists of a list of dicts. */
  function NamesOf(ps: seq<ParamMap>): (ns: seq<seq<Name>>)
    ensures |ns| == |ps| && forall j :: 0 <= j < |ps| ==> ns[j] == ps[j].names
  {
    if ps == [] then [] else [ps[0].names] + NamesOf(ps[1..])
  }

  /** copy(target, source). The target may be the source itself, as it is in Client.reset. */
  method Copy(target: ParamMap, source: ParamMap) returns (status: Status)
    requires target.Valid()
    modifies target
    ensures target.Valid()
    ensures Run(target.tensors, status) == CopyKeys(target.names, old(target.tensors), old(source.tensors))
  {
    ghost var t0, s0 := target.tensors, source.tensors;
    var names := target.names;
    status := Done;
    var i := 0;
    while i < |names|
      invariant 0 <= i <= |names|
      invariant target.tensors.Keys == t0.Keys
      invariant source.tensors == s0
      invariant Covers(names[i..], target.tensors)
      invariant CopyKeys(names[i..], target.tensors, s0) == CopyKeys(names, t0, s0)
    {
      var name := names[i];
      CopyStep(names, i, target.tensors, s0);
      if name !in source.tensors {
        status := Failed(MissingKey(name));
        return;
      }
      target.tensors := target.tensors[name := source.tensors[name]];
      i := i + 1;
    }
  }

  /** copy between two dicts with the same keys cannot raise: the target becomes equal to the source. */
  method CopyAlike(target: ParamMap, source: ParamMap) returns (status: Status)
    requires target.Valid() && source.Valid() && target.names == source.names
    modifies target
    ensures target.Valid() && status == Done && target.tensors == old(source.tensors)
  {
    ghost var t0, s0 := target.tensors, source.tensors;
    CopyBetweenAlikeMaps(target.names, t0, s0);
    status := Copy(target, source);
  }

  /** get_dW(target, minuend, subtrahend). Any two of the three may be the same dict: each key is
      visited once, so its operands are read before it is written. */
  method GetDW(target: ParamMap, minuend: ParamMap, subtrahend: ParamMap) returns (status: Status)
    requires target.Valid()
    modifies target
    ensures target.Valid()
    ensures Run(target.tensors, status) ==
            AccumulateKeys(target.names, old(target.tensors), old(minuend.tensors), old(subtrahend.tensors))
  {
    ghost var t0, m0, s0 := target.tensors, minuend.tensors, subtrahend.tensors;
    var names := target.names;
    status := Done;
    var i := 0;
    while i < |names|
      invariant 0 <= i <= |names|
      invariant target.tensors.Keys == t0.Keys
      invariant forall j :: i <= j < |names| ==> target.tensors[names[j]] == t0[names[j]]
      invariant minuend == target ==> m0 == t0
      invariant minuend != target ==> minuend.tensors == m0
      invariant subtrahend == target ==> s0 == t0
      invariant subtrahend != target ==> subtrahend.tensors == s0
      invariant AccumulateKeys(names[i..], target.tensors, m0, s0) == AccumulateKeys(names, t0, m0, s0)
    {
      var name := names[i];
      AccumulateStep(names, i, t0, target.tensors, m0, s0);
      assert (name in minuend.tensors <==> name in m0) && (name in subtrahend.tensors <==> name in s0);
      if name !in minuend.tensors || name !in subtrahend.tensors {
        status := Failed(MissingKey(name));
        return;
      }
      var m, s := minuend.tensors[name], subtrahend.tensors[name];
      assert m == m0[name] && s == s0[name];
      if |m| != |s| || |target.tensors[name]| != |m| {
        status := Failed(ShapeMismatch(name));
        return;
      }
      target.tensors := target.tensors[name := Add(target.tensors[name], Sub(m, s))];
      i := i + 1;
    }
  }

  /** The inner loop of reduce_add_average: every key of one target receives the mean, over the
      sources' contents srcs, of their tensors for that key. */
  method AddMean(target: ParamMap, srcs: seq<map<Name, Tensor>>) returns (status: Status)
    requires target.Valid()
    modifies target
    ensures target.Valid()
    ensures Run(target.tensors, status) == AddMeanKeys(target.names, old(target.tensors), srcs)
  {
    ghost var t0 := target.tensors;
    ghost var goal := AddMeanKeys(target.names, t0, srcs);
    var names := target.names;
    status := Done;
    var i := 0;
    while i < |names|
      invariant 0 <= i <= |names|
      invariant target.tensors.Keys == t0.Keys
      invariant Covers(names[i..], target.tensors)
      invariant AddMeanKeys(names[i..], target.tensors, srcs) == goal
    {
      var name := names[i];
      AddMeanStep(names, i, target.tensors, srcs);
      var mean := MeanAt(srcs, name);
      if mean.Failure? {
        status := Failed(mean.error);
        return;
      }
      if |target.tensors[name]| != |mean.value| {
        status := Failed(ShapeMismatch(name));
        return;
      }
      target.tensors := target.tensors[name := Add(target.tensors[name], mean.value)];
      i := i + 1;
    }
  }

  /** No dict occurs twice in the list. */
  predicate Unaliased(ps: seq<ParamMap>) {
    forall i, j :: 0 <= i < j < |ps| ==> ps[i] != ps[j]
  }

  /** reduce_add_average(targets, sources): the targets in order, each walked by AddMean,
      stopping at the first target that raises. No target is a source, so the sources keep their
      contents throughout and are read once. */
  method ReduceAddAverage(targets: seq<ParamMap>, sources: seq<ParamMap>) returns (status: Status)
    requires forall j :: 0 <= j < |targets| ==> targets[j].Valid()
    requires TargetsCovered(NamesOf(targets), TensorsOf(targets))
    requires Unaliased(targets)
    requires forall t :: t in targets ==> t !in sources
    modifies set t | t in targets
    ensures forall j :: 0 <= j < |targets| ==> targets[j].Valid()
    ensures RunAll(TensorsOf(targets), status) ==
            AddMeanFrom(NamesOf(targets), old(TensorsOf(targets)), 0, old(TensorsOf(sources)))
  {
    var srcs := TensorsOf(sources);
    ghost var cur;
    status, cur := ReduceLoop(targets, srcs, NamesOf(targets), TensorsOf(targets));
    TensorsAre(targets, cur);
  }

  /** The outer loop of reduce_add_average over targets whose contents start as ts0: the run
      from the first target on, stopping at the first that raises. */
  method ReduceLoop(targets: seq<ParamMap>, srcs: seq<map<Name, Tensor>>,
                    ghost ns: seq<seq<Name>>, ghost ts0: seq<map<Name, Tensor>>)
    returns (status: Status, ghost cur: seq<map<Name, Tensor>>)
    requires |ts0| == |targets| && Unaliased(targets) && ns == NamesOf(targets)
    requires forall i :: 0 <= i < |targets| ==> targets[i].Valid() && targets[i].tensors == ts0[i]
    requires TargetsCovered(ns, ts0)
    modifies set t | t in targets
    ensures |cur| == |targets|
    ensures forall i :: 0 <= i < |targets| ==> targets[i].Valid() && targets[i].tensors == cur[i]
    ensures RunAll(cur, status) == AddMeanFrom(ns, ts0, 0, srcs)
  {
    cur := ts0;
    ghost var goal := AddMeanFrom(ns, ts0, 0, srcs);
    status := Done;
    var j := 0;
    while j < |targets|
      invariant 0 <= j <= |targets|
      invariant status == Done
      invariant |cur| == |targets|
      invariant forall i :: 0 <= i < |targets| ==> targets[i].Valid() && targets[i].tensors == cur[i]
      invariant TargetsCovered(ns, cur)
      invariant AddMeanFrom(ns, cur, j, srcs) == goal
    {
      status, cur := ReduceStep(targets, j, srcs, ns, goal, cur);
      if status.Failed? {
        return;
      }
      j := j + 1;
    }
  }

  /** One turn of reduce_add_average's outer loop: target j is walked by AddMean, and the run
      from target j on is still the goal, the run from the start. */
  method ReduceStep(targets: seq<ParamMap>, j: nat, srcs: seq<map<Name, Tensor>>,
                    ghost ns: seq<seq<Name>>, ghost goal: RunAll, ghost cur: seq<map<Name, Tensor>>)
    returns (status: Status, ghost cur': seq<map<Name, Tensor>>)
    requires j < |targets| == |cur| && Unaliased(targets) && ns == NamesOf(targets)
    requires forall i :: 0 <= i < |targets| ==> targets[i].Valid() && targets[i].tensors == cur[i]
    requires TargetsCovered(ns, cur)
    requires AddMeanFrom(ns, cur, j, srcs) == goal
    modifies targets[j]
    ensures |cur'| == |targets|
    ensures forall i :: 0 <= i < |targets| ==> targets[i].Valid() && targets[i].tensors == cur'[i]
    ensures TargetsCovered(ns, cur')
    ensures status.Failed? ==> RunAll(cur', status) == goal
    ensures status.Done? ==> AddMeanFrom(ns, cur', j + 1, srcs) == goal
  {
    AddMeanFromUnfold(ns, cur, j, srcs);
    status := AddMean(targets[j], srcs);
    cur' := cur[j := targets[j].tensors];
  }

  /** The dicts of the list hold ts. */
  lemma TensorsAre(ps: seq<ParamMap>, ts: seq<map<Name, Tensor>>)
    requires |ps| == |ts| && forall i :: 0 <= i < |ps| ==> ps[i].tensors == ts[i]
    ensures TensorsOf(ps) == ts
  {
  }
}
