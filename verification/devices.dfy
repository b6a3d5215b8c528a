/** The federated-learning devices: a Client that holds its current weights W, the weights
    W_old from before its last local training, its accumulated update dW and the optimizer's
    learning rate; and a Server that holds the global weights W and a cache of saved models.
    Local training is outside the model: its outcome is a parameter. */
module Devices {
  import opened Tensors
  import opened Faults
  import opened ParamSpec
  import opened ParamMaps
  import opened Similarity

  /** What one call of the training routine leaves in the client's parameters: the trained
      parameters and the mean loss, or the parameters as they were when it raised. */
  datatype FitOutcome =
    | Fitted(params: map<Name, Tensor>, loss: real)
    | FitFailed(params: map<Name, Tensor>)

  /** The factor the learning rate is multiplied by before each local training. */
  const Decay: real := 0.99

  /** The learning rate after n decays of the initial rate lr0. */
  function Rate(lr0: real, n: nat): (r: real)
    ensures 0.0 <= lr0 ==> 0.0 <= r <= lr0
  {
    if n == 0 then lr0 else Rate(lr0, n - 1) * Decay
  }

  function Pow(x: real, n: nat): real {
    if n == 0 then 1.0 else x * Pow(x, n - 1)
  }

  /** torch.zeros_like for every parameter: a zero tensor of the same size under each key. */
  function ZerosLike(p: Params): (z: map<Name, Tensor>)
    requires Covers(p.names, p.tensors)
    ensures forall k :: k in z <==> k in p.names
    ensures forall k :: k in z ==> |z[k]| == |p.tensors[k]| && z[k] == Zeros(|z[k]|)
  {
    map k | k in p.names :: Zeros(|p.tensors[k]|)
  }

  class Client {
    const id: int
    const W: ParamMap
    const WOld: ParamMap
    const dW: ParamMap
    /** The rollback point set by synchronize_with_server; null until the first synchronization. */
    var WOriginal: ParamMap?
    /** The learning rate of the optimizer's first parameter group. */
    var lr: real

    /** The learning rate the optimizer was built with, and how many times it has been decayed. */
    ghost const lr0: real
    ghost var updates: nat
    /** The zero tensors dW started from, and every finished training round since. */
    ghost const Zero: map<Name, Tensor>
    ghost var Rounds: seq<Round>

    /** W, W_old and dW are three separate dicts over the same keys; the rollback point, once set,
        is W itself; dW is its zero start plus the differences of all finished rounds; the learning
        rate has been decayed once per update. */
    ghost predicate Valid()
      reads this, W, WOld, dW
    {
      Intact() && W.Valid()
    }

    /** Everything Valid asks for except what it asks of W's contents. */
    ghost predicate Intact()
      reads this, WOld, dW
    {
      && W != WOld && W != dW && WOld != dW
      && WOld.Valid() && dW.Valid()
      && WOld.names == W.names && dW.names == W.names
      && (WOriginal == null || WOriginal == W)
      && (forall k :: k in Zero <==> k in W.names)
      && (forall k :: k in Zero ==> Zero[k] == Zeros(|Zero[k]|))
      && dW.tensors == Replay(W.names, Zero, Rounds)
      && lr == Rate(lr0, updates)
    }

    /** Client.__init__: W holds the model's parameters; dW and W_old hold zeros of the same
        sizes; no rollback point yet. */
    constructor (id: int, params: Params, lr: real)
      requires WellFormed(params)
      ensures Valid()
      ensures this.id == id && this.lr == lr && WOriginal == null
      ensures lr0 == lr && updates == 0 && Rounds == [] && Zero == ZerosLike(params)
      ensures W.Value() == params
      ensures dW.Value() == WOld.Value() == Params(params.names, ZerosLike(params))
      ensures fresh(W) && fresh(WOld) && fresh(dW)
    {
      this.id := id;
      W := new ParamMap(params);
      var zero := ZerosLike(params);
      WOld := new ParamMap(Params(params.names, zero));
      dW := new ParamMap(Params(params.names, zero));
      WOriginal := null;
      this.lr := lr;
      lr0 := lr;
      updates := 0;
      Zero := zero;
      Rounds := [];
    }

    /** synchronize_with_server: copy the server's weights into W, then make W itself the
        rollback point. A KeyError in the copy leaves the rollback point as it was. */
    method SynchronizeWithServer(server: Server) returns (status: Status)
      requires Valid()
      modifies this`WOriginal, W
      ensures Valid()
      ensures Run(W.tensors, status) == CopyKeys(W.names, old(W.tensors), old(server.W.tensors))
      ensures WOriginal == if status == Done then W else old(WOriginal)
    {
      status := Copy(W, server.W);
      if status == Done {
        WOriginal := W;
      }
    }

    /** compute_weight_update: W_old := W; lr *= 0.99; train, which leaves fit.params in W;
        then dW += W - W_old. Returns the training loss, or what was raised. */
    method ComputeWeightUpdate(fit: FitOutcome) returns (r: Result<real>)
      requires Valid()
      requires forall k :: k in fit.params <==> k in W.names
      modifies this`lr, this`updates, this`Rounds, W, WOld, dW
      ensures Valid()
      ensures lr == old(lr) * Decay
      ensures WOld.tensors == old(W.tensors) && W.tensors == fit.params
      ensures fit.FitFailed? ==>
                r == Failure(TrainingFailed) && dW.tensors == old(dW.tensors) && Rounds == old(Rounds)
      ensures fit.Fitted? ==>
                var run := AccumulateKeys(W.names, old(dW.tensors), fit.params, old(W.tensors));
                && Rounds == old(Rounds) + [Round(fit.params, old(W.tensors))]
                && dW.tensors == run.tensors
                && r == if run.status == Done then Success(fit.loss) else Failure(run.status.fault)
    {
      StartRound();
      r := FinishRound(fit);
    }

    /** The part of compute_weight_update before training: W_old becomes a copy of W (the two
        have the same keys, so the copy cannot raise) and the learning rate decays. */
    method StartRound()
      requires Valid()
      modifies this`lr, this`updates, WOld
      ensures Valid()
      ensures lr == old(lr) * Decay && WOld.tensors == W.tensors
    {
      var copied := CopyAlike(WOld, W);
      lr := lr * Decay;
      updates := updates + 1;
    }

    /** The part of compute_weight_update from training on: W holds what training left in it;
        after a successful training, the difference W - W_old is added to dW. */
    method FinishRound(fit: FitOutcome) returns (r: Result<real>)
      requires Valid()
      requires forall k :: k in fit.params <==> k in W.names
      modifies this`Rounds, W, dW
      ensures Valid()
      ensures W.tensors == fit.params
      ensures fit.FitFailed? ==>
                r == Failure(TrainingFailed) && dW.tensors == old(dW.tensors) && Rounds == old(Rounds)
      ensures fit.Fitted? ==>
                var run := AccumulateKeys(W.names, old(dW.tensors), fit.params, WOld.tensors);
                && Rounds == old(Rounds) + [Round(fit.params, WOld.tensors)]
                && dW.tensors == run.tensors
                && r == if run.status == Done then Success(fit.loss) else Failure(run.status.fault)
    {
      W.tensors := fit.params;
      if fit.FitFailed? {
        return Failure(TrainingFailed);
      }
      var status := AccumulateRound();
      r := if status.Failed? then Failure(status.fault) else Success(fit.loss);
    }

    /** get_dW(dW, W, W_old) at the end of a round: dW grows by W - W_old, and the round joins
        the ledger dW is accounted against. */
    method AccumulateRound() returns (status: Status)
      requires Valid()
      modifies this`Rounds, dW
      ensures Valid()
      ensures Rounds == old(Rounds) + [Round(W.tensors, WOld.tensors)]
      ensures Run(dW.tensors, status) == AccumulateKeys(W.names, old(dW.tensors), W.tensors, WOld.tensors)
    {
      ReplayAppend(W.names, Zero, Rounds, Round(W.tensors, WOld.tensors));
      Rounds := Rounds + [Round(W.tensors, WOld.tensors)];
      status := GetDW(dW, W, WOld);
      assert W.Valid() && WOld.Valid() && dW.Valid();
      assert dW.tensors == Replay(W.names, Zero, Rounds);
    }

    /** reset: copy the rollback point into W. Before any synchronization the attribute does not
        exist; after one, the rollback point is W itself, so W keeps its current weights. */
    method Reset() returns (status: Status)
      requires Valid()
      modifies W
      ensures Valid()
      ensures status == if WOriginal == null then Failed(MissingAttribute("W_original")) else Done
      ensures W.tensors == old(W.tensors)
    {
      if WOriginal == null {
        return Failed(MissingAttribute("W_original"));
      }
      assert WOriginal == W;
      SelfCopyIsIdentity(W.names, W.tensors);
      status := Copy(W, WOriginal);
    }
  }

  /** A positive learning rate stays positive and strictly decreases with every update. */
  lemma {:induction false} RateDecreases(lr0: real, n: nat)
    requires lr0 > 0.0
    ensures 0.0 < Rate(lr0, n + 1) < Rate(lr0, n) <= lr0
  {
    if n > 0 {
      RateDecreases(lr0, n - 1);
    }
  }

  /** The rate after n updates is lr0 * 0.99^n. */
  lemma {:induction false} RateClosedForm(lr0: real, n: nat)
    ensures Rate(lr0, n) == lr0 * Pow(Decay, n)
  {
    if n > 0 {
      RateClosedForm(lr0, n - 1);
      assert lr0 * Pow(Decay, n) == lr0 * Pow(Decay, n - 1) * Decay;
    }
  }

  /** Replaying one more round applies get_dW once more to what the earlier rounds left. */
  lemma ReplayAppend(names: seq<Name>, d: map<Name, Tensor>, rounds: seq<Round>, r: Round)
    requires Covers(names, d)
    ensures Replay(names, d, rounds + [r]) == AccumulateKeys(names, Replay(names, d, rounds), r.after, r.before).tensors
  {
    assert (rounds + [r])[..|rounds|] == rounds;
  }

  /** dW is never zeroed by the client: when every finished round kept the tensor sizes, dW holds,
      element by element, the sum over all rounds of W after training minus W before it. */
  lemma DwSumsAllRounds(c: Client)
    requires c.Valid()
    requires RoundsFit(c.W.names, c.Zero, c.Rounds)
    ensures forall k, e :: k in c.W.names && 0 <= e < |c.Zero[k]| ==>
              e < |c.dW.tensors[k]| && c.dW.tensors[k][e] == DeltaSum(c.Rounds, k, e)
  {
    ReplaySumsDeltas(c.W.names, c.Zero, c.Rounds);
  }

  /** One entry of the model cache: the member indices, a snapshot of the parameters, and the
      accuracies of the members. */
  datatype CacheEntry = CacheEntry(indices: seq<int>, params: Params, accuracies: seq<real>)

  /** Python's xs[i]: a negative index counts from the end. */
  function PyIndex(n: nat, i: int): (k: int)
    requires -(n as int) <= i < n
    ensures 0 <= k < n
    ensures i >= 0 ==> k == i
    ensures i < 0 ==> k + (-i) == n
  {
    if i < 0 then n + i else i
  }

  /** [xs[i] for i in idcs]: IndexError for the first index out of range. */
  function Gather(xs: seq<real>, idcs: seq<int>): (r: Result<seq<real>>)
    ensures r.Success? ==> |r.value| == |idcs|
    ensures r.Failure? ==> exists j :: 0 <= j < |idcs| && r.error == IndexOutOfRange(idcs[j])
  {
    if idcs == [] then Success([])
    else if !(-|xs| <= idcs[0] < |xs|) then Failure(IndexOutOfRange(idcs[0]))
    else
      match Gather(xs, idcs[1..])
      case Failure(f) => Failure(f)
      case Success(rest) => Success([xs[PyIndex(|xs|, idcs[0])]] + rest)
  }

  /** The list comprehension succeeds exactly when every index is in range, and then picks, in
      order, the element each index designates; otherwise it raises for the first bad index. */
  lemma {:induction false} GatherPicks(xs: seq<real>, idcs: seq<int>)
    ensures Gather(xs, idcs).Success? <==> forall j :: 0 <= j < |idcs| ==> -|xs| <= idcs[j] < |xs|
    ensures Gather(xs, idcs).Success? ==>
              && |Gather(xs, idcs).value| == |idcs|
              && forall j :: 0 <= j < |idcs| ==> Gather(xs, idcs).value[j] == xs[PyIndex(|xs|, idcs[j])]
    ensures Gather(xs, idcs).Failure? ==>
              exists j :: && 0 <= j < |idcs| && !(-|xs| <= idcs[j] < |xs|)
                          && Gather(xs, idcs).error == IndexOutOfRange(idcs[j])
                          && forall i :: 0 <= i < j ==> -|xs| <= idcs[i] < |xs|
  {
    if idcs != [] {
      GatherPicks(xs, idcs[1..]);
      if Gather(xs, idcs).Failure? && -|xs| <= idcs[0] < |xs| {
        var j :| 0 <= j < |idcs[1..]| && !(-|xs| <= idcs[1..][j] < |xs|)
                 && Gather(xs, idcs[1..]).error == IndexOutOfRange(idcs[1..][j])
                 && forall i :: 0 <= i < j ==> -|xs| <= idcs[1..][i] < |xs|;
        assert forall i :: 0 <= i < j + 1 ==> -|xs| <= idcs[i] < |xs|;
      }
    }
  }

  /** The W dicts of a list of clients. */
  function WsOf(cs: seq<Client>): (ws: seq<ParamMap>)
    ensures |ws| == |cs| && forall j :: 0 <= j < |cs| ==> ws[j] == cs[j].W
  {
    if cs == [] then [] else [cs[0].W] + WsOf(cs[1..])
  }

  /** The dW dicts of a list of clients. */
  function DwsOf(cs: seq<Client>): (ds: seq<ParamMap>)
    ensures |ds| == |cs| && forall j :: 0 <= j < |cs| ==> ds[j] == cs[j].dW
  {
    if cs == [] then [] else [cs[0].dW] + DwsOf(cs[1..])
  }

  /** The W dict of one client is not a dict of another client of the list. */
  predicate Separate(cs: seq<Client>) {
    forall i, j :: 0 <= i < |cs| && 0 <= j < |cs| && i != j ==>
      cs[i].W != cs[j].W && cs[i].W != cs[j].WOld && cs[i].W != cs[j].dW
  }

  /** The W dict of a client of one cohort is not a dict of a client of the other. */
  predicate Apart(a: seq<Client>, b: seq<Client>) {
    forall p, q :: 0 <= p < |a| && 0 <= q < |b| ==>
      && a[p].W != b[q].W && a[p].W != b[q].WOld && a[p].W != b[q].dW
      && b[q].W != a[p].WOld && b[q].W != a[p].dW
  }

  /** The cohorts come from a clustering of distinct clients, each with dicts of its own: no
      client's W dict is a dict of another client, within a cohort or across two. */
  predicate Partitioned(cohorts: seq<seq<Client>>) {
    && (forall ci {:trigger Separate(cohorts[ci])} :: 0 <= ci < |cohorts| ==> Separate(cohorts[ci]))
    && (forall ci, cj {:trigger Apart(cohorts[ci], cohorts[cj])} :: 0 <= ci < cj < |cohorts| ==> Apart(cohorts[ci], cohorts[cj]))
  }

  lemma CohortCovered(cs: seq<Client>)
    requires forall j :: 0 <= j < |cs| ==> cs[j].Valid()
    ensures TargetsCovered(NamesOf(WsOf(cs)), TensorsOf(WsOf(cs)))
  {
    forall j | 0 <= j < |cs| ensures Covers(WsOf(cs)[j].names, WsOf(cs)[j].tensors) {
    }
  }

  /** Within a cohort the W dicts are valid, distinct, and none of them is a dW dict. */
  lemma CohortDicts(cs: seq<Client>)
    requires forall j :: 0 <= j < |cs| ==> cs[j].Valid()
    requires Separate(cs)
    ensures forall j :: 0 <= j < |cs| ==> WsOf(cs)[j].Valid()
    ensures Unaliased(WsOf(cs))
    ensures forall t :: t in WsOf(cs) ==> t !in DwsOf(cs)
  {
    var ws, ds := WsOf(cs), DwsOf(cs);
    forall j | 0 <= j < |cs| ensures ws[j].Valid() {
    }
    forall t | t in ws ensures t !in ds {
      var j :| 0 <= j < |ws| && ws[j] == t;
      forall k | 0 <= k < |ds| ensures ds[k] != t {
        if k == j {
          assert cs[j].Intact();
        }
      }
    }
  }

  /** The W_old and dW dicts of a client of any cohort are never among the W dicts of cohort ci. */
  lemma NotATarget(cohorts: seq<seq<Client>>, ci: nat, cj: nat, q: nat)
    requires ci < |cohorts| && cj < |cohorts| && q < |cohorts[cj]|
    requires Partitioned(cohorts) && cohorts[cj][q].Valid()
    ensures cohorts[cj][q].WOld !in WsOf(cohorts[ci]) && cohorts[cj][q].dW !in WsOf(cohorts[ci])
  {
    if ci < cj {
      assert Apart(cohorts[ci], cohorts[cj]);
    } else if cj < ci {
      assert Apart(cohorts[cj], cohorts[ci]);
    } else {
      assert Separate(cohorts[ci]);
    }
  }

  /** The key lists of every cohort's W dicts. */
  function CohortNames(cohorts: seq<seq<Client>>): (ns: seq<seq<seq<Name>>>)
    ensures |ns| == |cohorts| && forall ci :: 0 <= ci < |cohorts| ==> ns[ci] == NamesOf(WsOf(cohorts[ci]))
  {
    if cohorts == [] then [] else [NamesOf(WsOf(cohorts[0]))] + CohortNames(cohorts[1..])
  }

  /** The contents of every cohort's W dicts. */
  function Contents(cohorts: seq<seq<Client>>): (ws: seq<seq<map<Name, Tensor>>>)
    reads set cj, j | 0 <= cj < |cohorts| && 0 <= j < |cohorts[cj]| :: cohorts[cj][j].W
    ensures |ws| == |cohorts| && forall ci :: 0 <= ci < |cohorts| ==> ws[ci] == TensorsOf(WsOf(cohorts[ci]))
  {
    if cohorts == [] then [] else [TensorsOf(WsOf(cohorts[0]))] + Contents(cohorts[1..])
  }

  /** The contents of every cohort's dW dicts. */
  function DwContents(cohorts: seq<seq<Client>>): (ds: seq<seq<map<Name, Tensor>>>)
    reads set cj, j | 0 <= cj < |cohorts| && 0 <= j < |cohorts[cj]| :: cohorts[cj][j].dW
    ensures |ds| == |cohorts| && forall ci :: 0 <= ci < |cohorts| ==> ds[ci] == TensorsOf(DwsOf(cohorts[ci]))
  {
    if cohorts == [] then [] else [TensorsOf(DwsOf(cohorts[0]))] + DwContents(cohorts[1..])
  }

  /** Every cohort's targets have a tensor for each of their keys. */
  ghost predicate CohortsCovered(ns: seq<seq<seq<Name>>>, ws: seq<seq<map<Name, Tensor>>>) {
    |ns| == |ws| && forall ci :: 0 <= ci < |ns| ==> TargetsCovered(ns[ci], ws[ci])
  }

  /** What reduce_add_average would do to each cohort's W dicts, from the given contents of its W
      dicts (the targets) and its dW dicts (the sources). */
  function CohortRuns(ns: seq<seq<seq<Name>>>, ws: seq<seq<map<Name, Tensor>>>, ds: seq<seq<map<Name, Tensor>>>): (rs: seq<RunAll>)
    requires CohortsCovered(ns, ws) && |ds| == |ws|
    ensures |rs| == |ns| && forall ci :: 0 <= ci < |ns| ==> |rs[ci].maps| == |ws[ci]|
  {
    if ns == [] then [] else [AddMeanFrom(ns[0], ws[0], 0, ds[0])] + CohortRuns(ns[1..], ws[1..], ds[1..])
  }

  /** Run ci of CohortRuns is reduce_add_average over cohort ci's contents. */
  lemma {:induction false} CohortRunAt(ns: seq<seq<seq<Name>>>, ws: seq<seq<map<Name, Tensor>>>, ds: seq<seq<map<Name, Tensor>>>, ci: nat)
    requires CohortsCovered(ns, ws) && |ds| == |ws| && ci < |ns|
    ensures CohortRuns(ns, ws, ds)[ci] == AddMeanFrom(ns[ci], ws[ci], 0, ds[ci])
  {
    if ci > 0 {
      CohortRunAt(ns[1..], ws[1..], ds[1..], ci - 1);
    }
  }

  /** The status of the first run that raised; Done when none did. */
  function FirstFault(runs: seq<RunAll>): (s: Status)
    ensures s.Done? <==> forall i :: 0 <= i < |runs| ==> runs[i].status.Done?
  {
    if runs == [] then Done
    else if runs[0].status.Failed? then runs[0].status
    else FirstFault(runs[1..])
  }

  /** When run f raises and every run before it finished, the call raises what run f raised. */
  lemma {:induction false} FirstFaultAt(runs: seq<RunAll>, f: nat)
    requires f < |runs| && runs[f].status.Failed?
    requires forall i :: 0 <= i < f ==> runs[i].status.Done?
    ensures FirstFault(runs) == runs[f].status
  {
    if f > 0 {
      FirstFaultAt(runs[1..], f - 1);
    }
  }

  /** What aggregate_clusterwise leaves in the W dicts of each cohort: up to the first cohort
      that raises, what its run left (partly updated for the one that raised); after it, the
      contents from before. */
  function Aggregated(runs: seq<RunAll>, before: seq<seq<map<Name, Tensor>>>): (after: seq<seq<map<Name, Tensor>>>)
    requires |runs| == |before|
    ensures |after| == |runs|
    ensures forall ci :: 0 <= ci < |runs| && (forall cj :: 0 <= cj < ci ==> runs[cj].status.Done?) ==> after[ci] == runs[ci].maps
    ensures forall ci, cj :: 0 <= cj < ci < |runs| && runs[cj].status.Failed? ==> after[ci] == before[ci]
  {
    seq(|runs|, ci requires 0 <= ci < |runs| =>
      if forall cj :: 0 <= cj < ci ==> runs[cj].status.Done? then runs[ci].maps else before[ci])
  }

  /** The W dicts of two different cohorts are different dicts. */
  lemma OtherCohort(cohorts: seq<seq<Client>>, ci: nat, cj: nat, p: ParamMap)
    requires ci < |cohorts| && cj < |cohorts| && ci != cj && Partitioned(cohorts)
    requires p in WsOf(cohorts[cj])
    ensures p !in WsOf(cohorts[ci])
  {
    var q :| 0 <= q < |cohorts[cj]| && WsOf(cohorts[cj])[q] == p;
    if ci < cj {
      assert Apart(cohorts[ci], cohorts[cj]);
    } else {
      assert Apart(cohorts[cj], cohorts[ci]);
    }
  }

  /** The W dicts after the first f cohorts have run: what their runs left, then the contents
      from before. */
  ghost predicate StageHolds(cohorts: seq<seq<Client>>, runs: seq<RunAll>, before: seq<seq<map<Name, Tensor>>>, f: nat)
    reads AllWs(cohorts)
  {
    && |runs| == |before| == |cohorts| && f <= |cohorts|
    && (forall cj :: 0 <= cj < |cohorts| ==> |runs[cj].maps| == |before[cj]| == |cohorts[cj]|)
    && forall cj, j :: 0 <= cj < |cohorts| && 0 <= j < |cohorts[cj]| ==>
         cohorts[cj][j].W.tensors == if cj < f then runs[cj].maps[j] else before[cj][j]
  }

  /** When every cohort before the last one run finished, and that one raised unless it was the
      last cohort, the W dicts hold what Aggregated describes. */
  lemma AggregatedHolds(cohorts: seq<seq<Client>>, runs: seq<RunAll>, before: seq<seq<map<Name, Tensor>>>, g: nat)
    requires StageHolds(cohorts, runs, before, g)
    requires forall cj :: 0 <= cj < g - 1 ==> runs[cj].status.Done?
    requires g < |runs| ==> 0 < g && runs[g - 1].status.Failed?
    ensures WsHold(cohorts, Aggregated(runs, before))
  {
    var agg := Aggregated(runs, before);
    forall cj, j | 0 <= cj < |cohorts| && 0 <= j < |cohorts[cj]| ensures cohorts[cj][j].W.tensors == agg[cj][j] {
      if cj >= g {
        assert runs[g - 1].status.Failed?;
      }
    }
  }

  /** The W dicts of cohort ci: what its reduce_add_average may change. */
  function Targets(cohorts: seq<seq<Client>>, ci: nat): set<ParamMap>
    requires ci < |cohorts|
  {
    set j | 0 <= j < |cohorts[ci]| :: cohorts[ci][j].W
  }

  /** No W_old or dW dict of any client, and no W dict of another cohort, is among the W dicts of
      cohort ci. */
  lemma OutsideTargets(cohorts: seq<seq<Client>>, ci: nat)
    requires ci < |cohorts| && Partitioned(cohorts)
    requires forall cj, j :: 0 <= cj < |cohorts| && 0 <= j < |cohorts[cj]| ==> cohorts[cj][j].Valid()
    ensures forall cj, j :: 0 <= cj < |cohorts| && 0 <= j < |cohorts[cj]| ==>
              && cohorts[cj][j].WOld !in Targets(cohorts, ci) && cohorts[cj][j].dW !in Targets(cohorts, ci)
              && (cj != ci ==> cohorts[cj][j].W !in Targets(cohorts, ci))
  {
    forall cj, j | 0 <= cj < |cohorts| && 0 <= j < |cohorts[cj]|
      ensures cohorts[cj][j].WOld !in Targets(cohorts, ci) && cohorts[cj][j].dW !in Targets(cohorts, ci)
      ensures cj != ci ==> cohorts[cj][j].W !in Targets(cohorts, ci)
    {
      NotATarget(cohorts, ci, cj, j);
      if cj != ci {
        OtherCohort(cohorts, ci, cj, WsOf(cohorts[cj])[j]);
      }
    }
  }

  /** The body of aggregate_clusterwise's loop for cohort ci: reduce_add_average over the cohort's
      W dicts, averaging its dW dicts. */
  method AggregateCohort(cohorts: seq<seq<Client>>, ci: nat, ghost run: RunAll) returns (status: Status)
    requires ci < |cohorts|
    requires forall j :: 0 <= j < |cohorts[ci]| ==> cohorts[ci][j].Valid()
    requires Separate(cohorts[ci])
    requires TargetsCovered(NamesOf(WsOf(cohorts[ci])), TensorsOf(WsOf(cohorts[ci])))
    requires run == AddMeanFrom(NamesOf(WsOf(cohorts[ci])), TensorsOf(WsOf(cohorts[ci])), 0, TensorsOf(DwsOf(cohorts[ci])))
    modifies Targets(cohorts, ci)
    ensures status == run.status && |run.maps| == |cohorts[ci]|
    ensures forall j :: 0 <= j < |cohorts[ci]| ==> cohorts[ci][j].W.Valid() && cohorts[ci][j].W.tensors == run.maps[j]
  {
    var cs := cohorts[ci];
    CohortDicts(cs);
    status := ReduceAddAverage(WsOf(cs), DwsOf(cs));
  }

  /** The clients of the cohorts, and their W, W_old and dW dicts. */
  function Members(cohorts: seq<seq<Client>>): set<Client> {
    set cj, j | 0 <= cj < |cohorts| && 0 <= j < |cohorts[cj]| :: cohorts[cj][j]
  }

  function AllWs(cohorts: seq<seq<Client>>): set<ParamMap> {
    set cj, j | 0 <= cj < |cohorts| && 0 <= j < |cohorts[cj]| :: cohorts[cj][j].W
  }

  function AllWOlds(cohorts: seq<seq<Client>>): set<ParamMap> {
    set cj, j | 0 <= cj < |cohorts| && 0 <= j < |cohorts[cj]| :: cohorts[cj][j].WOld
  }

  function AllDws(cohorts: seq<seq<Client>>): set<ParamMap> {
    set cj, j | 0 <= cj < |cohorts| && 0 <= j < |cohorts[cj]| :: cohorts[cj][j].dW
  }

  /** Every client of every cohort keeps its invariant. */
  ghost predicate AllValid(cohorts: seq<seq<Client>>)
    reads Members(cohorts), AllWs(cohorts), AllWOlds(cohorts), AllDws(cohorts)
  {
    forall cj, j :: 0 <= cj < |cohorts| && 0 <= j < |cohorts[cj]| ==> cohorts[cj][j].Valid()
  }

  /** The W dicts of the cohorts hold st, cohort by cohort and client by client. */
  ghost predicate WsHold(cohorts: seq<seq<Client>>, st: seq<seq<map<Name, Tensor>>>)
    reads AllWs(cohorts)
  {
    && |st| == |cohorts| && (forall cj :: 0 <= cj < |cohorts| ==> |st[cj]| == |cohorts[cj]|)
    && forall cj, j :: 0 <= cj < |cohorts| && 0 <= j < |cohorts[cj]| ==> cohorts[cj][j].W.tensors == st[cj][j]
  }

  /** The dW dicts of the cohorts hold dws. */
  ghost predicate DwsHold(cohorts: seq<seq<Client>>, dws: seq<seq<map<Name, Tensor>>>)
    reads AllDws(cohorts)
  {
    && |dws| == |cohorts| && (forall cj :: 0 <= cj < |cohorts| ==> |dws[cj]| == |cohorts[cj]|)
    && forall cj, j :: 0 <= cj < |cohorts| && 0 <= j < |cohorts[cj]| ==> cohorts[cj][j].dW.tensors == dws[cj][j]
  }

  /** The dicts hold what Contents and DwContents read from them. */
  lemma ContentsHold(cohorts: seq<seq<Client>>)
    ensures WsHold(cohorts, Contents(cohorts)) && DwsHold(cohorts, DwContents(cohorts))
  {
  }

  /** The W dicts of the cohorts hold st, cohort by cohort and client by client. */
  lemma ContentsAre(cohorts: seq<seq<Client>>, st: seq<seq<map<Name, Tensor>>>)
    requires WsHold(cohorts, st)
    ensures Contents(cohorts) == st
  {
    forall cj | 0 <= cj < |cohorts| ensures Contents(cohorts)[cj] == st[cj] {
      assert TensorsOf(WsOf(cohorts[cj])) == st[cj];
    }
  }

  /** What the dicts of cohort f hold before its turn. */
  lemma CohortHolds(cohorts: seq<seq<Client>>, runs: seq<RunAll>, before: seq<seq<map<Name, Tensor>>>,
                    dws: seq<seq<map<Name, Tensor>>>, f: nat)
    requires f < |cohorts| && StageHolds(cohorts, runs, before, f) && DwsHold(cohorts, dws)
    ensures TensorsOf(WsOf(cohorts[f])) == before[f] && TensorsOf(DwsOf(cohorts[f])) == dws[f]
  {
  }

  /** One turn of aggregate_clusterwise's loop, at cohort f, after the cohorts before it all
      finished: cohort f's W dicts receive what its run leaves in them, and nothing else changes. */
  method AggregateTurn(cohorts: seq<seq<Client>>, ghost runs: seq<RunAll>, ghost before: seq<seq<map<Name, Tensor>>>,
                       ghost dws: seq<seq<map<Name, Tensor>>>, f: nat) returns (status: Status)
    requires f < |cohorts| && Partitioned(cohorts) && AllValid(cohorts)
    requires StageHolds(cohorts, runs, before, f) && DwsHold(cohorts, dws)
    requires forall cj :: 0 <= cj < f ==> runs[cj].status.Done?
    requires TargetsCovered(NamesOf(WsOf(cohorts[f])), before[f])
    requires runs[f] == AddMeanFrom(NamesOf(WsOf(cohorts[f])), before[f], 0, dws[f])
    modifies Targets(cohorts, f)
    ensures AllValid(cohorts)
    ensures status == runs[f].status
    ensures status.Done? ==> forall cj :: 0 <= cj < f + 1 ==> runs[cj].status.Done?
    ensures StageHolds(cohorts, runs, before, f + 1) && DwsHold(cohorts, dws)
  {
    CohortHolds(cohorts, runs, before, dws, f);
    OutsideTargets(cohorts, f);
    assert Separate(cohorts[f]);
    status := AggregateCohort(cohorts, f, runs[f]);
    forall cj, j | 0 <= cj < |cohorts| && 0 <= j < |cohorts[cj]|
      ensures cohorts[cj][j].Intact() && cohorts[cj][j].dW.tensors == dws[cj][j]
    {
      var c := cohorts[cj][j];
      assert old(c.Intact()) && c.WOld !in Targets(cohorts, f) && c.dW !in Targets(cohorts, f);
    }
    forall cj, j | 0 <= cj < |cohorts| && 0 <= j < |cohorts[cj]|
      ensures cohorts[cj][j].W.Valid()
      ensures cohorts[cj][j].W.tensors == if cj < f + 1 then runs[cj].maps[j] else before[cj][j]
    {
      if cj != f {
        assert cohorts[cj][j].W !in Targets(cohorts, f);
      }
    }
  }

  /** The loop of aggregate_clusterwise over the cohorts, from the contents before it and the
      runs they determine: it stops at the first cohort that raises. */
  method AggregateCohorts(cohorts: seq<seq<Client>>, ghost runs: seq<RunAll>, ghost before: seq<seq<map<Name, Tensor>>>,
                          ghost dws: seq<seq<map<Name, Tensor>>>) returns (status: Status)
    requires Partitioned(cohorts) && AllValid(cohorts)
    requires StageHolds(cohorts, runs, before, 0) && DwsHold(cohorts, dws)
    requires forall ci :: 0 <= ci < |cohorts| ==> TargetsCovered(NamesOf(WsOf(cohorts[ci])), before[ci])
    requires forall ci :: 0 <= ci < |cohorts| ==> runs[ci] == AddMeanFrom(NamesOf(WsOf(cohorts[ci])), before[ci], 0, dws[ci])
    modifies AllWs(cohorts)
    ensures AllValid(cohorts)
    ensures status == FirstFault(runs) && WsHold(cohorts, Aggregated(runs, before))
  {
    status := Done;
    var ci := 0;
    while ci < |cohorts|
      invariant 0 <= ci <= |cohorts|
      invariant status == Done
      invariant AllValid(cohorts)
      invariant forall cj :: 0 <= cj < ci ==> runs[cj].status.Done?
      invariant StageHolds(cohorts, runs, before, ci) && DwsHold(cohorts, dws)
    {
      status := AggregateTurn(cohorts, runs, before, dws, ci);
      if !status.Done? {
        FirstFaultAt(runs, ci);
        AggregatedHolds(cohorts, runs, before, ci + 1);
        return;
      }
      ci := ci + 1;
    }
    AggregatedHolds(cohorts, runs, before, ci);
  }

  class Server {
    const W: ParamMap
    var modelCache: seq<CacheEntry>

    /** Server.__init__: W holds the model's parameters and the cache is empty. */
    constructor (params: Params)
      requires WellFormed(params)
      ensures W.Valid() && W.Value() == params && modelCache == [] && fresh(W)
    {
      W := new ParamMap(params);
      modelCache := [];
    }

    /** aggregate_weight_updates passes `target=` to reduce_add_average, whose parameter is
        `targets`: the call raises TypeError before anything is averaged, whatever the clients. */
    method AggregateWeightUpdates(clients: seq<Client>) returns (status: Status)
      ensures status == Failed(UnexpectedKeyword("target"))
    {
      status := Failed(UnexpectedKeyword("target"));
    }

    /** compute_pairwise_similarities: pairwise_angles over the clients' dW dicts. */
    method ComputePairwiseSimilarities(clients: seq<Client>, norm: Tensor -> real) returns (r: Result<seq<seq<real>>>)
      requires forall c :: c in clients ==> c.Valid()
      requires IsNorm(norm)
      ensures AllCovered(ValuesOf(DwsOf(clients)))
      ensures IsAngleMatrix(ValuesOf(DwsOf(clients)), norm, r)
    {
      var dws := ValuesOf(DwsOf(clients));
      assert AllCovered(dws) by {
        forall j | 0 <= j < |dws| ensures Covers(dws[j].names, dws[j].tensors) {
          assert clients[j] in clients;
        }
      }
      r := PairwiseAngles(dws, norm);
    }

    /** aggregate_clusterwise: for each cohort in turn, reduce_add_average with the members' W
        dicts as targets and their dW dicts as sources; the first cohort that raises ends the call,
        with its own W dicts partly updated and the later cohorts untouched. */
    method AggregateClusterwise(cohorts: seq<seq<Client>>) returns (status: Status)
      requires AllValid(cohorts) && Partitioned(cohorts)
      modifies AllWs(cohorts)
      ensures AllValid(cohorts)
      ensures CohortsCovered(CohortNames(cohorts), old(Contents(cohorts)))
      ensures var runs := CohortRuns(CohortNames(cohorts), old(Contents(cohorts)), old(DwContents(cohorts)));
              && status == FirstFault(runs)
              && Contents(cohorts) == Aggregated(runs, old(Contents(cohorts)))
    {
      ghost var ns, before, dws := CohortNames(cohorts), Contents(cohorts), DwContents(cohorts);
      forall ci | 0 <= ci < |cohorts| ensures TargetsCovered(ns[ci], before[ci]) {
        CohortCovered(cohorts[ci]);
      }
      ghost var runs := CohortRuns(ns, before, dws);
      forall ci | 0 <= ci < |cohorts| ensures runs[ci] == AddMeanFrom(ns[ci], before[ci], 0, dws[ci]) {
        CohortRunAt(ns, before, dws, ci);
      }
      ContentsHold(cohorts);
      status := AggregateCohorts(cohorts, runs, before, dws);
      ContentsAre(cohorts, Aggregated(runs, before));
    }

    /** get_average_dw: IndexError for no clients; otherwise, key by key in the order of the first
        client's dW, the sum over the clients, then each sum divided by the number of clients. */
    method GetAverageDw(clients: seq<Client>) returns (r: Result<Params>)
      requires forall c :: c in clients ==> c.Valid()
      ensures r == AverageDw(ValuesOf(DwsOf(clients)))
    {
      if |clients| == 0 {
        return Failure(IndexOutOfRange(0));
      }
      ghost var ms := TensorMaps(ValuesOf(DwsOf(clients)));
      var names := clients[0].dW.names;
      var avg: map<Name, Tensor> := map[];
      var i := 0;
      while i < |names|
        invariant 0 <= i <= |names|
        invariant SumKeys(names[i..], ms, avg) == SumKeys(names, ms, map[])
      {
        var name := names[i];
        assert names[i..][1..] == names[i + 1..];
        if name !in clients[0].dW.tensors {
          return Failure(MissingKey(name));
        }
        var acc := clients[0].dW.tensors[name];
        var j := 1;
        while j < |clients|
          invariant 1 <= j <= |clients|
          invariant SumFrom(ms, name, j, acc) == SumAt(ms, name)
        {
          var d := clients[j].dW.tensors;
          if name !in d {
            return Failure(MissingKey(name));
          }
          if |d[name]| != |acc| {
            return Failure(ShapeMismatch(name));
          }
          acc := Add(acc, d[name]);
          j := j + 1;
        }
        avg := avg[name := acc];
        i := i + 1;
      }
      ghost var sums := avg;
      i := 0;
      while i < |names|
        invariant 0 <= i <= |names|
        invariant Covers(names, avg)
        invariant DivideKeys(names[i..], avg, |clients|) == DivideKeys(names, sums, |clients|)
      {
        assert names[i..][1..] == names[i + 1..];
        avg := avg[names[i] := DivideBy(avg[names[i]], |clients| as real)];
        i := i + 1;
      }
      return Success(Params(names, avg));
    }

    /** cache_model: append (idcs, a snapshot of params, [accuracies[i] for i in idcs]); an
        index out of range raises before anything is appended. */
    method CacheModel(idcs: seq<int>, params: ParamMap, accuracies: seq<real>) returns (status: Status)
      modifies this`modelCache
      ensures Gather(accuracies, idcs).Success? ==>
                status == Done && modelCache == old(modelCache) + [CacheEntry(idcs, params.Value(), Gather(accuracies, idcs).value)]
      ensures Gather(accuracies, idcs).Failure? ==>
                status == Failed(Gather(accuracies, idcs).error) && modelCache == old(modelCache)
    {
      var snapshot := params.Value();
      var picked := Gather(accuracies, idcs);
      if picked.Failure? {
        return Failed(picked.error);
      }
      modelCache := modelCache + [CacheEntry(idcs, snapshot, picked.value)];
      status := Done;
    }
  }
}
