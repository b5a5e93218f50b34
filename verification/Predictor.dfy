/** Predicting a whole executable (vericcl/performance/simulation.py, predict with exact=True). */
module Predictor {
  import opened Basics
  import opened CostModel
  import opened Rates
  import opened Replaying
  import opened Faithfulness
  import opened Determinism
  import G = Graphs
  import Kahn
  import S = Simulation

  datatype PredictError = Cycle | BadMode(e: RateError)

  datatype Prediction = Prediction(
    tPred: Option<real>,
    outputReady: Option<real>,
    replay: Replay,
    unavailable: set<nat>,
    missingServices: set<nat>,
    missingResources: set<nat>)

  // ---------------------------------------------------------------- unavailable work

  /** A data operation without a service cost, or on a resource without a capacity. */
  predicate Lacking(ops: Operations, m: Model, k: nat) {
    && k in ops && !ops[k].kind.Nop?
    && (m.ServiceFor(ops[k].costKey, ops[k].payload).None? || !(ops[k].resources <= m.resources.Keys))
  }

  ghost predicate Touches(ops: Operations, bad: set<nat>, k: nat)
    requires k in ops
  {
    ops[k].dependencies * bad != {} || exists b :: b in bad && b in ops && ops[b].resources * ops[k].resources != {}
  }

  /** Missing cost spreads to dependents and to operations that share a resource. */
  ghost predicate Blocked(ops: Operations, m: Model, bad: set<nat>) {
    && (forall k :: k in ops && Lacking(ops, m, k) ==> k in bad)
    && (forall k :: k in ops && Touches(ops, bad, k) ==> k in bad)
  }

  ghost predicate IsUnavailable(ops: Operations, m: Model, bad: set<nat>) {
    && bad <= ops.Keys && Blocked(ops, m, bad)
    && forall c :: Blocked(ops, m, c) ==> bad <= c
  }

  function AffectedBy(ops: Operations, bad: set<nat>): set<nat> {
    set k, r | k in bad && k in ops && r in ops[k].resources :: r
  }

  /** Every blocked set contains these operations. */
  ghost predicate Spread(ops: Operations, m: Model, bad: set<nat>) {
    && bad <= ops.Keys
    && (forall k :: k in ops && Lacking(ops, m, k) ==> k in bad)
    && forall c :: Blocked(ops, m, c) ==> bad <= c
  }

  lemma SpreadNext(ops: Operations, m: Model, bad: set<nat>, k: nat)
    requires Spread(ops, m, bad) && k in ops && Touches(ops, bad, k)
    ensures Spread(ops, m, bad + {k})
  {
    forall c | Blocked(ops, m, c) ensures bad + {k} <= c {
      TouchesMore(ops, bad, c, k);
    }
  }

  lemma TouchesMore(ops: Operations, small: set<nat>, big: set<nat>, k: nat)
    requires k in ops && small <= big && Touches(ops, small, k)
    ensures Touches(ops, big, k)
  {
    if ops[k].dependencies * small != {} {
      var d :| d in ops[k].dependencies * small;
      assert d in ops[k].dependencies * big;
    }
  }

  lemma AffectedTouch(ops: Operations, bad: set<nat>, k: nat)
    requires k in ops
    ensures ops[k].resources * AffectedBy(ops, bad) != {}
        <==> exists b :: b in bad && b in ops && ops[b].resources * ops[k].resources != {}
  {
    if ops[k].resources * AffectedBy(ops, bad) != {} {
      var r :| r in ops[k].resources * AffectedBy(ops, bad);
      var b :| b in bad && b in ops && r in ops[b].resources;
      assert r in ops[b].resources * ops[k].resources;
    }
    if b :| b in bad && b in ops && ops[b].resources * ops[k].resources != {} {
      var r :| r in ops[b].resources * ops[k].resources;
      assert r in ops[k].resources * AffectedBy(ops, bad);
    }
  }

  /** One pass over the operations, with the resources affected before the pass. */
  method SpreadOnce(ops: Operations, ghost m: Model, bad: set<nat>) returns (next: set<nat>)
    requires Spread(ops, m, bad)
    ensures Spread(ops, m, next) && bad <= next
    ensures next == bad ==> Blocked(ops, m, bad)
  {
    hide Spread, Touches;
    var affected := AffectedBy(ops, bad);
    next := bad;
    var rest := ops.Keys;
    while rest != {}
      invariant rest <= ops.Keys
      invariant Spread(ops, m, next) && bad <= next
      invariant forall k :: k in ops && k !in rest && Touches(ops, bad, k) ==> k in next
      decreases |rest|
    {
      var k :| k in rest;
      Touched(ops, bad, next, k);
      if k !in next && (ops[k].dependencies * next != {} || ops[k].resources * affected != {}) {
        SpreadNext(ops, m, next, k);
        next := next + {k};
      }
      rest := rest - {k};
    }
    if next == bad {
      SpreadLacking(ops, m, bad);
    }
  }

  lemma SpreadLacking(ops: Operations, m: Model, bad: set<nat>)
    requires Spread(ops, m, bad)
    ensures forall k :: k in ops && Lacking(ops, m, k) ==> k in bad
  {
  }

  lemma Touched(ops: Operations, bad: set<nat>, next: set<nat>, k: nat)
    requires k in ops && bad <= next
    ensures ops[k].dependencies * next != {} || ops[k].resources * AffectedBy(ops, bad) != {} ==> Touches(ops, next, k)
    ensures Touches(ops, bad, k) ==> ops[k].dependencies * next != {} || ops[k].resources * AffectedBy(ops, bad) != {}
  {
    AffectedTouch(ops, bad, k);
    if ops[k].resources * AffectedBy(ops, bad) != {} {
      TouchesMore(ops, bad, next, k);
    }
    if ops[k].dependencies * bad != {} {
      var d :| d in ops[k].dependencies * bad;
      assert d in ops[k].dependencies * next;
    }
  }

  /** The least set closed under missing costs, dependencies and shared resources. */
  method Unavailable(ops: Operations, m: Model) returns (bad: set<nat>)
    ensures IsUnavailable(ops, m, bad)
  {
    bad := set k | k in ops && Lacking(ops, m, k);
    var changed := true;
    while changed
      invariant Spread(ops, m, bad)
      invariant !changed ==> Blocked(ops, m, bad)
      decreases ops.Keys - bad, if changed then 1 else 0
    {
      var next := SpreadOnce(ops, m, bad);
      SpreadKnown(ops, m, next);
      changed := next != bad;
      if changed {
        var k: nat :| k in next && k !in bad;
        assert k in ops.Keys - bad && k !in ops.Keys - next;
      }
      bad := next;
    }
  }

  lemma SpreadKnown(ops: Operations, m: Model, bad: set<nat>)
    requires Spread(ops, m, bad)
    ensures bad <= ops.Keys
  {
  }

  // ---------------------------------------------------------------- the plan

  ghost function PlanFor(ops: Operations, m: Model, bad: set<nat>): Plan {
    Plan(ops, CostsFor(ops, m), m, ops.Keys - bad)
  }

  function CostsFor(ops: Operations, m: Model): map<nat, ServiceCost> {
    map k | k in ops && !ops[k].kind.Nop? && m.ServiceFor(ops[k].costKey, ops[k].payload).Some?
      :: m.ServiceFor(ops[k].costKey, ops[k].payload).value
  }

  lemma ServiceValid(m: Model, key: nat, size: nat)
    requires m.Valid() && m.ServiceFor(key, size).Some?
    ensures m.ServiceFor(key, size).value.Valid()
  {
    var costs := m.services[key];
    var c := FirstCovering(costs, size).value;
    var i :| 0 <= i < |costs| && costs[i] == c;
  }

  lemma CostsValid(ops: Operations, m: Model)
    requires m.Valid()
    ensures forall k :: k in CostsFor(ops, m) ==> CostsFor(ops, m)[k].Valid()
  {
    forall k | k in CostsFor(ops, m) ensures CostsFor(ops, m)[k].Valid() {
      ServiceValid(m, ops[k].costKey, ops[k].payload);
    }
  }

  lemma PlanIsValid(ops: Operations, m: Model, bad: set<nat>)
    requires ValidOperations(ops) && m.Valid() && G.Acyclic(Dependencies(ops)) && IsUnavailable(ops, m, bad)
    ensures ValidPlan(PlanFor(ops, m, bad))
  {
    var p := PlanFor(ops, m, bad);
    CostsValid(ops, m);
    forall k | k in p.available
      ensures p.ops[k].dependencies <= p.available
      ensures p.ops[k].resources <= p.model.resources.Keys && (!p.ops[k].kind.Nop? ==> k in p.costs)
    {
      AvailableIsClean(ops, m, bad, k);
    }
  }

  lemma AvailableIsClean(ops: Operations, m: Model, bad: set<nat>, k: nat)
    requires ValidOperations(ops) && IsUnavailable(ops, m, bad) && k in ops && k !in bad
    ensures ops[k].dependencies <= ops.Keys - bad
    ensures ops[k].resources <= m.resources.Keys
    ensures !ops[k].kind.Nop? ==> k in CostsFor(ops, m)
    ensures forall b :: b in bad ==> b in ops && ops[b].resources * ops[k].resources == {}
  {
    assert !Touches(ops, bad, k) && !Lacking(ops, m, k);
    forall d | d in ops[k].dependencies ensures d !in bad {
      assert d !in ops[k].dependencies * bad;
    }
    assert ops[k].Valid();
  }

  // ---------------------------------------------------------------- the initial state

  function Initial(available: set<nat>, releases: set<nat>, degrees: map<nat, int>): Replay {
    Replay(0.0, available, releases, degrees, map[], {}, map[], map[], map[], map[], 0, map[], map[], map[], [])
  }

  lemma InitialInv(p: Plan, degrees: map<nat, int>, releases: set<nat>)
    requires ValidPlan(p) && Kahn.Counts(Dependencies(p.ops), {}, degrees)
    requires forall k :: k in releases <==> k in p.available && k in degrees && degrees[k] == 0
    ensures Inv(p, Initial(p.available, releases, degrees), {}) && Busy(Initial(p.available, releases, degrees))
    ensures Forced(p, Initial(p.available, releases, degrees))
  {
    hide Waits, Books, Kahn.Counts, Phases, Forced;
    var s := Initial(p.available, releases, degrees);
    AvailableKnown(p);
    InitialWaits(p, degrees, releases);
    InitialBooks(p, s);
    NothingForced(p, s);
  }

  lemma AvailableKnown(p: Plan)
    requires ValidPlan(p)
    ensures p.available <= p.ops.Keys
  {
  }

  lemma InitialWaits(p: Plan, degrees: map<nat, int>, releases: set<nat>)
    requires p.available <= p.ops.Keys && Kahn.Counts(Dependencies(p.ops), {}, degrees)
    requires forall k :: k in releases <==> k in p.available && k in degrees && degrees[k] == 0
    ensures Waits(p, Initial(p.available, releases, degrees), {})
  {
    var s := Initial(p.available, releases, degrees);
    forall k | k in p.available
      ensures k in degrees && degrees[k] == |p.ops[k].dependencies - s.ends.Keys|
      ensures k in releases <==> p.ops[k].dependencies <= s.ends.Keys
    {
      assert p.ops[k].dependencies - s.ends.Keys == Dependencies(p.ops)[k] - {};
      Kahn.NoneLeft(p.ops[k].dependencies, s.ends.Keys);
    }
  }

  lemma InitialBooks(p: Plan, s: Replay)
    requires s.pending == p.available && s.startup == map[] && s.active == {} && s.ends == map[] && s.starts == map[]
    requires s.begun == map[]
    requires s.rounds == []
    ensures Phases(p, s) && Books(p, s)
  {
  }

  // ---------------------------------------------------------------- the result

  /** s is faithful, and every faithful replay has its times. */
  ghost predicate IsOnlyReplay(p: Plan, s: Replay) {
    Faithful(p, s) && forall f: Replay :: Faithful(p, f) ==> SameTimes(p, s, f)
  }

  ghost predicate IsPrediction(ops: Operations, outputs: set<nat>, m: Model, r: Prediction) {
    && IsUnavailable(ops, m, r.unavailable)
    && IsOnlyReplay(PlanFor(ops, m, r.unavailable), r.replay)
    && (r.tPred.None? <==> r.unavailable != {})
    && (r.tPred.Some? ==> r.replay.ends.Keys == ops.Keys && IsLatest(r.replay.ends, ops.Keys, r.tPred.value))
    && (r.outputReady.None? <==> outputs * r.unavailable != {})
    && (r.outputReady.Some? ==> outputs <= r.replay.ends.Keys && IsLatest(r.replay.ends, outputs, r.outputReady.value))
    && (forall x :: x in r.missingServices <==>
          exists k :: k in ops && !ops[k].kind.Nop? && ops[k].costKey == x && m.ServiceFor(x, ops[k].payload).None?)
    && (forall x :: x in r.missingResources <==>
          exists k :: k in ops && !ops[k].kind.Nop? && x in ops[k].resources && x !in m.resources)
  }

  /** What no model offers. */
  method Missing(ops: Operations, m: Model) returns (services: set<nat>, resources: set<nat>)
    ensures forall x :: x in services <==>
              exists k :: k in ops && !ops[k].kind.Nop? && ops[k].costKey == x && m.ServiceFor(x, ops[k].payload).None?
    ensures forall x :: x in resources <==>
              exists k :: k in ops && !ops[k].kind.Nop? && x in ops[k].resources && x !in m.resources
  {
    services := set k | k in ops && !ops[k].kind.Nop?
      && m.ServiceFor(ops[k].costKey, ops[k].payload).None? :: ops[k].costKey;
    resources := set k, x | k in ops && !ops[k].kind.Nop? && x in ops[k].resources && x !in m.resources :: x;
  }

  /** What is available can be replayed by the rules of the model. */
  ghost predicate Replayable(ops: Operations, m: Model) {
    exists bad, f: Replay :: IsUnavailable(ops, m, bad) && Faithful(PlanFor(ops, m, bad), f)
  }

  /** Some mode of the available operations is refused with this error. */
  ghost predicate Refusal(ops: Operations, m: Model, e: RateError) {
    exists bad :: IsUnavailable(ops, m, bad) && S.RefusedMode(PlanFor(ops, m, bad), e)
  }

  lemma UnavailableUnique(ops: Operations, m: Model, a: set<nat>, b: set<nat>)
    requires IsUnavailable(ops, m, a) && IsUnavailable(ops, m, b)
    ensures a == b
  {
    hide Blocked;
  }

  lemma NotReplayable(ops: Operations, m: Model, bad: set<nat>)
    requires IsUnavailable(ops, m, bad) && S.NoneFaithful(PlanFor(ops, m, bad))
    ensures !Replayable(ops, m)
  {
    hide IsUnavailable, Faithful, PlanFor;
    if Replayable(ops, m) {
      var other, f: Replay :| IsUnavailable(ops, m, other) && Faithful(PlanFor(ops, m, other), f);
      UnavailableUnique(ops, m, bad, other);
    }
  }

  lemma IsReplayable(ops: Operations, m: Model, bad: set<nat>, f: Replay)
    requires IsUnavailable(ops, m, bad) && Faithful(PlanFor(ops, m, bad), f)
    ensures Replayable(ops, m)
  {
    hide IsUnavailable, Faithful, PlanFor;
  }

  lemma OnlyReplay(p: Plan, s: Replay)
    requires ValidPlan(p) && Forced(p, s) && Faithful(p, s)
    ensures IsOnlyReplay(p, s)
  {
    hide ValidPlan, Forced, Faithful, SameTimes;
    forall f: Replay | Faithful(p, f) ensures SameTimes(p, s, f) {
      FinishedIsForced(p, s, f);
    }
  }

  /** Refused for a cycle, or exactly when no replay of what is available follows the rules; otherwise the only one that
      does. */
  method Predict(ops: Operations, outputs: set<nat>, m: Model) returns (r: Result<Prediction, PredictError>)
    requires ValidOperations(ops) && outputs <= ops.Keys && m.Valid()
    ensures r == Err(Cycle) <==> !G.Acyclic(Dependencies(ops))
    ensures r.Err? && r.error.BadMode? ==> Refusal(ops, m, r.error.e)
    ensures r.Ok? <==> G.Acyclic(Dependencies(ops)) && Replayable(ops, m)
    ensures r.Ok? ==> IsPrediction(ops, outputs, m, r.value)
  {
    hide *;
    OperationsClosed(ops);
    var deps := map k | k in ops :: ops[k].dependencies;
    DependenciesAre(ops, deps);
    var acyclic, degrees, followers := Kahn.CheckAcyclic(deps);
    if !acyclic {
      return Err(Cycle);
    }
    var bad := Unavailable(ops, m);
    var services, resources := Missing(ops, m);
    var p := PlanOf(ops, m, bad);
    PlanIsValid(ops, m, bad);
    PlanParts(ops, m, bad);
    var releases := set k | k in p.available && k in degrees && degrees[k] == 0;
    InitialInv(p, degrees, releases);
    var run := S.Run(p, followers, Initial(p.available, releases, degrees));
    if run.Err? {
      assert Refusal(ops, m, run.error) by {
        Refused(ops, m, bad, run.error);
      }
      NotReplayable(ops, m, bad);
      return Err(BadMode(run.error));
    }
    FinalIsFaithful(p, run.value);
    FaithfulEnds(p, run.value);
    OnlyReplay(p, run.value);
    IsReplayable(ops, m, bad, run.value);
    var tPred, outputReady := Readings(ops, outputs, bad, run.value.ends);
    r := Ok(Prediction(tPred, outputReady, run.value, bad, services, resources));
    Assembled(ops, outputs, m, r.value);
  }

  method PlanOf(ops: Operations, m: Model, bad: set<nat>) returns (p: Plan)
    ensures p == PlanFor(ops, m, bad)
  {
    p := Plan(ops, CostsFor(ops, m), m, ops.Keys - bad);
  }

  lemma OperationsClosed(ops: Operations)
    requires ValidOperations(ops)
    ensures G.Closed(Dependencies(ops))
  {
  }

  lemma DependenciesAre(ops: Operations, deps: map<nat, set<nat>>)
    requires deps == map k | k in ops :: ops[k].dependencies
    ensures deps == Dependencies(ops)
  {
  }

  lemma PlanParts(ops: Operations, m: Model, bad: set<nat>)
    ensures PlanFor(ops, m, bad).ops == ops && PlanFor(ops, m, bad).available == ops.Keys - bad
  {
  }

  lemma Refused(ops: Operations, m: Model, bad: set<nat>, e: RateError)
    requires IsUnavailable(ops, m, bad) && S.RefusedMode(PlanFor(ops, m, bad), e)
    ensures Refusal(ops, m, e)
  {
  }

  lemma FaithfulEnds(p: Plan, s: Replay)
    requires Faithful(p, s)
    ensures s.ends.Keys == p.available
  {
  }

  method Readings(ops: Operations, outputs: set<nat>, bad: set<nat>, ends: map<nat, real>)
    returns (tPred: Option<real>, outputReady: Option<real>)
    requires ends.Keys == ops.Keys - bad && outputs <= ops.Keys
    ensures tPred.None? <==> bad != {}
    ensures tPred.Some? ==> ends.Keys == ops.Keys && IsLatest(ends, ops.Keys, tPred.value)
    ensures outputReady.None? <==> outputs * bad != {}
    ensures outputReady.Some? ==> outputs <= ends.Keys && IsLatest(ends, outputs, outputReady.value)
  {
    tPred, outputReady := None, None;
    if bad == {} {
      var t := Latest(ends, ends.Keys);
      tPred := Some(t);
    }
    if outputs * bad == {} {
      forall k | k in outputs ensures k in ends.Keys {
        assert k !in outputs * bad;
      }
      var t := Latest(ends, outputs);
      outputReady := Some(t);
    }
  }

  lemma Assembled(ops: Operations, outputs: set<nat>, m: Model, r: Prediction)
    requires IsUnavailable(ops, m, r.unavailable)
    requires IsOnlyReplay(PlanFor(ops, m, r.unavailable), r.replay)
    requires r.tPred.None? <==> r.unavailable != {}
    requires r.tPred.Some? ==> r.replay.ends.Keys == ops.Keys && IsLatest(r.replay.ends, ops.Keys, r.tPred.value)
    requires r.outputReady.None? <==> outputs * r.unavailable != {}
    requires r.outputReady.Some? ==>
        outputs <= r.replay.ends.Keys && IsLatest(r.replay.ends, outputs, r.outputReady.value)
    requires forall x :: x in r.missingServices <==>
               exists k :: k in ops && !ops[k].kind.Nop? && ops[k].costKey == x && m.ServiceFor(x, ops[k].payload).None?
    requires forall x :: x in r.missingResources <==>
               exists k :: k in ops && !ops[k].kind.Nop? && x in ops[k].resources && x !in m.resources
    ensures IsPrediction(ops, outputs, m, r)
  {
    hide IsOnlyReplay, IsUnavailable, IsLatest;
  }

  /** A prediction is determined by the executable and the model. */
  lemma PredictionIsUnique(ops: Operations, outputs: set<nat>, m: Model, x: Prediction, y: Prediction)
    requires IsPrediction(ops, outputs, m, x) && IsPrediction(ops, outputs, m, y)
    ensures x.unavailable == y.unavailable && x.replay.starts == y.replay.starts && x.replay.ends == y.replay.ends
    ensures x.tPred == y.tPred && x.outputReady == y.outputReady
    ensures x.missingServices == y.missingServices && x.missingResources == y.missingResources
  {
    hide IsUnavailable, Faithful, IsLatest, PlanFor;
    UnavailableUnique(ops, m, x.unavailable, y.unavailable);
    if x.tPred.Some? {
      LatestUnique(x.replay.ends, ops.Keys, x.tPred.value, y.tPred.value);
    }
    if x.outputReady.Some? {
      LatestUnique(x.replay.ends, outputs, x.outputReady.value, y.outputReady.value);
    }
  }

  lemma GroupFlowsShared(ops: Operations, m: Model, keys: set<nat>, e: RateError)
    requires m.profiles == [] && forall a, b :: a in ops && b in ops && a != b ==> ops[a].flow != ops[b].flow
    ensures !SomeGroupRefused(ops, m, keys, e)
  {
  }

  /** Replay errors need a profile or a shared flow: without profiles and with distinct flows every acyclic executable
      is predicted. */
  lemma NothingRefused(ops: Operations, m: Model, e: RateError)
    requires m.profiles == [] && forall a, b :: a in ops && b in ops && a != b ==> ops[a].flow != ops[b].flow
    ensures !Refusal(ops, m, e)
  {
    if Refusal(ops, m, e) {
      var bad :| IsUnavailable(ops, m, bad) && S.RefusedMode(PlanFor(ops, m, bad), e);
      var mode: set<nat> :| SomeGroupRefused(ops, m, Communicating(ops, mode), e);
      GroupFlowsShared(ops, m, Communicating(ops, mode), e);
    }
  }
}
