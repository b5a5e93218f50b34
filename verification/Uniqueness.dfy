/** Any two faithful replays of a plan have the same times: one of them serves to carry a replay of the plan to its end,
    and what
    that replay records is forced on every faithful one (vericcl/performance/simulation.py, predict with exact=True). */
module Uniqueness {
  import opened Basics
  import opened CostModel
  import opened Rates
  import opened RateChoice
  import opened Replaying
  import opened Faithfulness
  import opened Determinism
  import opened Simulation
  import Kahn
  import P = Predictor

  /** A state between events that every faithful replay agrees with. */
  ghost predicate OnTrack(p: Plan, s: Replay) {
    Inv(p, s, {}) && Busy(s) && Forced(p, s)
  }

  lemma Track(p: Plan, s: Replay)
    requires Inv(p, s, {}) && Busy(s) && Forced(p, s)
    ensures OnTrack(p, s)
  {
    hide Inv, Busy, Forced;
  }

  lemma TrackParts(p: Plan, s: Replay)
    requires OnTrack(p, s)
    ensures Inv(p, s, {}) && Busy(s) && Forced(p, s)
    ensures Phases(p, s) && Waits(p, s, {}) && Books(p, s) && Clock(s)
  {
    hide Inv, Busy, Forced, Phases, Waits, Books, Clock;
    InvPhases(p, s, {});
  }

  // ---------------------------------------------------------------- the steps of the loop, one at a time

  lemma FlowStarts(p: Plan, s: Replay, k: nat)
    requires ValidPlan(p) && OnTrack(p, s) && k in s.startup && s.startup[k] <= s.now
    ensures OnTrack(p, BeginFlow(s, k)) && Work(BeginFlow(s, k)) < Work(s)
  {
    hide *;
    TrackParts(p, s);
    BeginFlowKeeps(p, s, k);
    FlowHasBytes(p, s, k);
    ForcedBegin(p, s, k);
    BeginFlowWork(p, s, k);
    Track(p, BeginFlow(s, k));
  }

  lemma DecidedNow(p: Plan, s: Replay, f: Replay)
    requires ValidPlan(p) && OnTrack(p, s) && Faithful(p, f)
    ensures Decided(p.ops, p.model, s.active + s.startup.Keys + DueNow(p, s))
  {
    hide *;
    TrackParts(p, s);
    DueIsBatch(p, s);
    if !Decided(p.ops, p.model, s.active + s.startup.Keys + DueNow(p, s)) {
      UndecidedRefutes(p, s, DueNow(p, s));
    }
  }

  ghost function SomeAlpha(p: Plan, present: set<nat>, k: nat): (alpha: real)
    requires k in p.ops && k in p.costs && exists a: real :: IsLaunchAlpha(p, present, k, a)
    ensures IsLaunchAlpha(p, present, k, alpha)
  {
    var a: real :| IsLaunchAlpha(p, present, k, a); a
  }

  lemma AlphaExists(p: Plan, present: set<nat>, k: nat)
    requires k in p.ops && k in p.costs && k in present && Decided(p.ops, p.model, present)
    ensures exists a: real :: IsLaunchAlpha(p, present, k, a)
  {
    hide DecidedFor;
    if p.ops[k].Communicates() {
      assert k in Communicating(p.ops, present);
      var found :| DecidedFor(p.ops, p.model, present, k, found);
      assert IsLaunchAlpha(p, present, k, OfferedAlpha(p, k, found));
    } else {
      assert IsLaunchAlpha(p, present, k, p.costs[k].alpha);
    }
  }

  lemma AlphasExist(p: Plan, present: set<nat>, ready: set<nat>) returns (alphas: map<nat, real>)
    requires ValidPlan(p) && ready <= present <= p.available && Decided(p.ops, p.model, present)
    ensures forall k :: k in ready && IsData(p, k) ==>
              k in alphas && k in p.costs && k in p.ops && IsLaunchAlpha(p, present, k, alphas[k])
  {
    forall k | k in ready && IsData(p, k)
      ensures k in p.ops && k in p.costs && exists a: real :: IsLaunchAlpha(p, present, k, a)
    {
      DataHasCost(p, k);
      AlphaExists(p, present, k);
    }
    hide ValidPlan, Decided, IsLaunchAlpha;
    alphas := map k | k in ready && IsData(p, k) :: SomeAlpha(p, present, k);
  }

  lemma DataHasCost(p: Plan, k: nat)
    requires ValidPlan(p) && k in p.available && IsData(p, k)
    ensures k in p.ops && k in p.costs
  {
  }

  lemma {:induction false} LaunchRest(p: Plan, s: Replay, present: set<nat>, rest: set<nat>, alphas: map<nat, real>,
                                      batch: set<nat>)
    returns (t: Replay)
    requires ValidPlan(p) && Inv(p, s, rest) && Busy(s) && PresentNow(p, s, present, rest) && rest <= batch
    requires Forced(p, s) && BatchForced(p, s.now, LastPass(s), batch, alphas)
    requires forall k :: k in rest && IsData(p, k) ==>
        k in alphas && k in p.costs && k in p.ops && IsLaunchAlpha(p, present, k, alphas[k])
    ensures OnTrack(p, t) && Work(t) <= Work(s) && (rest != {} ==> Work(t) < Work(s))
    decreases rest
  {
    hide *;
    if rest == {} {
      Track(p, s);
      t := s;
    } else {
      var k: nat :| k in rest;
      LaunchOneKeeps(p, s, present, k, alphas, rest, batch);
      var u := LaunchedOne(p, s, present, k, alphas);
      SameLastPass(s, u);
      t := LaunchRest(p, u, present, rest - {k}, alphas, batch);
    }
  }

  /** Everything due is launched. */
  lemma BatchLaunches(p: Plan, s: Replay, f: Replay) returns (t: Replay)
    requires ValidPlan(p) && OnTrack(p, s) && Faithful(p, f) && ReleaseDue(p, s)
    ensures OnTrack(p, t) && Work(t) < Work(s)
  {
    hide *;
    TrackParts(p, s);
    var ready := DueNow(p, s);
    DueIsBatch(p, s);
    BatchIsReleased(p, s, ready);
    BatchIsPresent(p, s, ready);
    AvailableIsKnown(p);
    DecidedNow(p, s, f);
    var present := s.active + s.startup.Keys + ready;
    var alphas := AlphasExist(p, present, ready);
    BatchIsForced(p, s, ready, alphas);
    PopKeeps(p, s, ready);
    PopFields(s, ready);
    BusyAfterPop(s, ready);
    ForcedPop(p, s, ready);
    t := LaunchRest(p, Pop(s, ready), present, ready, alphas, ready);
  }

  lemma {:induction false} DrainedFinish(p: Plan, s: Replay) returns (t: Replay)
    requires ValidPlan(p) && Inv(p, s, {}) && Forced(p, s) && s.wave == 0 && s.active <= s.remaining.Keys
    requires forall k :: k in s.active ==> s.remaining[k] >= 0.0
    ensures OnTrack(p, t) && t.now == s.now && t.startup == s.startup && s.releases <= t.releases
    ensures Work(t) <= Work(s) && ((exists k :: k in s.active && s.remaining[k] == 0.0) ==> Work(t) < Work(s))
    decreases s.active
  {
    hide *;
    if k: nat :| k in s.active && s.remaining[k] == 0.0 {
      FinishOne(p, s, k);
      t := DrainedFinish(p, Finish(p, s, k));
    } else {
      NoneDrained(s);
      Track(p, s);
      t := s;
    }
  }

  lemma NoneDrained(s: Replay)
    requires s.active <= s.remaining.Keys && forall k :: k in s.active ==> s.remaining[k] > 0.0
    ensures Busy(s)
  {
  }

  // ---------------------------------------------------------------- time passes

  lemma SomeTime(times: set<real>)
    requires times != {}
    ensures exists t: real :: t in times
  {
    if forall t: real :: t !in times {
      NoTimes(times);
    }
  }

  lemma NoTimes(times: set<real>)
    requires forall t: real :: t !in times
    ensures times == {}
  {
    var none: set<real> := {};
    assert forall t: real :: t in times <==> t in none;
    assert times == none;
  }

  lemma {:induction false} LeastTime(times: set<real>) returns (t: real)
    requires times != {}
    ensures t in times && forall u :: u in times ==> t <= u
    decreases times
  {
    SomeTime(times);
    var x: real :| x in times;
    t := x;
    var others := times - {x};
    if others != {} {
      var least := LeastTime(others);
      t := if least < x then least else x;
    }
    forall u | u in times ensures t <= u {
      assert u == x || u in others;
    }
  }

  ghost function Ahead(p: Plan, s: Replay, finish: map<nat, real>): set<real>
    requires s.releases <= p.ops.Keys
  {
    (set k | k in finish :: finish[k]) + (set k | k in s.startup :: s.startup[k])
    + (set k | k in s.releases :: p.ops[k].notBefore)
  }

  lemma AheadHas(p: Plan, s: Replay, finish: map<nat, real>)
    requires s.releases <= p.ops.Keys
    ensures forall k :: k in finish ==> finish[k] in Ahead(p, s, finish)
    ensures forall k :: k in s.startup ==> s.startup[k] in Ahead(p, s, finish)
    ensures forall k :: k in s.releases ==> p.ops[k].notBefore in Ahead(p, s, finish)
  {
  }

  lemma NothingAhead(p: Plan, s: Replay, finish: map<nat, real>)
    requires s.releases <= p.ops.Keys && Ahead(p, s, finish) == {}
    ensures finish.Keys == {} && s.startup.Keys == {} && s.releases == {}
  {
    AheadHas(p, s, finish);
  }

  lemma LeastIsNext(p: Plan, s: Replay, finish: map<nat, real>, t: real)
    requires s.releases <= p.ops.Keys && t in Ahead(p, s, finish) && forall u :: u in Ahead(p, s, finish) ==> t <= u
    ensures NoneBefore(p, s, finish, t) && IsFuture(p, s, finish, t)
  {
    AheadHas(p, s, finish);
  }

  /** The rates of the present mode: those f drains at, if anything is active. */
  lemma RatesExist(p: Plan, s: Replay, f: Replay) returns (rates: map<nat, real>)
    requires ValidPlan(p) && OnTrack(p, s) && Faithful(p, f) && !Due(p, s)
    ensures Costed(p.ops, p.costs, p.model, s.active) && Rated(p.ops, p.costs, p.model, s.active, rates)
  {
    hide *;
    TrackParts(p, s);
    ActiveIsCosted(p, s);
    NothingDue(p, s);
    if s.active == {} {
      rates := map[];
      CostedIsValid(p.ops, p.costs, p.model, s.active);
      NothingRated(p);
    } else {
      HasMember(s.active);
      var k: nat :| k in s.active;
      ForcedAt(p, s, f);
      rates := RatesInForce(p, s, f, k);
    }
  }

  lemma NothingRated(p: Plan)
    requires p.model.Valid()
    ensures Rated(p.ops, p.costs, p.model, {}, map[])
  {
  }

  ghost function FinishMap(s: Replay, rates: map<nat, real>): map<nat, real>
    requires rates.Keys == s.active && s.active <= s.remaining.Keys && forall k :: k in rates ==> rates[k] > 0.0
  {
    map k | k in s.active :: s.now + s.remaining[k] / rates[k]
  }

  lemma FinishMapIs(s: Replay, rates: map<nat, real>)
    requires rates.Keys == s.active && s.active <= s.remaining.Keys && forall k :: k in rates ==> rates[k] > 0.0
    ensures IsFinishTime(s, rates, FinishMap(s, rates)) && FinishMap(s, rates).Keys == s.active
  {
  }

  /** Time passes to the next event, or nothing is left. */
  lemma TimePasses(p: Plan, s: Replay, f: Replay) returns (t: Replay)
    requires ValidPlan(p) && OnTrack(p, s) && Faithful(p, f) && !Due(p, s)
    ensures OnTrack(p, t)
    ensures (t == s && s.pending == {} && s.startup.Keys == {} && s.active == {}) || Work(t) < Work(s)
        || (Work(t) == Work(s) && Due(p, t))
  {
    hide *;
    TrackParts(p, s);
    ActiveIsCosted(p, s);
    AvailableIsKnown(p);
    var rates := RatesExist(p, s, f);
    RatedRates(p, s.active, rates);
    var finish := FinishMap(s, rates);
    FinishMapIs(s, rates);
    if Ahead(p, s, finish) == {} {
      NothingAhead(p, s, finish);
      NeverStalls(p, s);
      t := s;
    } else {
      var next := LeastTime(Ahead(p, s, finish));
      LeastIsNext(p, s, finish, next);
      NextIsEvent(p, s, rates, finish, next);
      StillDecided(p, s, f);
      AdvanceKeeps(p, s, rates, next);
      ForcedAdvance(p, s, rates, next);
      AdvancedState(s, rates, next);
      var moved := Advance(s, rates, next);
      t := DrainedFinish(p, moved);
      EventHappens(p, s, t, finish, next);
    }
  }

  lemma StillDecided(p: Plan, s: Replay, f: Replay)
    requires ValidPlan(p) && OnTrack(p, s) && Faithful(p, f) && !Due(p, s)
    ensures Decided(p.ops, p.model, s.active + s.startup.Keys)
  {
    DecidedNow(p, s, f);
    hide ValidPlan, OnTrack, Faithful, Decided;
    assert DueNow(p, s) == {};
    assert s.active + s.startup.Keys + {} == s.active + s.startup.Keys;
  }

  // ---------------------------------------------------------------- the end

  /** With a faithful replay at hand, every state on track leads to a finished one. */
  lemma {:induction false} LeadsToEnd(p: Plan, s: Replay, f: Replay) returns (t: Replay)
    requires ValidPlan(p) && OnTrack(p, s) && Faithful(p, f)
    ensures OnTrack(p, t) && t.pending == {} && t.startup.Keys == {} && t.active == {}
    decreases Work(s), Turn(p, s)
  {
    hide *;
    TurnIs(p, s);
    if StartupDue(s) {
      var k := DueStartup(s);
      FlowStarts(p, s, k);
      t := LeadsToEnd(p, BeginFlow(s, k), f);
    } else if ReleaseDue(p, s) {
      var u := BatchLaunches(p, s, f);
      t := LeadsToEnd(p, u, f);
    } else {
      var u := TimePasses(p, s, f);
      TurnIs(p, u);
      if Work(u) == Work(s) && !Due(p, u) {
        t := s;
      } else {
        t := LeadsToEnd(p, u, f);
      }
    }
  }

  lemma TurnIs(p: Plan, s: Replay)
    ensures Due(p, s) <==> StartupDue(s) || ReleaseDue(p, s)
    ensures Turn(p, s) == if Due(p, s) then 0 else 1
  {
  }

  lemma DueStartup(s: Replay) returns (k: nat)
    requires StartupDue(s)
    ensures k in s.startup && s.startup[k] <= s.now
  {
    k :| k in s.startup && s.startup[k] <= s.now;
  }

  ghost function Degrees(p: Plan): map<nat, int> {
    map k | k in p.ops :: |p.ops[k].dependencies|
  }

  /** The state before anything has happened. */
  ghost function Beginning(p: Plan): Replay {
    P.Initial(p.available, Sources(p), Degrees(p))
  }

  ghost function Sources(p: Plan): set<nat> {
    set k | k in p.available && k in p.ops && p.ops[k].dependencies == {}
  }

  lemma BeginsOnTrack(p: Plan)
    requires ValidPlan(p)
    ensures OnTrack(p, Beginning(p))
  {
    DegreesCount(p);
    AvailableIsKnown(p);
    P.InitialInv(p, Degrees(p), Sources(p));
    hide ValidPlan, Inv, Busy, Forced;
  }

  lemma DegreesCount(p: Plan)
    ensures Kahn.Counts(Dependencies(p.ops), {}, Degrees(p))
    ensures forall k :: k in p.ops ==> (Degrees(p)[k] == 0 <==> p.ops[k].dependencies == {})
  {
    forall k | k in p.ops ensures Degrees(p)[k] == |Dependencies(p.ops)[k] - {}| {
      assert Dependencies(p.ops)[k] - {} == p.ops[k].dependencies;
    }
  }

  lemma SameTimesCompose(p: Plan, s: Replay, a: Replay, b: Replay)
    requires SameTimes(p, s, a) && SameTimes(p, s, b)
    ensures SameTimes(p, a, b)
  {
  }

  /** Any two faithful replays of a plan start, begin to drain and end every operation at the same times. */
  lemma FaithfulIsUnique(p: Plan, a: Replay, b: Replay)
    requires ValidPlan(p) && Faithful(p, a) && Faithful(p, b)
    ensures SameTimes(p, a, b)
  {
    hide *;
    BeginsOnTrack(p);
    var s := LeadsToEnd(p, Beginning(p), a);
    TrackParts(p, s);
    FinalIsFaithful(p, s);
    FinishedIsForced(p, s, a);
    FinishedIsForced(p, s, b);
    SameTimesCompose(p, s, a, b);
  }
}
