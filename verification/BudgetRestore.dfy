/** Saving and restoring budget usage (vericcl/execution/budget.py, snapshot and restore_usage;
    vericcl/workflow_state.py,
    the budget part of restore_checkpoint). */
module BudgetRestore {
  import opened Basics
  import opened BudgetBooks

  datatype ActiveLease = ActiveLease(
    stage: string, model: bool, threads: nat, unresolved: bool, startedAt: real, deadline: real, elapsed: real)

  datatype Snapshot = Snapshot(
    consumed: map<string, real>, modelWork: map<string, real>, roundConsumed: map<string, real>,
    startedRounds: nat, cpuInUse: int, elapsedWall: real, active: seq<ActiveLease>)

  datatype Usage = Usage(
    consumed: map<string, real>, modelWork: map<string, real>, roundConsumed: map<string, real>,
    startedRounds: nat, elapsedWall: real)

  /** A lease as a checkpoint lists it. */
  function Listed<R>(e: Entry<R>, now: real): ActiveLease {
    ActiveLease(e.stage, e.model, e.threads, e.unresolved, e.startedAt, e.deadline, Elapsed(e, now))
  }

  /** Open leases as a checkpoint lists them. */
  function Active<R>(leases: seq<Entry<R>>, now: real): seq<ActiveLease> {
    if leases == [] then []
    else
      var e := leases[|leases| - 1];
      Active(leases[..|leases| - 1], now)
      + if e.closed then [] else [Listed(e, now)]
  }

  function TakeSnapshot<R>(c: Limits, b: Books<R>, now: real): Snapshot {
    Snapshot(b.consumed, b.modelWork, b.roundConsumed, b.startedRounds, b.cpuInUse, b.elapsedBefore
             + Max(0.0, now - c.startedAt), Active(b.leases, now))
  }

  // ---------------------------------------------------------------- restore_usage

  /** Stages are known and no value is below the present one. */
  predicate NoRefund(now: map<string, real>, restored: map<string, real>) {
    restored.Keys <= now.Keys && forall s :: s in restored ==> restored[s] >= now[s]
  }

  predicate Restorable<R>(b: Books<R>, u: Usage) {
    && (forall i :: 0 <= i < |b.leases| ==> b.leases[i].closed)
    && NoRefund(b.consumed, u.consumed) && NoRefund(b.modelWork, u.modelWork)
    && NoRefund(b.roundConsumed, u.roundConsumed)
    && u.startedRounds >= b.startedRounds && u.elapsedWall >= b.elapsedBefore
  }

  function Overrun(c: Limits, consumed: map<string, real>, roundConsumed: map<string, real>, s: string): real
    requires s in c.stages && s in consumed && s in roundConsumed
  {
    Max(consumed[s] - c.stages[s].total, roundConsumed[s] - c.stages[s].perRound)
  }

  /** Usage replaced, never refunded; anything beyond the limits is remembered as lateness. */
  ghost function Restored<R>(c: Limits, b: Books<R>, u: Usage): Books<R>
    requires Restorable(b, u) && Within(c, b)
  {
    var consumed, roundConsumed := b.consumed + u.consumed, b.roundConsumed + u.roundConsumed;
    b.(consumed := consumed, modelWork := b.modelWork + u.modelWork, roundConsumed := roundConsumed,
       startedRounds := u.startedRounds, elapsedBefore := u.elapsedWall,
       late := map s | s in b.late && s in c.stages :: Max(b.late[s], Overrun(c, consumed, roundConsumed, s)))
  }

  lemma RestoredKeeps<R>(c: Limits, b: Books<R>, u: Usage)
    requires Inv(c, b) && Restorable(b, u)
    ensures Within(c, b) && Inv(c, Restored(c, b, u))
    ensures var a := Restored(c, b, u);
            forall s :: s in c.stages ==>
                a.consumed[s] >= b.consumed[s] && a.roundConsumed[s] >= b.roundConsumed[s]
                  && a.modelWork[s] >= b.modelWork[s]
  {
    InvParts(c, b);
    RestoredWithin(c, b, u);
    var a := Restored(c, b, u);
    assert a.leases == b.leases;
    ClosedLeasesFit(c, b, a);
    hide Inv, Within, LeasesFit, Restored, ValidLimits;
    SameLeases(c, b, a);
    InvWhole(c, a);
  }

  lemma SameLeases<R>(c: Limits, b: Books<R>, a: Books<R>)
    requires a.leases == b.leases && a.cpuInUse == b.cpuInUse && OneRoot(b) && Identified(b) && SlotsFit(c, b)
    ensures OneRoot(a) && Identified(a) && SlotsFit(c, a)
  {
    hide OpenThreads, OpenModels;
  }

  /** One stage after the replacement. */
  lemma RestoredStage<R>(c: Limits, b: Books<R>, u: Usage, s: string)
    requires Within(c, b) && Restorable(b, u) && s in c.stages
    ensures var a := Restored(c, b, u);
            && StageWithin(c, b, s) && StageWithin(c, a, s)
            && a.consumed[s] >= b.consumed[s] && a.roundConsumed[s] >= b.roundConsumed[s]
            && a.modelWork[s] >= b.modelWork[s]
            && a.late[s] >= b.late[s]
  {
  }

  lemma RestoredNames<R>(c: Limits, b: Books<R>, u: Usage)
    requires Within(c, b) && Restorable(b, u)
    ensures var a := Restored(c, b, u);
            && a.consumed.Keys == a.roundConsumed.Keys == a.modelWork.Keys == a.late.Keys == c.stages.Keys
            && a.elapsedBefore >= b.elapsedBefore && a.cpuInUse == b.cpuInUse && a.leases == b.leases
  {
  }

  lemma RestoredWithin<R>(c: Limits, b: Books<R>, u: Usage)
    requires Within(c, b) && Restorable(b, u)
    ensures var a := Restored(c, b, u);
            && Within(c, a) && a.elapsedBefore >= b.elapsedBefore && a.cpuInUse == b.cpuInUse
            && forall s :: s in c.stages ==>
              a.consumed[s] >= b.consumed[s] && a.roundConsumed[s] >= b.roundConsumed[s]
                && a.modelWork[s] >= b.modelWork[s]
  {
    hide *;
    var a := Restored(c, b, u);
    RestoredNames(c, b, u);
    WithinKeys(c, b);
    forall s | s in c.stages
      ensures a.consumed[s] >= b.consumed[s] && a.roundConsumed[s] >= b.roundConsumed[s]
          && a.modelWork[s] >= b.modelWork[s]
      ensures StageWithin(c, a, s)
    {
      RestoredStage(c, b, u, s);
    }
    WithinIs(c, a);
  }

  lemma ClosedLeasesFit<R>(c: Limits, b: Books<R>, a: Books<R>)
    requires LeasesFit(c, b) && a.leases == b.leases && forall i :: 0 <= i < |b.leases| ==> b.leases[i].closed
    ensures LeasesFit(c, a)
  {
    hide ModelFits, RootFits;
    forall i | 0 <= i < |a.leases| ensures LeaseFits(c, a, a.leases[i]) {
      LeaseAt(c, b, i);
    }
  }

  // ---------------------------------------------------------------- charging interrupted leases

  /** The lease's running time when saved, plus what it may still have used of its own deadline while the task was down.
      */
  function Charge(a: ActiveLease, saved: real, downtime: real): real {
    a.elapsed + Min(downtime, Max(0.0, a.deadline - saved))
  }

  /** All charges of open leases of one kind in one stage. */
  function Charges(active: seq<ActiveLease>, stage: string, model: bool, saved: real, downtime: real): real {
    if active == [] then 0.0
    else
      var a := active[|active| - 1];
      Charges(active[..|active| - 1], stage, model, saved, downtime)
      + if a.stage == stage && a.model == model then Charge(a, saved, downtime) else 0.0
  }

  predicate ActiveKnown(active: seq<ActiveLease>, stages: set<string>) {
    forall i :: 0 <= i < |active| ==> active[i].stage in stages
  }

  function Base(base: map<string, real>, stage: string): real {
    if stage in base then base[stage] else 0.0
  }

  /** Stages with a listed lease of this kind. */
  function Touched(active: seq<ActiveLease>, model: bool): set<string> {
    set i | 0 <= i < |active| && active[i].model == model :: active[i].stage
  }

  /** Base usage plus the charges of these leases; a stage missing from the base starts at zero. */
  ghost predicate Charged(base: map<string, real>, active: seq<ActiveLease>, model: bool, saved: real, downtime: real,
                          usage: map<string, real>) {
    && usage.Keys == base.Keys + Touched(active, model)
    && forall k :: k in usage ==> usage[k] == Base(base, k) + Charges(active, k, model, saved, downtime)
  }

  lemma TouchedNext(active: seq<ActiveLease>, a: ActiveLease, model: bool)
    ensures Touched(active + [a], model) == Touched(active, model) + if a.model == model then {a.stage} else {}
  {
    forall x | x in Touched(active, model) ensures x in Touched(active + [a], model) {
      var i :| 0 <= i < |active| && active[i].model == model && active[i].stage == x;
      assert (active + [a])[i] == active[i];
    }
    assert (active + [a])[|active|] == a;
  }

  lemma UntouchedIsFree(active: seq<ActiveLease>, stage: string, model: bool, saved: real, downtime: real)
    requires stage !in Touched(active, model)
    ensures Charges(active, stage, model, saved, downtime) == 0.0
    decreases |active|
  {
    if active != [] {
      var n := |active| - 1;
      assert active[..n] + [active[n]] == active;
      TouchedNext(active[..n], active[n], model);
      UntouchedIsFree(active[..n], stage, model, saved, downtime);
    }
  }

  /** The next lease is added to its stage. */
  function AddedTo(usage: map<string, real>, a: ActiveLease, model: bool, saved: real,
                   downtime: real): map<string, real> {
    if a.model == model then usage[a.stage := Base(usage, a.stage) + Charge(a, saved, downtime)] else usage
  }

  lemma ChargedNext(base: map<string, real>, active: seq<ActiveLease>, model: bool, saved: real, downtime: real,
                    usage: map<string, real>, a: ActiveLease)
    requires Charged(base, active, model, saved, downtime, usage)
    ensures Charged(base, active + [a], model, saved, downtime, AddedTo(usage, a, model, saved, downtime))
  {
    hide Charge, Charges, Touched;
    var more := AddedTo(usage, a, model, saved, downtime);
    TouchedNext(active, a, model);
    assert more.Keys == usage.Keys + if a.model == model then {a.stage} else {};
    forall k | k in more ensures more[k] == Base(base, k) + Charges(active + [a], k, model, saved, downtime) {
      ChargesSnoc(active, a, k, model, saved, downtime);
      if k !in usage {
        UntouchedIsFree(active, k, model, saved, downtime);
      }
    }
  }

  lemma NothingCharged(base: map<string, real>, model: bool, saved: real, downtime: real)
    ensures Charged(base, [], model, saved, downtime, base)
  {
  }

  /** Add every interrupted lease to its stage; roots also count for the round, whose usage may be missing. */
  method ChargeActive(s: Snapshot, saved: real, downtime: real) returns (u: Usage)
    requires s.consumed.Keys == s.modelWork.Keys && ActiveKnown(s.active, s.consumed.Keys)
    ensures u.startedRounds == s.startedRounds && u.elapsedWall == s.elapsedWall + downtime
    ensures u.consumed.Keys == s.consumed.Keys && u.modelWork.Keys == s.modelWork.Keys
    ensures Charged(s.consumed, s.active, false, saved, downtime, u.consumed)
    ensures Charged(s.roundConsumed, s.active, false, saved, downtime, u.roundConsumed)
    ensures Charged(s.modelWork, s.active, true, saved, downtime, u.modelWork)
  {
    hide Charge, Charged;
    var consumed, modelWork, roundConsumed := s.consumed, s.modelWork, s.roundConsumed;
    NothingCharged(consumed, false, saved, downtime);
    NothingCharged(roundConsumed, false, saved, downtime);
    NothingCharged(modelWork, true, saved, downtime);
    for i := 0 to |s.active|
      invariant consumed.Keys == s.consumed.Keys && modelWork.Keys == s.modelWork.Keys
      invariant Charged(s.consumed, s.active[..i], false, saved, downtime, consumed)
      invariant Charged(s.roundConsumed, s.active[..i], false, saved, downtime, roundConsumed)
      invariant Charged(s.modelWork, s.active[..i], true, saved, downtime, modelWork)
    {
      var item := s.active[i];
      assert s.active[..i + 1] == s.active[..i] + [item];
      ChargedNext(s.consumed, s.active[..i], false, saved, downtime, consumed, item);
      ChargedNext(s.roundConsumed, s.active[..i], false, saved, downtime, roundConsumed, item);
      ChargedNext(s.modelWork, s.active[..i], true, saved, downtime, modelWork, item);
      var elapsed := Charge(item, saved, downtime);
      if item.model {
        modelWork := modelWork[item.stage := modelWork[item.stage] + elapsed];
      } else {
        consumed := consumed[item.stage := consumed[item.stage] + elapsed];
        roundConsumed := roundConsumed[item.stage := Base(roundConsumed, item.stage) + elapsed];
      }
    }
    assert s.active[..|s.active|] == s.active;
    u := Usage(consumed, modelWork, roundConsumed, s.startedRounds, s.elapsedWall + downtime);
  }

  /** When every listed stage is in the base, usage has the base's stages. */
  lemma ChargedKeys(base: map<string, real>, active: seq<ActiveLease>, model: bool, saved: real, downtime: real,
                    usage: map<string, real>)
    requires Charged(base, active, model, saved, downtime, usage) && ActiveKnown(active, base.Keys)
    ensures usage.Keys == base.Keys
        && forall k :: k in base ==> usage[k] == base[k] + Charges(active, k, model, saved, downtime)
  {
    hide Charges;
  }

  // ---------------------------------------------------------------- an interrupted root stays within its limits

  /** An interrupted lease is charged at least its running time and at most up to its deadline. */
  lemma ChargeIsBounded<R>(e: Entry<R>, now: real, saved: real, downtime: real)
    requires e.startedAt <= now <= saved && e.startedAt <= e.deadline && downtime >= 0.0
    ensures var charge := Charge(Listed(e, now), saved, downtime);
            now - e.startedAt <= charge <= Max(e.deadline, now) - e.startedAt
  {
  }

  predicate Started<R>(leases: seq<Entry<R>>, now: real) {
    forall i :: 0 <= i < |leases| && !leases[i].closed ==>
        leases[i].startedAt <= now && leases[i].startedAt <= leases[i].deadline
  }

  lemma {:induction false} ChargesNotNegative<R>(leases: seq<Entry<R>>, stage: string, model: bool, now: real,
                                                 saved: real, downtime: real)
    requires Started(leases, now) && now <= saved && downtime >= 0.0
    ensures Charges(Active(leases, now), stage, model, saved, downtime) >= 0.0
    decreases |leases|
  {
    if leases != [] {
      var e := leases[|leases| - 1];
      var init := leases[..|leases| - 1];
      ChargesNotNegative(init, stage, model, now, saved, downtime);
      ActiveSnoc(init, e, stage, model, now, saved, downtime);
      assert init + [e] == leases;
    }
  }

  /** The charge of one listed lease. */
  function ChargeOf<R>(e: Entry<R>, stage: string, model: bool, now: real, saved: real, downtime: real): real {
    if !e.closed && e.stage == stage && e.model == model
    then Charge(Listed(e, now), saved, downtime) else 0.0
  }

  lemma ChargesSnoc(active: seq<ActiveLease>, a: ActiveLease, stage: string, model: bool, saved: real, downtime: real)
    ensures Charges(active + [a], stage, model, saved, downtime)
            == Charges(active, stage, model, saved, downtime)
               + if a.stage == stage && a.model == model then Charge(a, saved, downtime) else 0.0
  {
    hide Charge;
    assert (active + [a])[..|active|] == active;
  }

  lemma ActiveIs<R>(leases: seq<Entry<R>>, e: Entry<R>, now: real)
    ensures Active(leases + [e], now)
        == if e.closed then Active(leases, now) else Active(leases, now) + [Listed(e, now)]
  {
    assert (leases + [e])[..|leases|] == leases;
  }

  lemma ActiveSnoc<R>(leases: seq<Entry<R>>, e: Entry<R>, stage: string, model: bool, now: real, saved: real,
                      downtime: real)
    ensures Charges(Active(leases + [e], now), stage, model, saved, downtime)
            == Charges(Active(leases, now), stage, model, saved, downtime)
            + ChargeOf(e, stage, model, now, saved, downtime)
  {
    hide Charge, Active, Charges, Elapsed;
    ActiveIs(leases, e, now);
    if !e.closed {
      ChargesSnoc(Active(leases, now), Listed(e, now), stage, model, saved, downtime);
    }
  }

  /** A stage without an open root is charged nothing. */
  lemma {:induction false} NoRootNoCharge<R>(leases: seq<Entry<R>>, stage: string, now: real, saved: real,
                                             downtime: real)
    requires !HasOpenRoot(leases, stage)
    ensures Charges(Active(leases, now), stage, false, saved, downtime) == 0.0
    decreases |leases|
  {
    if leases != [] {
      var n := |leases| - 1;
      var init := leases[..n];
      assert init + [leases[n]] == leases;
      assert !OpenRoot(leases[n], stage);
      forall i | 0 <= i < |init| ensures !OpenRoot(init[i], stage) {
        assert !OpenRoot(leases[i], stage);
      }
      NoRootNoCharge(init, stage, now, saved, downtime);
      ActiveSnoc(init, leases[n], stage, false, now, saved, downtime);
    }
  }

  predicate OneRootEach<R>(leases: seq<Entry<R>>) {
    forall i, j ::
        0 <= i < j < |leases| && !leases[i].closed && !leases[j].closed && !leases[i].model && !leases[j].model ==>
      leases[i].stage != leases[j].stage
  }

  /** A stage is charged for its only open root, at most up to that root's deadline. */
  lemma {:induction false} RootCharge<R>(leases: seq<Entry<R>>, i: nat, stage: string, now: real, saved: real,
                                         downtime: real)
    requires OneRootEach(leases) && i < |leases| && OpenRoot(leases[i], stage)
    ensures Charges(Active(leases, now), stage, false, saved, downtime)
        == ChargeOf(leases[i], stage, false, now, saved, downtime)
    decreases |leases|
  {
    var n := |leases| - 1;
    var init := leases[..n];
    assert init + [leases[n]] == leases;
    ActiveSnoc(init, leases[n], stage, false, now, saved, downtime);
    if i == n {
      forall j | 0 <= j < |init| ensures !OpenRoot(init[j], stage) {
        assert init[j] == leases[j];
      }
      NoRootNoCharge(init, stage, now, saved, downtime);
    } else {
      assert init[i] == leases[i];
      RootCharge(init, i, stage, now, saved, downtime);
    }
  }

  lemma RootChargeFits<R>(c: Limits, b: Books<R>, i: nat, now: real, saved: real, downtime: real, slack: real)
    requires Inv(c, b) && i < |b.leases| && OpenRoot(b.leases[i], b.leases[i].stage)
    requires b.leases[i].startedAt <= now <= saved && downtime >= 0.0 && slack >= 0.0
    requires now <= b.leases[i].deadline + slack
    ensures var s := b.leases[i].stage;
            s in c.stages && s in b.consumed && s in b.roundConsumed
            && b.consumed[s] + ChargeOf(b.leases[i], s, false, now, saved, downtime) <= c.stages[s].total + slack
            && b.roundConsumed[s] + ChargeOf(b.leases[i], s, false, now, saved, downtime) <= c.stages[s].perRound
            + slack
  {
    InvParts(c, b);
    LeaseAt(c, b, i);
    hide Inv, Within, LeasesFit, OneRoot, Identified, SlotsFit, ModelFits;
    ChargeIsBounded(b.leases[i], now, saved, downtime);
  }

  /** No open root has run past its deadline by more than this. */
  predicate OnTime<R>(leases: seq<Entry<R>>, now: real, slack: real) {
    forall i :: 0 <= i < |leases| && !leases[i].closed && !leases[i].model ==> now <= leases[i].deadline + slack
  }

  lemma RootAt<R>(leases: seq<Entry<R>>, i: nat, s: string, now: real, slack: real)
    requires i < |leases| && OpenRoot(leases[i], s) && Started(leases, now) && OnTime(leases, now, slack)
    ensures leases[i].stage == s && leases[i].startedAt <= now <= leases[i].deadline + slack
  {
  }

  lemma RootsEach<R>(b: Books<R>)
    requires OneRoot(b)
    ensures OneRootEach(b.leases)
  {
  }

  lemma FindRoot<R>(leases: seq<Entry<R>>, s: string) returns (i: nat)
    requires HasOpenRoot(leases, s)
    ensures i < |leases| && OpenRoot(leases[i], s)
  {
    i :| 0 <= i < |leases| && OpenRoot(leases[i], s);
  }

  /** What a checkpoint charges one stage fits its limits, up to the lateness so far. */
  lemma StageChargeFits<R>(c: Limits, b: Books<R>, now: real, saved: real, downtime: real, s: string, slack: real)
    requires Inv(c, b) && Started(b.leases, now) && slack >= 0.0 && OnTime(b.leases, now, slack) && now <= saved
    requires downtime >= 0.0 && s in c.stages
    ensures s in b.consumed && s in b.roundConsumed && s in b.late
    ensures var charge := Charges(Active(b.leases, now), s, false, saved, downtime);
            && b.consumed[s] + charge <= c.stages[s].total + Max(b.late[s], slack)
            && b.roundConsumed[s] + charge <= c.stages[s].perRound + Max(b.late[s], slack)
  {
    hide *;
    InvParts(c, b);
    LimitsOf(c, b, s);
    MaxOf(b.late[s], slack);
    if HasOpenRoot(b.leases, s) {
      var i := FindRoot(b.leases, s);
      RootAt(b.leases, i, s, now, slack);
      RootsEach(b);
      RootCharge(b.leases, i, s, now, saved, downtime);
      RootChargeFits(c, b, i, now, saved, downtime, slack);
    } else {
      NoRootNoCharge(b.leases, s, now, saved, downtime);
    }
  }

  /** Saving with every root late by at most `slack` and resuming later charges each stage at least what was consumed,
      and exceeds
      total and per-round limit by no more than the lateness so far. */
  lemma CheckpointKeepsLimits<R>(c: Limits, b: Books<R>, now: real, saved: real, downtime: real, u: Usage, s: string,
                                 slack: real)
    requires Inv(c, b) && Started(b.leases, now) && slack >= 0.0 && OnTime(b.leases, now, slack) && now <= saved
    requires downtime >= 0.0 && s in c.stages
    requires Charged(b.consumed, Active(b.leases, now), false, saved, downtime, u.consumed)
    requires Charged(b.roundConsumed, Active(b.leases, now), false, saved, downtime, u.roundConsumed)
    ensures s in b.consumed && s in b.roundConsumed && s in u.consumed && s in u.roundConsumed && s in b.late
    ensures b.consumed[s] <= u.consumed[s] <= c.stages[s].total + Max(b.late[s], slack)
    ensures b.roundConsumed[s] <= u.roundConsumed[s] <= c.stages[s].perRound + Max(b.late[s], slack)
  {
    hide *;
    InvParts(c, b);
    LimitsOf(c, b, s);
    UsageKeys(c, b, now, saved, downtime, u.consumed, u.roundConsumed);
    ChargesNotNegative(b.leases, s, false, now, saved, downtime);
    MaxOf(b.late[s], slack);
    StageChargeFits(c, b, now, saved, downtime, s, slack);
  }

  lemma MaxOf(x: real, y: real)
    ensures Max(x, y) >= x && Max(x, y) >= y
  {
  }

  /** What a checkpoint of consistent books charges, stage by stage. */
  lemma UsageKeys<R>(c: Limits, b: Books<R>, now: real, saved: real, downtime: real, consumed: map<string, real>,
                     roundConsumed: map<string, real>)
    requires Within(c, b) && LeasesFit(c, b)
    requires Charged(b.consumed, Active(b.leases, now), false, saved, downtime, consumed)
    requires Charged(b.roundConsumed, Active(b.leases, now), false, saved, downtime, roundConsumed)
    ensures consumed.Keys == c.stages.Keys && roundConsumed.Keys == c.stages.Keys
    ensures forall s :: s in c.stages ==>
              && consumed[s] == b.consumed[s] + Charges(Active(b.leases, now), s, false, saved, downtime)
              && roundConsumed[s] == b.roundConsumed[s] + Charges(Active(b.leases, now), s, false, saved, downtime)
  {
    WithinKeys(c, b);
    KnownStages(c, b, now);
    hide Within, LeasesFit, Charged, Charges, Active, ActiveKnown;
    ChargedKeys(b.consumed, Active(b.leases, now), false, saved, downtime, consumed);
    ChargedKeys(b.roundConsumed, Active(b.leases, now), false, saved, downtime, roundConsumed);
  }

  lemma KnownStages<R>(c: Limits, b: Books<R>, now: real)
    requires LeasesFit(c, b)
    ensures ActiveKnown(Active(b.leases, now), c.stages.Keys)
  {
    hide ModelFits, RootFits;
    ActiveStages(b.leases, now, c.stages.Keys);
  }

  lemma LimitsOf<R>(c: Limits, b: Books<R>, s: string)
    requires Within(c, b) && s in c.stages
    ensures s in b.consumed && s in b.roundConsumed && s in b.late && b.late[s] >= 0.0
    ensures b.consumed[s] <= c.stages[s].total + b.late[s] && b.roundConsumed[s] <= c.stages[s].perRound + b.late[s]
  {
  }

  /** A manager just built has used nothing. */
  ghost predicate Unused<R>(c: Limits, b: Books<R>) {
    && Inv(c, b) && b.leases == [] && b.startedRounds == 0 && b.elapsedBefore == 0.0
    && forall s :: s in c.stages ==>
      s in b.consumed && b.consumed[s] == 0.0 && s in b.roundConsumed && b.roundConsumed[s] == 0.0
                                     && s in b.modelWork && b.modelWork[s] == 0.0
  }

  /** What a checkpoint charges is always restorable into a fresh manager with the same stages. */
  lemma CheckpointIsRestorable<R>(c: Limits, b: Books<R>, fresh_: Books<R>, d: Limits, now: real, saved: real,
                                  downtime: real, u: Usage)
    requires Inv(c, b) && Started(b.leases, now) && now <= saved && downtime >= 0.0
    requires Unused(d, fresh_) && d.stages.Keys == c.stages.Keys
    requires u.startedRounds == b.startedRounds
    requires u.elapsedWall == b.elapsedBefore + Max(0.0, now - c.startedAt) + downtime
    requires Charged(b.consumed, Active(b.leases, now), false, saved, downtime, u.consumed)
    requires Charged(b.roundConsumed, Active(b.leases, now), false, saved, downtime, u.roundConsumed)
    requires Charged(b.modelWork, Active(b.leases, now), true, saved, downtime, u.modelWork)
    ensures Restorable(fresh_, u)
  {
    InvParts(c, b);
    InvParts(d, fresh_);
    WithinKeys(c, b);
    WithinKeys(d, fresh_);
    UsageKeys(c, b, now, saved, downtime, u.consumed, u.roundConsumed);
    KnownStages(c, b, now);
    ChargedKeys(b.modelWork, Active(b.leases, now), true, saved, downtime, u.modelWork);
    NothingUsed(d, fresh_);
    hide *;
    MaxOf(0.0, now - c.startedAt);
    forall s | s in c.stages ensures u.consumed[s] >= 0.0 && u.roundConsumed[s] >= 0.0 && u.modelWork[s] >= 0.0 {
      WithinAt(c, b, s);
      NotNegativeAt(c, b, s);
      ChargesNotNegative(b.leases, s, false, now, saved, downtime);
      ChargesNotNegative(b.leases, s, true, now, saved, downtime);
    }
    NothingRefunded(fresh_, u);
  }

  lemma NotNegativeAt<R>(c: Limits, b: Books<R>, s: string)
    requires s in c.stages && StageWithin(c, b, s)
    ensures s in b.consumed && b.consumed[s] >= 0.0 && s in b.roundConsumed && b.roundConsumed[s] >= 0.0
        && s in b.modelWork && b.modelWork[s] >= 0.0
  {
  }

  lemma NothingUsed<R>(c: Limits, b: Books<R>)
    requires Unused(c, b)
    ensures Inv(c, b) && b.leases == [] && b.startedRounds == 0 && b.elapsedBefore == 0.0
    ensures forall s :: s in c.stages ==>
        s in b.consumed && b.consumed[s] == 0.0 && s in b.roundConsumed && b.roundConsumed[s] == 0.0
                                          && s in b.modelWork && b.modelWork[s] == 0.0
    ensures b.consumed.Keys == b.roundConsumed.Keys == b.modelWork.Keys == c.stages.Keys
  {
    InvParts(c, b);
    WithinKeys(c, b);
    hide Inv, Within;
  }

  /** Fresh books refuse no usage of their stages that is not negative. */
  lemma NothingRefunded<R>(b: Books<R>, u: Usage)
    requires b.leases == [] && b.startedRounds == 0 && b.elapsedBefore == 0.0 && u.elapsedWall >= 0.0
    requires u.consumed.Keys == b.consumed.Keys && u.roundConsumed.Keys == b.roundConsumed.Keys
    requires u.modelWork.Keys == b.modelWork.Keys
    requires forall s :: s in u.consumed ==> b.consumed[s] == 0.0 <= u.consumed[s]
    requires forall s :: s in u.roundConsumed ==> b.roundConsumed[s] == 0.0 <= u.roundConsumed[s]
    requires forall s :: s in u.modelWork ==> b.modelWork[s] == 0.0 <= u.modelWork[s]
    ensures Restorable(b, u)
  {
  }

  lemma {:induction false} ActiveStages<R>(leases: seq<Entry<R>>, now: real, stages: set<string>)
    requires forall i :: 0 <= i < |leases| ==> leases[i].stage in stages
    ensures ActiveKnown(Active(leases, now), stages)
    decreases |leases|
  {
    if leases != [] {
      var n := |leases| - 1;
      ActiveStages(leases[..n], now, stages);
      assert leases[..n] + [leases[n]] == leases;
    }
  }
}
