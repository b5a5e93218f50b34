/** What a budget manager owes and owns: leases, consumption and limits as values
    (vericcl/execution/budget.py, BudgetManager; vericcl/workflow_state.py, restore_checkpoint). */
module BudgetBooks {
  import opened Basics

  /** Per-round and total limit of a stage. */
  datatype StageLimit = StageLimit(perRound: real, total: real)

  datatype Limits = Limits(
    stages: map<string, StageLimit>,
    cpuBudget: nat, maxThreads: nat, maxParallel: nat,
    perModelTimeout: real, cleanupReserve: real,
    maxRounds: nat, maxWall: Option<real>, startedAt: real)

  predicate ValidLimits(c: Limits) {
    && (forall s :: s in c.stages ==> c.stages[s].perRound > 0.0 && c.stages[s].total > 0.0)
    && c.cpuBudget >= 1 && c.maxThreads >= 1 && c.maxParallel >= 1
    && c.perModelTimeout > 0.0 && c.cleanupReserve > 0.0
    && (c.maxWall.Some? ==> c.maxWall.value > 0.0)
  }

  /** One lease as the manager sees it; R identifies lease objects. */
  datatype Entry<R> = Entry(
    self: R, stage: string, startedAt: real, deadline: real, workDeadline: real,
    model: bool, threads: nat, parent: Option<R>, closed: bool, unresolved: bool)

  /** `late` is, per stage, the most by which one lease has overrun its deadline. */
  datatype Books<R> = Books(
    leases: seq<Entry<R>>,
    consumed: map<string, real>, modelWork: map<string, real>, roundConsumed: map<string, real>,
    startedRounds: nat, elapsedBefore: real, cpuInUse: int, cancelled: bool,
    late: map<string, real>)

  /** None stands for no limit. */
  function GlobalDeadline(c: Limits, elapsedBefore: real): Option<real> {
    if c.maxWall.None? then None else Some(c.startedAt + c.maxWall.value - elapsedBefore)
  }

  predicate Before(t: real, bound: Option<real>) {
    bound.None? || t <= bound.value
  }

  function Earlier(t: real, bound: Option<real>): real {
    if bound.None? then t else Min(t, bound.value)
  }

  function QuotaThreads(c: Limits): nat {
    if c.maxThreads <= c.cpuBudget then c.maxThreads else c.cpuBudget
  }

  // ---------------------------------------------------------------- open leases

  function OpenThreads<R>(leases: seq<Entry<R>>): nat {
    if leases == [] then 0
    else
      var last := leases[|leases| - 1];
      OpenThreads(leases[..|leases| - 1]) + if last.model && !last.closed then last.threads else 0
  }

  function OpenModels<R>(leases: seq<Entry<R>>): nat {
    if leases == [] then 0
    else
      var last := leases[|leases| - 1];
      OpenModels(leases[..|leases| - 1]) + if last.model && !last.closed then 1 else 0
  }

  predicate OpenRoot<R>(e: Entry<R>, stage: string) {
    !e.closed && !e.model && e.stage == stage
  }

  predicate HasOpenRoot<R>(leases: seq<Entry<R>>, stage: string) {
    exists i :: 0 <= i < |leases| && OpenRoot(leases[i], stage)
  }

  lemma SnocOpen<R>(leases: seq<Entry<R>>, e: Entry<R>)
    ensures OpenThreads(leases + [e]) == OpenThreads(leases) + if e.model && !e.closed then e.threads else 0
    ensures OpenModels(leases + [e]) == OpenModels(leases) + if e.model && !e.closed then 1 else 0
  {
    assert (leases + [e])[..|leases|] == leases;
  }

  /** Closing one open model frees exactly its threads. */
  lemma {:induction false} CloseOpen<R>(leases: seq<Entry<R>>, i: nat, e: Entry<R>)
    requires i < |leases| && !leases[i].closed && e.closed && e.model == leases[i].model
    ensures OpenThreads(leases[i := e]) == OpenThreads(leases) - if e.model then leases[i].threads else 0
    ensures OpenModels(leases[i := e]) == OpenModels(leases) - if e.model then 1 else 0
    decreases |leases|
  {
    var n := |leases| - 1;
    if i == n {
      assert leases[i := e][..n] == leases[..n];
    } else {
      assert leases[i := e][..n] == leases[..n][i := e];
      CloseOpen(leases[..n], i, e);
    }
  }

  lemma {:induction false} SameOpen<R>(leases: seq<Entry<R>>, i: nat, e: Entry<R>)
    requires i < |leases| && e == leases[i].(unresolved := e.unresolved)
    ensures OpenThreads(leases[i := e]) == OpenThreads(leases)
    ensures OpenModels(leases[i := e]) == OpenModels(leases)
    decreases |leases|
  {
    var n := |leases| - 1;
    if i == n {
      assert leases[i := e][..n] == leases[..n];
    } else {
      assert leases[i := e][..n] == leases[..n][i := e];
      SameOpen(leases[..n], i, e);
    }
  }

  // ---------------------------------------------------------------- invariant

  predicate Known(c: Limits, consumed: map<string, real>) {
    consumed.Keys == c.stages.Keys && forall s :: s in consumed ==> consumed[s] >= 0.0
  }

  /** Consumption exceeds a limit by at most one lease's lateness. */
  ghost predicate Within<R>(c: Limits, b: Books<R>) {
    && Known(c, b.consumed) && Known(c, b.roundConsumed) && Known(c, b.modelWork) && Known(c, b.late)
    && forall s :: s in c.stages ==>
         b.consumed[s] <= c.stages[s].total + b.late[s] && b.roundConsumed[s] <= c.stages[s].perRound + b.late[s]
  }

  /** An open root may still run without passing its stage's limits or the task's deadline. */
  ghost predicate RootFits<R>(c: Limits, b: Books<R>, e: Entry<R>) {
    && e.stage in c.stages && e.stage in b.consumed && e.stage in b.roundConsumed
    && e.startedAt <= e.deadline && e.workDeadline <= e.deadline && e.parent.None?
    && Before(e.deadline, GlobalDeadline(c, b.elapsedBefore))
    && e.deadline - e.startedAt <= c.stages[e.stage].total - b.consumed[e.stage]
    && e.deadline - e.startedAt <= c.stages[e.stage].perRound - b.roundConsumed[e.stage]
  }

  /** An open model's parent is an open root of its stage, and its deadlines nest inside the parent's. */
  ghost predicate ModelFits<R>(c: Limits, b: Books<R>, e: Entry<R>) {
    && 1 <= e.threads <= QuotaThreads(c) && e.startedAt <= e.deadline && e.stage in c.stages
    && exists j :: 0 <= j < |b.leases| && e.parent == Some(b.leases[j].self) && OpenRoot(b.leases[j], e.stage)
                   && e.deadline <= b.leases[j].deadline && e.workDeadline <= b.leases[j].workDeadline
  }

  ghost predicate LeaseFits<R>(c: Limits, b: Books<R>, e: Entry<R>) {
    && e.stage in c.stages
    && (!e.closed ==> if e.model then ModelFits(c, b, e) else RootFits(c, b, e))
  }

  ghost predicate LeasesFit<R>(c: Limits, b: Books<R>) {
    forall i :: 0 <= i < |b.leases| ==> LeaseFits(c, b, b.leases[i])
  }

  ghost predicate OneRoot<R>(b: Books<R>) {
    forall i, j ::
        0 <= i < j < |b.leases| && !b.leases[i].closed && !b.leases[j].closed && !b.leases[i].model
          && !b.leases[j].model ==>
      b.leases[i].stage != b.leases[j].stage
  }

  ghost predicate Identified<R>(b: Books<R>) {
    forall i, j :: 0 <= i < j < |b.leases| ==> b.leases[i].self != b.leases[j].self
  }

  ghost predicate SlotsFit<R>(c: Limits, b: Books<R>) {
    b.cpuInUse == OpenThreads(b.leases) && b.cpuInUse <= c.cpuBudget && OpenModels(b.leases) <= c.maxParallel
  }

  ghost predicate Inv<R>(c: Limits, b: Books<R>) {
    && ValidLimits(c) && Within(c, b) && LeasesFit(c, b) && OneRoot(b) && Identified(b) && SlotsFit(c, b)
    && b.elapsedBefore >= 0.0
  }

  // ---------------------------------------------------------------- acquiring

  /** The lease a root request gets now. */
  function RootLease<R>(c: Limits, b: Books<R>, self: R, stage: string, now: real): Entry<R>
    requires stage in c.stages && stage in b.consumed && stage in b.roundConsumed
  {
    var limit := c.stages[stage];
    var deadline := Earlier(now
                            + Min(limit.perRound - b.roundConsumed[stage], limit.total - b.consumed[stage]),
                            GlobalDeadline(c, b.elapsedBefore));
    Entry(self, stage, now, deadline, deadline - c.cleanupReserve, false, 0, None, false, false)
  }

  /** The lease a model request gets now under an open root. */
  function ModelLease<R>(c: Limits, parent: Entry<R>, self: R, threads: nat, now: real): Entry<R> {
    var deadline := Min(now + c.perModelTimeout, parent.deadline);
    Entry(self, parent.stage, now, deadline, Min(deadline - c.cleanupReserve, parent.workDeadline), true, threads,
          Some(parent.self), false, false)
  }

  function Added<R>(b: Books<R>, e: Entry<R>): Books<R> {
    b.(leases := b.leases + [e], cpuInUse := b.cpuInUse + if e.model then e.threads else 0)
  }

  lemma OldFits<R>(c: Limits, b: Books<R>, e: Entry<R>, x: Entry<R>)
    requires LeaseFits(c, b, x)
    ensures LeaseFits(c, Added(b, e), x)
  {
    if !x.closed && x.model {
      var j :| 0 <= j < |b.leases| && x.parent == Some(b.leases[j].self) && OpenRoot(b.leases[j], x.stage)
               && x.deadline <= b.leases[j].deadline && x.workDeadline <= b.leases[j].workDeadline;
      assert Added(b, e).leases[j] == b.leases[j];
    }
  }

  lemma AddedKeeps<R>(c: Limits, b: Books<R>, e: Entry<R>)
    requires Inv(c, b) && !e.closed && LeaseFits(c, Added(b, e), e)
    requires forall i :: 0 <= i < |b.leases| ==> b.leases[i].self != e.self
    requires !e.model ==> !HasOpenRoot(b.leases, e.stage)
    requires e.model ==> b.cpuInUse + e.threads <= c.cpuBudget && OpenModels(b.leases) < c.maxParallel
    ensures Inv(c, Added(b, e))
  {
    hide *;
    InvParts(c, b);
    var a := Added(b, e);
    AddedParts(c, b, e);
    forall i | 0 <= i < |a.leases| ensures LeaseFits(c, a, a.leases[i]) {
      if i < |b.leases| {
        LeaseAt(c, b, i);
        OldFits(c, b, e, b.leases[i]);
      }
    }
    AllFit(c, a);
    AddedOneRoot(b, e);
    InvWhole(c, a);
  }

  lemma AddedParts<R>(c: Limits, b: Books<R>, e: Entry<R>)
    requires Within(c, b) && SlotsFit(c, b) && Identified(b) && !e.closed
    requires forall i :: 0 <= i < |b.leases| ==> b.leases[i].self != e.self
    requires e.model ==> b.cpuInUse + e.threads <= c.cpuBudget && OpenModels(b.leases) < c.maxParallel
    ensures var a := Added(b, e);
            && a.leases == b.leases + [e] && a.elapsedBefore == b.elapsedBefore
            && Within(c, a) && SlotsFit(c, a) && Identified(a)
  {
    SnocOpen(b.leases, e);
    hide OpenThreads, OpenModels;
  }

  lemma AddedOneRoot<R>(b: Books<R>, e: Entry<R>)
    requires OneRoot(b) && (!e.model ==> !HasOpenRoot(b.leases, e.stage))
    ensures OneRoot(Added(b, e))
  {
    var a := Added(b, e);
    forall i, j | 0 <= i < j < |a.leases| && !a.leases[i].closed && !a.leases[j].closed && !a.leases[i].model
        && !a.leases[j].model
      ensures a.leases[i].stage != a.leases[j].stage
    {
      if j == |b.leases| {
        assert !OpenRoot(b.leases[i], e.stage);
      }
    }
  }

  /** A root lease is granted only when it leaves time for cleanup, and then it fits both limits and the task. */
  lemma RootKeeps<R>(c: Limits, b: Books<R>, self: R, stage: string, now: real)
    requires Inv(c, b) && stage in c.stages && !HasOpenRoot(b.leases, stage)
    requires forall i :: 0 <= i < |b.leases| ==> b.leases[i].self != self
    requires RootLease(c, b, self, stage, now).workDeadline > now
    ensures Inv(c, Added(b, RootLease(c, b, self, stage, now)))
  {
    hide HasOpenRoot, OneRoot, SlotsFit, LeasesFit;
    AddedKeeps(c, b, RootLease(c, b, self, stage, now));
  }

  lemma ModelKeeps<R>(c: Limits, b: Books<R>, j: nat, self: R, threads: nat, now: real)
    requires Inv(c, b) && j < |b.leases| && OpenRoot(b.leases[j], b.leases[j].stage)
    requires forall i :: 0 <= i < |b.leases| ==> b.leases[i].self != self
    requires 1 <= threads <= QuotaThreads(c) && b.cpuInUse + threads <= c.cpuBudget
    requires OpenModels(b.leases) < c.maxParallel
    requires ModelLease(c, b.leases[j], self, threads, now).workDeadline > now
    ensures Inv(c, Added(b, ModelLease(c, b.leases[j], self, threads, now)))
  {
    var e := ModelLease(c, b.leases[j], self, threads, now);
    var a := Added(b, e);
    assert LeaseFits(c, b, b.leases[j]);
    assert a.leases[j] == b.leases[j];
    assert ModelFits(c, a, e);
    hide OneRoot, SlotsFit, LeasesFit, ModelFits;
    AddedKeeps(c, b, e);
  }

  // ---------------------------------------------------------------- closing

  ghost predicate HasOpenChild<R>(leases: seq<Entry<R>>, self: R) {
    exists i :: 0 <= i < |leases| && !leases[i].closed && leases[i].parent == Some(self)
  }

  /** Time since the start, never negative. */
  function Elapsed<R>(e: Entry<R>, now: real): real {
    Max(0.0, now - e.startedAt)
  }

  /** Lease i is charged and closed. */
  function Closed<R>(b: Books<R>, i: nat, now: real): Books<R>
    requires i < |b.leases| && b.leases[i].stage in b.consumed && b.leases[i].stage in b.modelWork
    requires b.leases[i].stage in b.roundConsumed && b.leases[i].stage in b.late
  {
    var e := b.leases[i];
    var elapsed := Elapsed(e, now);
    var leases := b.leases[i := e.(closed := true, unresolved := false)];
    if e.model then
      b.(leases := leases, cpuInUse := b.cpuInUse - e.threads,
         modelWork := b.modelWork[e.stage := b.modelWork[e.stage] + elapsed])
    else
      b.(leases := leases, consumed := b.consumed[e.stage := b.consumed[e.stage] + elapsed],
         roundConsumed := b.roundConsumed[e.stage := b.roundConsumed[e.stage] + elapsed],
         late := b.late[e.stage := Max(b.late[e.stage], now - e.deadline)])
  }

  lemma ClosedWithin<R>(c: Limits, b: Books<R>, i: nat, now: real)
    requires Within(c, b) && i < |b.leases| && !b.leases[i].closed && LeaseFits(c, b, b.leases[i])
    ensures Within(c, Closed(b, i, now))
  {
    hide *;
    WithinKeys(c, b);
    LeaseStage(c, b, b.leases[i]);
    var a := Closed(b, i, now);
    ClosedKeys(b, i, now);
    forall s | s in c.stages ensures StageWithin(c, a, s) {
      WithinAt(c, b, s);
      if b.leases[i].model {
        ClosedModelAt(c, b, i, now, s);
      } else {
        ClosedRootAt(c, b, i, now, s);
      }
    }
    WithinIs(c, a);
  }

  lemma WithinKeys<R>(c: Limits, b: Books<R>)
    requires Within(c, b)
    ensures b.consumed.Keys == b.roundConsumed.Keys == b.modelWork.Keys == b.late.Keys == c.stages.Keys
  {
  }

  /** One stage's consumption exceeds its limits by at most its lateness. */
  ghost predicate StageWithin<R>(c: Limits, b: Books<R>, s: string)
    requires s in c.stages
  {
    && s in b.consumed && s in b.roundConsumed && s in b.modelWork && s in b.late
    && b.consumed[s] >= 0.0 && b.roundConsumed[s] >= 0.0 && b.modelWork[s] >= 0.0 && b.late[s] >= 0.0
    && b.consumed[s] <= c.stages[s].total + b.late[s] && b.roundConsumed[s] <= c.stages[s].perRound + b.late[s]
  }

  lemma WithinAt<R>(c: Limits, b: Books<R>, s: string)
    requires Within(c, b) && s in c.stages
    ensures StageWithin(c, b, s)
  {
  }

  lemma WithinIs<R>(c: Limits, b: Books<R>)
    requires b.consumed.Keys == b.roundConsumed.Keys == b.modelWork.Keys == b.late.Keys == c.stages.Keys
    requires forall s :: s in c.stages ==> StageWithin(c, b, s)
    ensures Within(c, b)
  {
    forall s | s in c.stages
      ensures b.consumed[s] >= 0.0 && b.roundConsumed[s] >= 0.0 && b.modelWork[s] >= 0.0 && b.late[s] >= 0.0
      ensures b.consumed[s] <= c.stages[s].total + b.late[s] && b.roundConsumed[s] <= c.stages[s].perRound + b.late[s]
    {
      assert StageWithin(c, b, s);
    }
    hide StageWithin;
  }

  lemma LeaseStage<R>(c: Limits, b: Books<R>, e: Entry<R>)
    requires LeaseFits(c, b, e)
    ensures e.stage in c.stages && (!e.closed && !e.model ==> RootFits(c, b, e))
  {
    hide ModelFits, RootFits;
  }

  lemma ClosedKeys<R>(b: Books<R>, i: nat, now: real)
    requires i < |b.leases| && b.leases[i].stage in b.consumed && b.leases[i].stage in b.modelWork
    requires b.leases[i].stage in b.roundConsumed && b.leases[i].stage in b.late
    ensures var a := Closed(b, i, now);
            && a.consumed.Keys == b.consumed.Keys && a.roundConsumed.Keys == b.roundConsumed.Keys
            && a.modelWork.Keys == b.modelWork.Keys && a.late.Keys == b.late.Keys
  {
  }

  lemma ClosedModelAt<R>(c: Limits, b: Books<R>, i: nat, now: real, s: string)
    requires i < |b.leases| && b.leases[i].stage in b.consumed && b.leases[i].stage in b.modelWork
    requires b.leases[i].stage in b.roundConsumed && b.leases[i].stage in b.late
    requires b.leases[i].model && s in c.stages && StageWithin(c, b, s)
    ensures StageWithin(c, Closed(b, i, now), s)
  {
  }

  lemma ClosedRootAt<R>(c: Limits, b: Books<R>, i: nat, now: real, s: string)
    requires i < |b.leases| && b.leases[i].stage in b.consumed && b.leases[i].stage in b.modelWork
    requires b.leases[i].stage in b.roundConsumed && b.leases[i].stage in b.late
    requires !b.leases[i].model && s in c.stages && StageWithin(c, b, s) && RootFits(c, b, b.leases[i])
    ensures StageWithin(c, Closed(b, i, now), s)
  {
  }

  /** The others still fit: no other open root of the stage exists, and children are gone. */
  lemma OthersFit<R>(c: Limits, b: Books<R>, i: nat, now: real, x: nat)
    requires Within(c, b) && OneRoot(b) && Identified(b) && i < |b.leases| && x < |b.leases| && x != i
    requires !b.leases[i].closed
    requires LeaseFits(c, b, b.leases[i]) && LeaseFits(c, b, b.leases[x])
    requires !HasOpenChild(b.leases, b.leases[i].self)
    ensures LeaseFits(c, Closed(b, i, now), b.leases[x])
  {
    var e := b.leases[x];
    var a := Closed(b, i, now);
    if !e.closed && e.model {
      var j :| 0 <= j < |b.leases| && e.parent == Some(b.leases[j].self) && OpenRoot(b.leases[j], e.stage)
               && e.deadline <= b.leases[j].deadline && e.workDeadline <= b.leases[j].workDeadline;
      assert j != i;
      assert a.leases[j] == b.leases[j];
    } else if !e.closed && !b.leases[i].model {
      assert b.leases[i].stage != e.stage;
    }
  }

  lemma InvParts<R>(c: Limits, b: Books<R>)
    requires Inv(c, b)
    ensures ValidLimits(c) && Within(c, b) && LeasesFit(c, b) && OneRoot(b) && Identified(b) && SlotsFit(c, b)
        && b.elapsedBefore >= 0.0
  {
    hide ValidLimits, Within, LeasesFit, OneRoot, Identified, SlotsFit;
  }

  lemma InvWhole<R>(c: Limits, b: Books<R>)
    requires ValidLimits(c) && Within(c, b) && LeasesFit(c, b) && OneRoot(b) && Identified(b) && SlotsFit(c, b)
    requires b.elapsedBefore >= 0.0
    ensures Inv(c, b)
  {
    hide ValidLimits, Within, LeasesFit, OneRoot, Identified, SlotsFit;
  }

  lemma LeaseAt<R>(c: Limits, b: Books<R>, i: nat)
    requires LeasesFit(c, b) && i < |b.leases|
    ensures LeaseFits(c, b, b.leases[i]) && b.leases[i].stage in c.stages
  {
    hide ModelFits, RootFits;
  }

  lemma StageKnown<R>(c: Limits, b: Books<R>, s: string)
    requires Within(c, b) && s in c.stages
    ensures s in b.consumed && s in b.roundConsumed && s in b.modelWork && s in b.late
  {
  }

  lemma ClosedSlots<R>(c: Limits, b: Books<R>, i: nat, now: real)
    requires SlotsFit(c, b) && i < |b.leases| && !b.leases[i].closed
    requires b.leases[i].stage in b.consumed && b.leases[i].stage in b.modelWork && b.leases[i].stage in b.roundConsumed
    requires b.leases[i].stage in b.late
    ensures OneRoot(b) ==> OneRoot(Closed(b, i, now))
    ensures SlotsFit(c, Closed(b, i, now))
  {
    CloseOpen(b.leases, i, b.leases[i].(closed := true, unresolved := false));
    hide OpenThreads, OpenModels;
  }

  lemma ClosedNames<R>(b: Books<R>, i: nat, now: real)
    requires Identified(b) && i < |b.leases|
    requires b.leases[i].stage in b.consumed && b.leases[i].stage in b.modelWork && b.leases[i].stage in b.roundConsumed
    requires b.leases[i].stage in b.late
    ensures Identified(Closed(b, i, now))
  {
  }

  lemma ClosedLeases<R>(c: Limits, b: Books<R>, i: nat, now: real)
    requires Inv(c, b) && i < |b.leases| && !b.leases[i].closed && !HasOpenChild(b.leases, b.leases[i].self)
    requires b.leases[i].stage in b.consumed && b.leases[i].stage in b.modelWork && b.leases[i].stage in b.roundConsumed
    requires b.leases[i].stage in b.late
    ensures LeasesFit(c, Closed(b, i, now))
  {
    InvParts(c, b);
    LeaseAt(c, b, i);
    var e := b.leases[i];
    var a := Closed(b, i, now);
    hide Inv, Within, LeasesFit, OneRoot, Identified, SlotsFit, HasOpenChild, LeaseFits, ValidLimits;
    forall x | 0 <= x < |a.leases| ensures LeaseFits(c, a, a.leases[x]) {
      if x != i {
        LeaseAt(c, b, x);
        OthersFit(c, b, i, now, x);
      } else {
        ClosedFits(c, b, a, e);
      }
    }
    AllFit(c, a);
  }

  lemma AllFit<R>(c: Limits, b: Books<R>)
    requires forall x :: 0 <= x < |b.leases| ==> LeaseFits(c, b, b.leases[x])
    ensures LeasesFit(c, b)
  {
    hide LeaseFits;
  }

  lemma ClosedKeeps<R>(c: Limits, b: Books<R>, i: nat, now: real)
    requires Inv(c, b) && i < |b.leases| && !b.leases[i].closed && !HasOpenChild(b.leases, b.leases[i].self)
    ensures b.leases[i].stage in b.consumed && b.leases[i].stage in b.modelWork && b.leases[i].stage in b.roundConsumed
        && b.leases[i].stage in b.late
    ensures Inv(c, Closed(b, i, now)) && Closed(b, i, now).elapsedBefore == b.elapsedBefore
  {
    hide *;
    InvParts(c, b);
    LeaseAt(c, b, i);
    StageKnown(c, b, b.leases[i].stage);
    ClosedWithin(c, b, i, now);
    ClosedSlots(c, b, i, now);
    ClosedNames(b, i, now);
    ClosedLeases(c, b, i, now);
    SameElapsed(b, i, now);
    InvWhole(c, Closed(b, i, now));
  }

  lemma SameElapsed<R>(b: Books<R>, i: nat, now: real)
    requires i < |b.leases|
    requires b.leases[i].stage in b.consumed && b.leases[i].stage in b.modelWork && b.leases[i].stage in b.roundConsumed
    requires b.leases[i].stage in b.late
    ensures Closed(b, i, now).elapsedBefore == b.elapsedBefore
  {
  }

  lemma ClosedFits<R>(c: Limits, b: Books<R>, a: Books<R>, e: Entry<R>)
    requires LeaseFits(c, b, e)
    ensures LeaseFits(c, a, e.(closed := true, unresolved := false))
  {
  }

  /** A lease whose cleanup is not confirmed stays open and is only marked. */
  function Marked<R>(b: Books<R>, i: nat): Books<R>
    requires i < |b.leases|
  {
    b.(leases := b.leases[i := b.leases[i].(unresolved := true)])
  }

  lemma MarkedFits<R>(c: Limits, b: Books<R>, i: nat, x: nat)
    requires i < |b.leases| && x < |b.leases| && LeaseFits(c, b, b.leases[x])
    ensures LeaseFits(c, Marked(b, i), Marked(b, i).leases[x])
  {
    var e, a := b.leases[x], Marked(b, i);
    if !e.closed && e.model {
      var j :| 0 <= j < |b.leases| && e.parent == Some(b.leases[j].self) && OpenRoot(b.leases[j], e.stage)
               && e.deadline <= b.leases[j].deadline && e.workDeadline <= b.leases[j].workDeadline;
      assert a.leases[j].self == b.leases[j].self && OpenRoot(a.leases[j], e.stage);
    }
  }

  lemma MarkedKeeps<R>(c: Limits, b: Books<R>, i: nat)
    requires Inv(c, b) && i < |b.leases|
    ensures Inv(c, Marked(b, i))
  {
    hide *;
    InvParts(c, b);
    var a := Marked(b, i);
    MarkedSlots(c, b, i);
    forall x | 0 <= x < |a.leases| ensures LeaseFits(c, a, a.leases[x]) {
      MarkedSize(b, i);
      LeaseAt(c, b, x);
      MarkedFits(c, b, i, x);
    }
    AllFit(c, a);
    InvWhole(c, a);
  }

  lemma MarkedSize<R>(b: Books<R>, i: nat)
    requires i < |b.leases|
    ensures |Marked(b, i).leases| == |b.leases|
  {
  }

  lemma MarkedSlots<R>(c: Limits, b: Books<R>, i: nat)
    requires i < |b.leases|
    ensures var a := Marked(b, i);
            && (Within(c, b) ==> Within(c, a)) && (SlotsFit(c, b) ==> SlotsFit(c, a)) && (OneRoot(b) ==> OneRoot(a))
            && (Identified(b) ==> Identified(a)) && a.elapsedBefore == b.elapsedBefore
  {
    SameOpen(b.leases, i, Marked(b, i).leases[i]);
    hide OpenThreads, OpenModels;
  }

  // ---------------------------------------------------------------- rounds

  function NewRound<R>(c: Limits, b: Books<R>): Books<R> {
    b.(roundConsumed := map s | s in c.stages :: 0.0, startedRounds := b.startedRounds + 1)
  }

  /** Resetting the round counters, even under an open root, keeps everything within limits. */
  lemma NewRoundKeeps<R>(c: Limits, b: Books<R>)
    requires Inv(c, b)
    ensures Inv(c, NewRound(c, b))
  {
    var a := NewRound(c, b);
    hide OpenThreads, OpenModels;
    forall x | 0 <= x < |a.leases| ensures LeaseFits(c, a, a.leases[x]) {
      assert LeaseFits(c, b, b.leases[x]);
      RoundFits(c, b, b.leases[x]);
    }
  }

  lemma RoundFits<R>(c: Limits, b: Books<R>, e: Entry<R>)
    requires Within(c, b) && LeaseFits(c, b, e)
    ensures LeaseFits(c, NewRound(c, b), e)
  {
    var a := NewRound(c, b);
    if !e.closed && e.model {
      var j :| 0 <= j < |b.leases| && e.parent == Some(b.leases[j].self) && OpenRoot(b.leases[j], e.stage)
               && e.deadline <= b.leases[j].deadline && e.workDeadline <= b.leases[j].workDeadline;
      assert a.leases[j] == b.leases[j];
    }
  }
}
