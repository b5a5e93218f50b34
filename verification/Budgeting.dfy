/** The budget manager and its leases as objects (vericcl/execution/budget.py, BudgetManager and BudgetLease).

    Each method is one critical section; `now` is the clock read in it.  A caller that may wait for slots simply
    tries again, which is what the condition variable amounts to. */
module Budgeting {
  import opened Basics
  import opened BudgetBooks
  import opened BudgetRestore

  datatype BudgetError =
    | UnknownStage | TaskCancelled | StageBusy | Exhausted
    | NoParent | TooManyThreads | ParentExpired | SlotsBusy
    | UnknownLease | ChildrenActive
    | WorkActive | Refund

  class BudgetLease {
    const stage: string
    const startedAt: real
    const deadline: real
    const workDeadline: real
    const model: bool
    const threads: nat
    const parent: BudgetLease?
    var closed: bool
    var unresolved: bool

    constructor (stage: string, startedAt: real, deadline: real, workDeadline: real, model: bool, threads: nat,
                 parent: BudgetLease?)
      ensures this.stage == stage && this.startedAt == startedAt && this.deadline == deadline
          && this.workDeadline == workDeadline
      ensures this.model == model && this.threads == threads && this.parent == parent && !closed && !unresolved
    {
      this.stage, this.startedAt, this.deadline, this.workDeadline := stage, startedAt, deadline, workDeadline;
      this.model, this.threads, this.parent := model, threads, parent;
      closed, unresolved := false, false;
    }

    function View(): Entry<BudgetLease>
      reads this
    {
      Entry(this, stage, startedAt, deadline, workDeadline, model, threads, ParentOf(), closed, unresolved)
    }

    function ParentOf(): Option<BudgetLease> {
      if parent == null then None
      else
        var p: BudgetLease := parent;
        Some(p)
    }
  }

  class BudgetManager {
    const limits: Limits
    var consumed: map<string, real>
    var modelWork: map<string, real>
    var roundConsumed: map<string, real>
    var startedRounds: nat
    var elapsedBefore: real
    var cpuInUse: int
    var cancelled: bool
    var leases: seq<BudgetLease>
    ghost var late: map<string, real>

    static ghost function ViewsOf(list: seq<BudgetLease>): (views: seq<Entry<BudgetLease>>)
      reads list
      ensures |views| == |list| && forall i :: 0 <= i < |list| ==> views[i] == list[i].View()
    {
      seq(|list|, i requires 0 <= i < |list| reads list => list[i].View())
    }

    ghost function Views(): seq<Entry<BudgetLease>>
      reads this, leases
    {
      ViewsOf(leases)
    }

    ghost function State(): Books<BudgetLease>
      reads this, leases
    {
      Books(Views(), consumed, modelWork, roundConsumed, startedRounds, elapsedBefore, cpuInUse, cancelled, late)
    }

    ghost predicate Valid()
      reads this, leases
    {
      Inv(limits, State())
    }

    constructor (limits: Limits)
      requires ValidLimits(limits)
      ensures Valid() && this.limits == limits && Unused(limits, State()) && cpuInUse == 0 && !cancelled
      ensures forall s :: s in late ==> late[s] == 0.0
    {
      this.limits := limits;
      consumed := map s | s in limits.stages :: 0.0;
      modelWork := map s | s in limits.stages :: 0.0;
      roundConsumed := map s | s in limits.stages :: 0.0;
      startedRounds, elapsedBefore, cpuInUse, cancelled, leases := 0, 0.0, 0, false, [];
      late := map s | s in limits.stages :: 0.0;
    }

    method Cancel()
      requires Valid()
      modifies this`cancelled
      ensures Valid() && State() == old(State()).(cancelled := true)
    {
      cancelled := true;
      CancelKeeps(limits, old(State()));
    }

    // -------------------------------------------------------------- looking at leases

    method RootIsOpen(stage: string) returns (open: bool)
      ensures open <==> HasOpenRoot(State().leases, stage)
    {
      for i := 0 to |leases|
        invariant forall j :: 0 <= j < i ==> !OpenRoot(State().leases[j], stage)
      {
        if !leases[i].closed && !leases[i].model && leases[i].stage == stage {
          assert OpenRoot(State().leases[i], stage);
          return true;
        }
      }
      return false;
    }

    method Find(lease: BudgetLease) returns (found: Option<nat>)
      ensures found.Some? ==> found.value < |leases| && leases[found.value] == lease
      ensures found.None? ==> lease !in leases
    {
      for i := 0 to |leases|
        invariant lease !in leases[..i]
      {
        if leases[i] == lease {
          return Some(i);
        }
      }
      assert leases[..|leases|] == leases;
      return None;
    }

    method ModelsOpen() returns (count: nat)
      ensures count == OpenModels(State().leases)
    {
      count := 0;
      for i := 0 to |leases|
        invariant count == OpenModels(State().leases[..i])
      {
        assert State().leases[..i + 1][..i] == State().leases[..i];
        if leases[i].model && !leases[i].closed {
          count := count + 1;
        }
      }
      assert State().leases[..|leases|] == State().leases;
    }

    method ChildIsOpen(lease: BudgetLease) returns (open: bool)
      ensures open <==> HasOpenChild(State().leases, lease)
    {
      for i := 0 to |leases|
        invariant forall j :: 0 <= j < i ==> !(!State().leases[j].closed && State().leases[j].parent == Some(lease))
      {
        if !leases[i].closed && leases[i].parent == lease {
          assert !State().leases[i].closed && State().leases[i].parent == Some(lease);
          return true;
        }
      }
      return false;
    }

    // -------------------------------------------------------------- acquire

    /** Why a root request is refused, if it is. */
    ghost function RootRefusal(stage: string, now: real): Option<BudgetError>
      requires Valid()
      reads this, leases
    {
      if stage !in limits.stages then Some(UnknownStage)
      else if cancelled then Some(TaskCancelled)
      else if HasOpenRoot(State().leases, stage) then Some(StageBusy)
      else
        StageKnown(limits, State(), stage);
        var deadline := RootDeadline(limits, consumed[stage], roundConsumed[stage], elapsedBefore, stage, now);
        if deadline - limits.cleanupReserve <= now then Some(Exhausted)
        else None
    }

    lemma RootAvailable(stage: string, now: real)
      requires Valid() && RootRefusal(stage, now) == None
      ensures stage in limits.stages && stage in consumed && stage in roundConsumed
      ensures RootDeadline(limits, consumed[stage], roundConsumed[stage], elapsedBefore, stage, now)
              - limits.cleanupReserve > now
    {
    }

    /** Decide a root request: the deadline it would get, or why not. */
    method DecideRoot(stage: string, now: real) returns (deadline: Result<real, BudgetError>)
      requires Valid()
      ensures deadline.Err? ==> RootRefusal(stage, now) == Some(deadline.error)
      ensures deadline.Ok? ==>
          RootRefusal(stage, now) == None && stage in limits.stages && !HasOpenRoot(State().leases, stage)
      ensures deadline.Ok? ==> stage in consumed && stage in roundConsumed
      ensures deadline.Ok? ==>
          deadline.value == RootDeadline(limits, consumed[stage], roundConsumed[stage], elapsedBefore, stage, now)
    {
      hide Inv, HasOpenRoot, RootDeadline;
      if stage !in limits.stages {
        return Err(UnknownStage);
      }
      if cancelled {
        return Err(TaskCancelled);
      }
      var busy := RootIsOpen(stage);
      if busy {
        return Err(StageBusy);
      }
      InvParts(limits, State());
      StageKnown(limits, State(), stage);
      var until := RootDeadline(limits, consumed[stage], roundConsumed[stage], elapsedBefore, stage, now);
      if until - limits.cleanupReserve <= now {
        return Err(Exhausted);
      }
      return Ok(until);
    }

    /** acquire(stage): one root per stage, granted while it leaves time for cleanup. */
    method AcquireRoot(stage: string, now: real) returns (r: Result<BudgetLease, BudgetError>)
      requires Valid()
      modifies this
      ensures Valid()
      ensures r.Err? ==> State() == old(State()) && old(RootRefusal(stage, now)) == Some(r.error)
      ensures r.Ok? ==> old(RootRefusal(stage, now)) == None && fresh(r.value)
      ensures r.Ok? ==> stage in limits.stages && stage in old(consumed) && stage in old(roundConsumed)
                        && State() == Added(old(State()), RootLease(limits, old(State()), r.value, stage, now))
    {
      hide Inv, RootRefusal, HasOpenRoot, RootDeadline, Added;
      var deadline := DecideRoot(stage, now);
      if deadline.Err? {
        return Err(deadline.error);
      }
      ghost var before := State();
      SelvesAre();
      RootAvailable(stage, now);
      var lease := new BudgetLease(stage, now, deadline.value, deadline.value - limits.cleanupReserve, false, 0, null);
      RootLeaseIs(limits, before, lease, stage, now, deadline.value);
      Append(lease);
      RootKeeps(limits, before, lease, stage, now);
      return Ok(lease);
    }

    /** Append a lease object that is not listed yet. */
    method Append(lease: BudgetLease)
      requires lease !in leases && !lease.closed
      modifies this`leases, this`cpuInUse
      ensures State() == Added(old(State()), lease.View()) && lease.View() == old(lease.View())
    {
      ghost var before := Views();
      leases := leases + [lease];
      if lease.model {
        cpuInUse := cpuInUse + lease.threads;
      }
      assert Views() == before + [lease.View()];
    }

    /** A lease is past its work deadline, closed, or its task is cancelled. */
    predicate Expired(lease: BudgetLease, now: real)
      reads this, lease
    {
      cancelled || lease.closed || lease.workDeadline - now <= 0.0
    }

    /** Why a model request is refused, if it is. */
    ghost function ModelRefusal(stage: string, parent: BudgetLease?, threads: Option<nat>,
                                now: real): Option<BudgetError>
      reads this, leases
    {
      var requested := if threads.Some? then threads.value else QuotaThreads(limits);
      if stage !in limits.stages then Some(UnknownStage)
      else if cancelled then Some(TaskCancelled)
      else if parent == null || parent !in leases || parent.model || parent.stage != stage then Some(NoParent)
      else if requested > QuotaThreads(limits) then Some(TooManyThreads)
      else if Expired(parent, now) then Some(ParentExpired)
      else if OpenModels(State().leases) >= limits.maxParallel || cpuInUse + requested > limits.cpuBudget then
        Some(SlotsBusy)
      else if ModelWorkDeadline(limits, parent.deadline, parent.workDeadline, now) <= now then Some(Exhausted)
      else None
    }

    /** acquire(stage, model=True): threads and a slot under the stage's open root, granted exactly when nothing
        refuses.
        A caller that may wait for slots asks again after SlotsBusy. */
    method AcquireModel(stage: string, parent: BudgetLease?, threads: Option<nat>, now: real)
      returns (r: Result<BudgetLease, BudgetError>)
      requires Valid() && (threads.Some? ==> threads.value >= 1)
      modifies this
      ensures Valid()
      ensures r.Err? ==> State() == old(State()) && old(ModelRefusal(stage, parent, threads, now)) == Some(r.error)
      ensures r.Ok? ==>
          old(ModelRefusal(stage, parent, threads, now)) == None && fresh(r.value) && parent != null
            && parent in old(leases)
      ensures r.Ok? ==> State() == Added(old(State()), ModelLease(limits, old(parent.View()), r.value,
                                                if threads.Some? then threads.value else QuotaThreads(limits), now))
      ensures r.Ok? ==> r.value.model && r.value.stage == stage && r.value.parent == parent
                        && r.value.deadline <= parent.deadline && r.value.workDeadline <= parent.workDeadline
    {
      hide Inv, Added, OpenModels, ModelLease;
      if stage !in limits.stages {
        return Err(UnknownStage);
      }
      if cancelled {
        return Err(TaskCancelled);
      }
      if parent == null {
        return Err(NoParent);
      }
      var found := Find(parent);
      if found.None? || parent.model || parent.stage != stage {
        return Err(NoParent);
      }
      var requested := if threads.Some? then threads.value else QuotaThreads(limits);
      if requested > QuotaThreads(limits) {
        return Err(TooManyThreads);
      }
      if Expired(parent, now) {
        return Err(ParentExpired);
      }
      var active := ModelsOpen();
      if active >= limits.maxParallel || cpuInUse + requested > limits.cpuBudget {
        return Err(SlotsBusy);
      }
      var deadline := Min(now + limits.perModelTimeout, parent.deadline);
      var workDeadline := Min(deadline - limits.cleanupReserve, parent.workDeadline);
      if workDeadline <= now {
        return Err(Exhausted);
      }
      ghost var before := State();
      SelvesAre();
      var lease := new BudgetLease(stage, now, deadline, workDeadline, true, requested, parent);
      ModelLeaseIs(limits, before.leases[found.value], lease, requested, now, deadline, workDeadline);
      Quota(limits, before);
      Append(lease);
      ModelKeeps(limits, before, found.value, lease, requested, now);
      return Ok(lease);
    }

    // -------------------------------------------------------------- close

    /** _close: charge the stage, or the model work, once children are gone and cleanup is confirmed. */
    method Close(lease: BudgetLease, cleanupConfirmed: bool, now: real) returns (r: Result<bool, BudgetError>)
      requires Valid()
      modifies this, lease
      ensures Valid() && leases == old(leases)
      ensures r == Err(UnknownLease) <==> lease !in old(leases)
      ensures r == Err(ChildrenActive) <==>
                lease in old(leases) && !old(lease.closed) && cleanupConfirmed
                  && old(HasOpenChild(State().leases, lease))
      ensures r.Err? ==> State() == old(State()) && (r.error == UnknownLease || r.error == ChildrenActive)
      ensures r.Ok? && old(lease.closed) ==> State() == old(State())
      ensures r.Ok? && !old(lease.closed) ==>
                exists i :: 0 <= i < |leases| && leases[i] == lease
                  && (if cleanupConfirmed then Closable(limits, old(State()), i)
                  && State() == Closed(old(State()), i, now)
                      else State() == Marked(old(State()), i))
    {
      hide Inv, Closed, Marked, Closable;
      var found := Find(lease);
      if found.None? {
        return Err(UnknownLease);
      }
      ghost var before := State();
      ghost var i := found.value;
      SelvesAre();
      DistinctLeases();
      if lease.closed {
        return Ok(true);
      }
      if !cleanupConfirmed {
        Mark(lease, i);
        MarkedKeeps(limits, before, i);
        return Ok(true);
      }
      var child := ChildIsOpen(lease);
      if child {
        return Err(ChildrenActive);
      }
      ClosedKeeps(limits, before, i, now);
      CanClose(limits, before, i);
      if lease.model {
        SettleModel(lease, i, now);
      } else {
        SettleRoot(lease, i, now);
      }
      return Ok(true);
    }

    lemma DistinctLeases()
      requires Valid()
      ensures forall i, j :: 0 <= i < j < |leases| ==> leases[i] != leases[j]
    {
      InvParts(limits, State());
      SelvesAre();
      hide Inv, Within, LeasesFit, OneRoot, SlotsFit, ValidLimits;
      forall i, j | 0 <= i < j < |leases| ensures leases[i] != leases[j] {
        assert State().leases[i].self != State().leases[j].self;
      }
    }

    method Mark(lease: BudgetLease, ghost i: nat)
      requires i < |leases| && leases[i] == lease && forall j, k :: 0 <= j < k < |leases| ==> leases[j] != leases[k]
      modifies lease
      ensures State() == Marked(old(State()), i) && lease.closed == old(lease.closed)
    {
      ghost var before := Views();
      lease.unresolved := true;
      assert Views() == before[i := before[i].(unresolved := true)] by {
        forall j | 0 <= j < |leases| ensures Views()[j] == before[i := before[i].(unresolved := true)][j] {
          assert j != i ==> leases[j] != lease;
        }
      }
    }

    method MarkClosed(lease: BudgetLease, ghost i: nat)
      requires i < |leases| && leases[i] == lease && forall j, k :: 0 <= j < k < |leases| ==> leases[j] != leases[k]
      modifies lease
      ensures Views() == old(Views())[i := old(Views())[i].(closed := true, unresolved := false)]
    {
      ghost var before := Views();
      lease.closed, lease.unresolved := true, false;
      forall j | 0 <= j < |leases|
        ensures Views()[j] == before[i := before[i].(closed := true, unresolved := false)][j]
      {
        assert j != i ==> leases[j] != lease;
      }
    }

    method ChargeModel(lease: BudgetLease, elapsed: real)
      requires lease.stage in modelWork
      modifies this`cpuInUse, this`modelWork
      ensures State()
          == old(State()).(cpuInUse := old(cpuInUse) - lease.threads,
                           modelWork := old(modelWork)[lease.stage := old(modelWork)[lease.stage] + elapsed])
    {
      cpuInUse := cpuInUse - lease.threads;
      modelWork := modelWork[lease.stage := modelWork[lease.stage] + elapsed];
    }

    method ChargeRoot(lease: BudgetLease, elapsed: real, now: real)
      requires lease.stage in consumed && lease.stage in roundConsumed && lease.stage in late
      modifies this`consumed, this`roundConsumed, this`late
      ensures State() == old(State()).(
                consumed := old(consumed)[lease.stage := old(consumed)[lease.stage] + elapsed],
                roundConsumed := old(roundConsumed)[lease.stage := old(roundConsumed)[lease.stage] + elapsed],
                late := old(late)[lease.stage := Max(old(late)[lease.stage], now - lease.deadline)])
    {
      consumed := consumed[lease.stage := consumed[lease.stage] + elapsed];
      roundConsumed := roundConsumed[lease.stage := roundConsumed[lease.stage] + elapsed];
      late := late[lease.stage := Max(late[lease.stage], now - lease.deadline)];
    }

    method SettleModel(lease: BudgetLease, ghost i: nat, now: real)
      requires i < |leases| && leases[i] == lease && forall j, k :: 0 <= j < k < |leases| ==> leases[j] != leases[k]
      requires lease.model && Closable(limits, State(), i)
      modifies this`cpuInUse, this`modelWork, lease
      ensures Closable(limits, old(State()), i) && State() == Closed(old(State()), i, now)
    {
      hide Max, Elapsed, Closed, Closable;
      ghost var before := State();
      assert before.leases[i] == lease.View();
      ClosableParts(limits, before, i);
      ChargeModel(lease, Elapsed(lease.View(), now));
      MarkClosed(lease, i);
      ClosedIs(before, i, now, State());
    }

    method SettleRoot(lease: BudgetLease, ghost i: nat, now: real)
      requires i < |leases| && leases[i] == lease && forall j, k :: 0 <= j < k < |leases| ==> leases[j] != leases[k]
      requires !lease.model && Closable(limits, State(), i)
      modifies this`consumed, this`roundConsumed, this`late, lease
      ensures Closable(limits, old(State()), i) && State() == Closed(old(State()), i, now)
    {
      hide Max, Elapsed, Closed, Closable;
      ghost var before := State();
      assert before.leases[i] == lease.View();
      ClosableParts(limits, before, i);
      ghost var e := before.leases[i];
      assert !e.model && e.stage == lease.stage && e.deadline == lease.deadline;
      ChargeRoot(lease, Elapsed(lease.View(), now), now);
      ghost var charged := State();
      assert charged == RootCharged(before, e, now) by {
        assert charged.leases == before.leases;
      }
      MarkClosed(lease, i);
      assert State() == charged.(leases := before.leases[i := e.(closed := true, unresolved := false)]);
      RootClosedIs(before, i, now);
    }

    // -------------------------------------------------------------- rounds and checkpoints

    /** Whether the next tuning round may begin. */
    ghost predicate RoundAllowed(now: real)
      reads this, leases
    {
      && !cancelled && startedRounds < limits.maxRounds
      && Before(now + limits.cleanupReserve, GlobalDeadline(limits, elapsedBefore))
      && !AtDeadline(now + limits.cleanupReserve, GlobalDeadline(limits, elapsedBefore))
      && forall s :: s in limits.stages && s != "initial" ==>
        s in consumed && limits.stages[s].total - consumed[s] > limits.cleanupReserve
    }

    method StartTuningRound(now: real) returns (r: Result<nat, BudgetError>)
      requires Valid()
      modifies this
      ensures Valid()
      ensures r.Ok? <==> old(RoundAllowed(now))
      ensures r.Err? ==> State() == old(State())
      ensures r.Ok? ==> State() == NewRound(limits, old(State())) && r.value == startedRounds
    {
      hide Inv, Earlier;
      InvParts(limits, State());
      StagesKnown(limits, State());
      if cancelled || startedRounds >= limits.maxRounds {
        return Err(TaskCancelled);
      }
      if limits.maxWall.Some?
          && now >= limits.startedAt + limits.maxWall.value - elapsedBefore - limits.cleanupReserve {
        return Err(Exhausted);
      }
      var rest := limits.stages.Keys;
      while rest != {}
        invariant rest <= limits.stages.Keys
        invariant forall s :: s in limits.stages && s !in rest && s != "initial" ==>
            limits.stages[s].total - consumed[s] > limits.cleanupReserve
        decreases rest
      {
        var s :| s in rest;
        if s != "initial" && limits.stages[s].total - consumed[s] <= limits.cleanupReserve {
          return Err(Exhausted);
        }
        rest := rest - {s};
      }
      NewRoundKeeps(limits, State());
      roundConsumed := map s | s in limits.stages :: 0.0;
      startedRounds := startedRounds + 1;
      return Ok(startedRounds);
    }

    /** restore_usage: refused while work is active or when it would refund anything. */
    method RestoreUsage(u: Usage) returns (r: Result<bool, BudgetError>)
      requires Valid()
      modifies this
      ensures Valid()
      ensures r.Ok? <==> old(Restorable(State(), u))
      ensures r.Err? ==> State() == old(State())
      ensures r.Ok? ==> Within(limits, old(State())) && State() == Restored(limits, old(State()), u)
    {
      hide Inv, NoRefund, Within;
      for i := 0 to |leases|
        invariant forall j :: 0 <= j < i ==> State().leases[j].closed
      {
        if !leases[i].closed {
          assert !State().leases[i].closed;
          return Err(WorkActive);
        }
      }
      if !NoRefund(consumed, u.consumed) || !NoRefund(modelWork, u.modelWork)
          || !NoRefund(roundConsumed, u.roundConsumed)
         || u.startedRounds < startedRounds || u.elapsedWall < elapsedBefore
      {
        return Err(Refund);
      }
      ghost var before := State();
      RestoredKeeps(limits, before, u);
      roundConsumed := roundConsumed + u.roundConsumed;
      modelWork := modelWork + u.modelWork;
      consumed := consumed + u.consumed;
      startedRounds := u.startedRounds;
      elapsedBefore := u.elapsedWall;
      late := Restored(limits, before, u).late;
      return Ok(true);
    }

    /** snapshot: what a checkpoint records. */
    method TakeSnapshotNow(now: real) returns (s: Snapshot)
      requires Valid()
      ensures s == TakeSnapshot(limits, State(), now)
    {
      hide Inv, Active, TakeSnapshot, Elapsed, Max;
      ghost var views := State().leases;
      assert |views| == |leases| && forall i :: 0 <= i < |leases| ==> views[i] == leases[i].View();
      NoneActive<BudgetLease>(now);
      var active: seq<ActiveLease> := [];
      for i := 0 to |leases|
        invariant active == Active(views[..i], now)
      {
        assert views[..i + 1] == views[..i] + [views[i]];
        ActiveIs(views[..i], views[i], now);
        ListedIs(views[i], now);
        if !leases[i].closed {
          active := active
          + [ActiveLease(leases[i].stage, leases[i].model, leases[i].threads, leases[i].unresolved, leases[i].startedAt,
                                          leases[i].deadline, Max(0.0, now - leases[i].startedAt))];
        }
      }
      assert views[..|leases|] == views;
      SnapshotIs(limits, State(), now);
      s := Snapshot(consumed, modelWork, roundConsumed, startedRounds, cpuInUse, elapsedBefore
                    + Max(0.0, now - limits.startedAt), active);
    }

    /** Entries name the listed objects. */
    lemma SelvesAre()
      ensures |State().leases| == |leases| && forall i :: 0 <= i < |leases| ==> State().leases[i].self == leases[i]
    {
    }
  }

  /** min(now + what the round and the stage have left, the task's deadline). */
  function RootDeadline(c: Limits, consumed: real, roundConsumed: real, elapsedBefore: real, stage: string,
                        now: real): real
    requires stage in c.stages
  {
    Earlier(now
            + Min(c.stages[stage].perRound - roundConsumed, c.stages[stage].total - consumed),
            GlobalDeadline(c, elapsedBefore))
  }

  lemma RootLeaseIs<R>(c: Limits, b: Books<R>, self: R, stage: string, now: real, deadline: real)
    requires stage in c.stages && stage in b.consumed && stage in b.roundConsumed
    requires deadline == RootDeadline(c, b.consumed[stage], b.roundConsumed[stage], b.elapsedBefore, stage, now)
    ensures RootLease(c, b, self, stage, now)
        == Entry(self, stage, now, deadline, deadline - c.cleanupReserve, false, 0, None, false, false)
  {
  }

  function ModelWorkDeadline(c: Limits, parentDeadline: real, parentWorkDeadline: real, now: real): real {
    Min(Min(now + c.perModelTimeout, parentDeadline) - c.cleanupReserve, parentWorkDeadline)
  }

  lemma ModelLeaseIs<R>(c: Limits, parent: Entry<R>, self: R, threads: nat, now: real, deadline: real,
                        workDeadline: real)
    requires deadline == Min(now + c.perModelTimeout, parent.deadline)
    requires workDeadline == Min(deadline - c.cleanupReserve, parent.workDeadline)
    ensures ModelLease(c, parent, self, threads, now)
            == Entry(self, parent.stage, now, deadline, workDeadline, true, threads, Some(parent.self), false, false)
    ensures deadline <= parent.deadline && workDeadline <= parent.workDeadline
  {
  }

  lemma Quota<R>(c: Limits, b: Books<R>)
    requires Inv(c, b)
    ensures QuotaThreads(c) >= 1
  {
  }

  lemma NoneActive<R>(now: real)
    ensures Active<R>([], now) == []
  {
  }

  lemma ListedIs<R>(e: Entry<R>, now: real)
    ensures Listed(e, now)
        == ActiveLease(e.stage, e.model, e.threads, e.unresolved, e.startedAt, e.deadline, Max(0.0, now - e.startedAt))
  {
  }

  lemma SnapshotIs<R>(c: Limits, b: Books<R>, now: real)
    ensures TakeSnapshot(c, b, now)
            == Snapshot(b.consumed, b.modelWork, b.roundConsumed, b.startedRounds, b.cpuInUse,
                        b.elapsedBefore + Max(0.0, now - c.startedAt), Active(b.leases, now))
  {
  }

  /** Closing lease i is well defined. */
  ghost predicate Closable<R>(c: Limits, b: Books<R>, i: nat) {
    && i < |b.leases| && !b.leases[i].closed
    && b.leases[i].stage in b.consumed && b.leases[i].stage in b.modelWork && b.leases[i].stage in b.roundConsumed
    && b.leases[i].stage in b.late
  }

  lemma ClosableParts<R>(c: Limits, b: Books<R>, i: nat)
    requires Closable(c, b, i)
    ensures i < |b.leases| && b.leases[i].stage in b.consumed && b.leases[i].stage in b.modelWork
    ensures b.leases[i].stage in b.roundConsumed && b.leases[i].stage in b.late
  {
  }

  /** Books in which a root's time is charged but the root is still open. */
  ghost function RootCharged<R>(b: Books<R>, e: Entry<R>, now: real): Books<R>
    requires e.stage in b.consumed && e.stage in b.roundConsumed && e.stage in b.late
  {
    b.(consumed := b.consumed[e.stage := b.consumed[e.stage] + Elapsed(e, now)],
       roundConsumed := b.roundConsumed[e.stage := b.roundConsumed[e.stage] + Elapsed(e, now)],
       late := b.late[e.stage := Max(b.late[e.stage], now - e.deadline)])
  }

  lemma RootClosedIs<R>(b: Books<R>, i: nat, now: real)
    requires i < |b.leases| && b.leases[i].stage in b.consumed && b.leases[i].stage in b.modelWork
    requires b.leases[i].stage in b.roundConsumed && b.leases[i].stage in b.late && !b.leases[i].model
    ensures RootCharged(b, b.leases[i],
                        now).(leases := b.leases[i := b.leases[i].(closed := true, unresolved := false)])
                          == Closed(b, i, now)
  {
    hide Max, Elapsed;
  }

  lemma ClosedIs<R>(b: Books<R>, i: nat, now: real, a: Books<R>)
    requires i < |b.leases| && b.leases[i].stage in b.consumed && b.leases[i].stage in b.modelWork
    requires b.leases[i].stage in b.roundConsumed && b.leases[i].stage in b.late
    requires a.leases == b.leases[i := b.leases[i].(closed := true, unresolved := false)]
    requires a.startedRounds == b.startedRounds && a.elapsedBefore == b.elapsedBefore && a.cancelled == b.cancelled
    requires var e := b.leases[i]; var elapsed := Elapsed(e, now);
             if e.model then
               a.cpuInUse == b.cpuInUse - e.threads
                 && a.modelWork == b.modelWork[e.stage := b.modelWork[e.stage] + elapsed]
               && a.consumed == b.consumed && a.roundConsumed == b.roundConsumed && a.late == b.late
             else
               a.cpuInUse == b.cpuInUse && a.modelWork == b.modelWork
               && a.consumed == b.consumed[e.stage := b.consumed[e.stage] + elapsed]
               && a.roundConsumed == b.roundConsumed[e.stage := b.roundConsumed[e.stage] + elapsed]
               && a.late == b.late[e.stage := Max(b.late[e.stage], now - e.deadline)]
    ensures a == Closed(b, i, now)
  {
    hide Max, Elapsed;
  }

  lemma CanClose<R>(c: Limits, b: Books<R>, i: nat)
    requires i < |b.leases| && !b.leases[i].closed
    requires b.leases[i].stage in b.consumed && b.leases[i].stage in b.modelWork && b.leases[i].stage in b.roundConsumed
    requires b.leases[i].stage in b.late
    ensures Closable(c, b, i)
  {
  }

  predicate AtDeadline(t: real, bound: Option<real>) {
    bound.Some? && t == bound.value
  }

  lemma StagesKnown<R>(c: Limits, b: Books<R>)
    requires Within(c, b)
    ensures b.consumed.Keys == c.stages.Keys
  {
  }

  lemma CancelKeeps<R>(c: Limits, b: Books<R>)
    requires Inv(c, b)
    ensures Inv(c, b.(cancelled := true))
  {
    var a := b.(cancelled := true);
    InvParts(c, b);
    forall i | 0 <= i < |a.leases| ensures LeaseFits(c, a, a.leases[i]) {
      LeaseAt(c, b, i);
      SameFits(c, b, a, b.leases[i]);
    }
    hide LeaseFits, OpenThreads, OpenModels;
  }

  lemma SameFits<R>(c: Limits, b: Books<R>, a: Books<R>, e: Entry<R>)
    requires LeaseFits(c, b, e) && a == b.(cancelled := a.cancelled)
    ensures LeaseFits(c, a, e)
  {
  }
}
