/** Budget conservation over any mix of acquisitions, closings, round resets and resumed checkpoints
    (vericcl/execution/budget.py; vericcl/workflow_state.py, restore_checkpoint). */
module BudgetRuns {
  import opened Basics
  import opened BudgetBooks
  import opened BudgetRestore

  datatype Task = Task(limits: Limits, books: Books<nat>)

  datatype Move =
    | TakeRoot(self: nat, stage: string, now: real)
    | TakeModel(parent: nat, self: nat, threads: nat, now: real)
    | Finish(lease: nat, now: real)
    | LeaveUnresolved(lease: nat)
    | BeginRound
    | Resume(now: real, saved: real, downtime: real, limits: Limits, usage: Usage)

  function FreshBooks(c: Limits): Books<nat> {
    var zero := map s | s in c.stages :: 0.0;
    Books([], zero, zero, zero, 0, 0.0, 0, false, zero)
  }

  lemma FreshIsUnused(c: Limits)
    requires ValidLimits(c)
    ensures Unused(c, FreshBooks(c))
  {
  }

  ghost predicate NewSelf(b: Books<nat>, self: nat) {
    forall i :: 0 <= i < |b.leases| ==> b.leases[i].self != self
  }

  /** The charges a checkpoint turns into usage. */
  ghost predicate Resumed(c: Limits, b: Books<nat>, now: real, saved: real, downtime: real, u: Usage) {
    && Charged(b.consumed, Active(b.leases, now), false, saved, downtime, u.consumed)
    && Charged(b.roundConsumed, Active(b.leases, now), false, saved, downtime, u.roundConsumed)
    && Charged(b.modelWork, Active(b.leases, now), true, saved, downtime, u.modelWork)
    && u.startedRounds == b.startedRounds
    && u.elapsedWall == b.elapsedBefore + Max(0.0, now - c.startedAt) + downtime
  }

  /** One accepted call on a task, at any time its caller likes. */
  ghost predicate Moves(t: Task, m: Move, u: Task) {
    var c, b := t.limits, t.books;
    match m
    case TakeRoot(self, stage, now) =>
      && stage in c.stages && stage in b.consumed && stage in b.roundConsumed && NewSelf(b, self)
      && !HasOpenRoot(b.leases, stage)
      && RootLease(c, b, self, stage, now).workDeadline > now
      && u == Task(c, Added(b, RootLease(c, b, self, stage, now)))
    case TakeModel(j, self, threads, now) =>
      && j < |b.leases| && OpenRoot(b.leases[j], b.leases[j].stage) && NewSelf(b, self)
      && 1 <= threads <= QuotaThreads(c) && b.cpuInUse + threads <= c.cpuBudget && OpenModels(b.leases) < c.maxParallel
      && ModelLease(c, b.leases[j], self, threads, now).workDeadline > now
      && u == Task(c, Added(b, ModelLease(c, b.leases[j], self, threads, now)))
    case Finish(i, now) =>
      && i < |b.leases| && !b.leases[i].closed && !HasOpenChild(b.leases, b.leases[i].self)
      && b.leases[i].stage in b.consumed && b.leases[i].stage in b.modelWork && b.leases[i].stage in b.roundConsumed
      && b.leases[i].stage in b.late
      && u == Task(c, Closed(b, i, now))
    case LeaveUnresolved(i) => i < |b.leases| && !b.leases[i].closed && u == Task(c, Marked(b, i))
    case BeginRound => b.startedRounds < c.maxRounds && u == Task(c, NewRound(c, b))
    case Resume(now, saved, downtime, d, usage) =>
      && ValidLimits(d) && d.stages == c.stages && downtime >= 0.0 && Resumed(c, b, now, saved, downtime, usage)
      && Restorable(FreshBooks(d), usage) && Within(d, FreshBooks(d))
      && u == Task(d, Restored(d, FreshBooks(d), usage))
  }

  ghost predicate IsTaskRun(tasks: seq<Task>, moves: seq<Move>) {
    && |tasks| == |moves| + 1 && ValidLimits(tasks[0].limits) && tasks[0].books == FreshBooks(tasks[0].limits)
    && forall i :: 0 <= i < |moves| ==> Moves(tasks[i], moves[i], tasks[i + 1])
  }

  lemma FirstTask(tasks: seq<Task>, moves: seq<Move>)
    requires IsTaskRun(tasks, moves)
    ensures |tasks| == |moves| + 1 && ValidLimits(tasks[0].limits) && tasks[0].books == FreshBooks(tasks[0].limits)
  {
    hide Moves, ValidLimits;
  }

  lemma MoveAt(tasks: seq<Task>, moves: seq<Move>, i: nat)
    requires IsTaskRun(tasks, moves) && 0 < i < |tasks|
    ensures |tasks| == |moves| + 1 && Moves(tasks[i - 1], moves[i - 1], tasks[i])
  {
    hide Moves, ValidLimits;
    assert Moves(tasks[i - 1], moves[i - 1], tasks[i - 1 + 1]);
  }

  // ---------------------------------------------------------------- every run

  /** However late its callers are, every state of a run keeps the invariant of the books. */
  lemma {:induction false} RunKeeps(tasks: seq<Task>, moves: seq<Move>, i: nat)
    requires IsTaskRun(tasks, moves) && i < |tasks|
    ensures Inv(tasks[i].limits, tasks[i].books)
    decreases i
  {
    hide Inv, HasOpenRoot, HasOpenChild, RootLease, ModelLease, Closed, Restored, Resumed, Restorable, Within,
      ValidLimits, FreshBooks, IsTaskRun;
    if i == 0 {
      FirstTask(tasks, moves);
      FreshIsUnused(tasks[0].limits);
      UnusedIsSound(tasks[0].limits);
      return;
    }
    RunKeeps(tasks, moves, i - 1);
    MoveAt(tasks, moves, i);
    var c, b := tasks[i - 1].limits, tasks[i - 1].books;
    match moves[i - 1]
    case TakeRoot(self, stage, now) => RootKeeps(c, b, self, stage, now);
    case TakeModel(j, self, threads, now) => ModelKeeps(c, b, j, self, threads, now);
    case Finish(j, now) => ClosedKeeps(c, b, j, now);
    case LeaveUnresolved(j) => MarkedKeeps(c, b, j);
    case BeginRound => NewRoundKeeps(c, b);
    case Resume(now, saved, downtime, d, usage) =>
      FreshIsUnused(d);
      UnusedIsSound(d);
      RestoredKeeps(d, FreshBooks(d), usage);
  }

  lemma UnusedIsSound(c: Limits)
    requires Unused(c, FreshBooks(c))
    ensures Inv(c, FreshBooks(c))
  {
    hide Inv, FreshBooks;
  }

  /** What a stage has consumed exceeds its total and its per-round limit by at most its recorded lateness; resuming
      records the
      overrun itself, so how late that can be is for BudgetWithinLateness to say. */
  lemma ConsumedWithinLateness(tasks: seq<Task>, moves: seq<Move>, i: nat, s: string)
    requires IsTaskRun(tasks, moves) && i < |tasks| && s in tasks[i].limits.stages
    ensures var c, b := tasks[i].limits, tasks[i].books;
            && s in b.consumed && s in b.roundConsumed && s in b.late && b.late[s] >= 0.0
            && b.consumed[s] <= c.stages[s].total + b.late[s] && b.roundConsumed[s] <= c.stages[s].perRound + b.late[s]
  {
    hide *;
    RunKeeps(tasks, moves, i);
    InvParts(tasks[i].limits, tasks[i].books);
    LimitsOf(tasks[i].limits, tasks[i].books, s);
  }

  // ---------------------------------------------------------------- runs of bounded lateness

  /** The move closes or saves no root more than this after its deadline, and a checkpoint's clock does not run
      backwards. */
  ghost predicate LateBy(t: Task, m: Move, slack: real) {
    match m
    case Finish(i, now) => i < |t.books.leases|
      && (!t.books.leases[i].model ==> now <= t.books.leases[i].deadline + slack)
    case Resume(now, saved, _, _, _) => now <= saved && Started(t.books.leases, now)
      && OnTime(t.books.leases, now, slack)
    case _ => true
  }

  ghost predicate LateAtMost(b: Books<nat>, slack: real) {
    forall s :: s in b.late ==> b.late[s] <= slack
  }

  lemma FinishLate(b: Books<nat>, i: nat, now: real, slack: real)
    requires LateAtMost(b, slack) && slack >= 0.0 && i < |b.leases|
    requires (!b.leases[i].model ==> now <= b.leases[i].deadline + slack)
    requires b.leases[i].stage in b.consumed && b.leases[i].stage in b.modelWork && b.leases[i].stage in b.roundConsumed
    requires b.leases[i].stage in b.late
    ensures LateAtMost(Closed(b, i, now), slack)
  {
  }

  /** Nothing but closing and resuming records lateness. */
  lemma OthersNotLate(t: Task, m: Move, u: Task, slack: real)
    requires LateAtMost(t.books, slack) && Moves(t, m, u) && !m.Finish? && !m.Resume?
    ensures LateAtMost(u.books, slack)
  {
    hide HasOpenRoot, RootLease, ModelLease;
  }

  lemma LateOf(b: Books<nat>, s: string, slack: real)
    requires LateAtMost(b, slack) && s in b.late
    ensures Max(b.late[s], slack) == slack
  {
  }

  /** Lateness recorded on resuming is the overrun of the restored usage. */
  lemma OverrunIsLate(d: Limits, u: Usage, slack: real)
    requires Restorable(FreshBooks(d), u) && Within(d, FreshBooks(d)) && slack >= 0.0
    requires forall s :: s in d.stages ==> s in u.consumed && s in u.roundConsumed
                                           && u.consumed[s] <= d.stages[s].total + slack
                                           && u.roundConsumed[s] <= d.stages[s].perRound + slack
    ensures LateAtMost(Restored(d, FreshBooks(d), u), slack)
  {
    var a := Restored(d, FreshBooks(d), u);
    forall s | s in a.late ensures a.late[s] <= slack {
      assert s in d.stages;
    }
  }

  lemma {:induction false} RunLateAtMost(tasks: seq<Task>, moves: seq<Move>, i: nat, slack: real)
    requires IsTaskRun(tasks, moves) && i < |tasks| && slack >= 0.0
    requires forall j :: 0 <= j < i ==> LateBy(tasks[j], moves[j], slack)
    ensures LateAtMost(tasks[i].books, slack)
    decreases i
  {
    hide Inv, HasOpenRoot, HasOpenChild, RootLease, ModelLease, Closed, Restored, Restorable, Within,
      ValidLimits, FreshBooks, IsTaskRun, LateAtMost, Started, OnTime, Charged, Max;
    if i == 0 {
      FirstTask(tasks, moves);
      FreshNotLate(tasks[0].limits, slack);
      return;
    }
    RunLateAtMost(tasks, moves, i - 1, slack);
    RunKeeps(tasks, moves, i - 1);
    MoveAt(tasks, moves, i);
    var c, b := tasks[i - 1].limits, tasks[i - 1].books;
    assert LateBy(tasks[i - 1], moves[i - 1], slack);
    match moves[i - 1]
    case Finish(j, now) => FinishLate(b, j, now, slack);
    case Resume(now, saved, downtime, d, u) =>
      forall s | s in d.stages
        ensures s in u.consumed && s in u.roundConsumed
        ensures u.consumed[s] <= d.stages[s].total + slack && u.roundConsumed[s] <= d.stages[s].perRound + slack
      {
        CheckpointKeepsLimits(c, b, now, saved, downtime, u, s, slack);
        LateOf(b, s, slack);
      }
      OverrunIsLate(d, u, slack);
    case _ => OthersNotLate(tasks[i - 1], moves[i - 1], tasks[i], slack);
  }

  lemma FreshNotLate(c: Limits, slack: real)
    requires slack >= 0.0
    ensures LateAtMost(FreshBooks(c), slack)
  {
  }

  /** When no root is closed or saved more than `slack` after its deadline, no stage exceeds its total or its per-round
      limit by
      more than `slack`, over any number of rounds and resumed checkpoints. */
  lemma BudgetWithinLateness(tasks: seq<Task>, moves: seq<Move>, i: nat, s: string, slack: real)
    requires IsTaskRun(tasks, moves) && i < |tasks| && s in tasks[i].limits.stages && slack >= 0.0
    requires forall j :: 0 <= j < i ==> LateBy(tasks[j], moves[j], slack)
    ensures var c, b := tasks[i].limits, tasks[i].books;
            && s in b.consumed && s in b.roundConsumed
            && b.consumed[s] <= c.stages[s].total + slack && b.roundConsumed[s] <= c.stages[s].perRound + slack
  {
    ConsumedWithinLateness(tasks, moves, i, s);
    RunLateAtMost(tasks, moves, i, slack);
    hide IsTaskRun, LateBy;
  }

  /** When root leases end by their deadlines, no stage ever exceeds its total or its per-round limit. */
  lemma BudgetIsConserved(tasks: seq<Task>, moves: seq<Move>, i: nat, s: string)
    requires IsTaskRun(tasks, moves) && i < |tasks| && s in tasks[i].limits.stages
    requires forall j :: 0 <= j < i ==> LateBy(tasks[j], moves[j], 0.0)
    ensures var c, b := tasks[i].limits, tasks[i].books;
            s in b.consumed && s in b.roundConsumed && b.consumed[s] <= c.stages[s].total
              && b.roundConsumed[s] <= c.stages[s].perRound
  {
    hide *;
    BudgetWithinLateness(tasks, moves, i, s, 0.0);
  }

  /** The tightest of a stage's limits and the task's. */
  function Binding(c: Limits, s: string): real
    requires s in c.stages
  {
    Earlier(Min(c.stages[s].perRound, c.stages[s].total), c.maxWall)
  }

  /** A root lease is granted only where the tightest limit leaves time for cleanup. */
  lemma GrantNeedsTime(tasks: seq<Task>, moves: seq<Move>, i: nat)
    requires IsTaskRun(tasks, moves) && i < |moves| && moves[i].TakeRoot? && moves[i].now >= tasks[i].limits.startedAt
    ensures var c := tasks[i].limits; moves[i].stage in c.stages && Binding(c, moves[i].stage) > c.cleanupReserve
  {
    hide *;
    FirstTask(tasks, moves);
    MoveAt(tasks, moves, i + 1);
    RunKeeps(tasks, moves, i);
    var c, b := tasks[i].limits, tasks[i].books;
    InvParts(c, b);
    RootTaken(c, b, moves[i], tasks[i + 1]);
    WithinAt(c, b, moves[i].stage);
    RootNeedsTime(c, b, moves[i].self, moves[i].stage, moves[i].now);
  }

  lemma RootTaken(c: Limits, b: Books<nat>, m: Move, u: Task)
    requires Moves(Task(c, b), m, u) && m.TakeRoot?
    ensures m.stage in c.stages && m.stage in b.consumed && m.stage in b.roundConsumed
    ensures RootLease(c, b, m.self, m.stage, m.now).workDeadline > m.now
  {
    hide RootLease, HasOpenRoot;
  }

  lemma RootNeedsTime(c: Limits, b: Books<nat>, self: nat, s: string, now: real)
    requires s in c.stages && StageWithin(c, b, s) && b.elapsedBefore >= 0.0 && now >= c.startedAt
    requires RootLease(c, b, self, s, now).workDeadline > now
    ensures Binding(c, s) > c.cleanupReserve
  {
  }

  /** The lateness is spent: wherever a root lease can be granted at all, one closed `slack` late spends the tightest
      limit and
      `slack` more, of the stage's total and of its round. */
  lemma LatenessIsSpent(c: Limits, s: string, slack: real) returns (tasks: seq<Task>, moves: seq<Move>)
    requires ValidLimits(c) && s in c.stages && slack >= 0.0 && Binding(c, s) > c.cleanupReserve
    ensures IsTaskRun(tasks, moves) && |moves| == 2 && LateBy(tasks[0], moves[0], slack)
        && LateBy(tasks[1], moves[1], slack)
    ensures var b := tasks[2].books;
            s in b.consumed && s in b.roundConsumed && b.consumed[s] == Binding(c, s) + slack
              && b.roundConsumed[s] == Binding(c, s) + slack
  {
    var b := FreshBooks(c);
    var end := c.startedAt + Binding(c, s) + slack;
    var e := RootLease(c, b, 0, s, c.startedAt);
    assert !HasOpenRoot(b.leases, s);
    var d := Added(b, e);
    assert d.leases == [e] && !HasOpenChild(d.leases, 0);
    tasks := [Task(c, b), Task(c, d), Task(c, Closed(d, 0, end))];
    moves := [TakeRoot(0, s, c.startedAt), Finish(0, end)];
    assert Moves(tasks[0], moves[0], tasks[1]);
    assert Moves(tasks[1], moves[1], tasks[2]);
  }

  // ---------------------------------------------------------------- nesting in every run

  /** Slots and nesting in every reachable state, however late its callers are. */
  lemma LeasesAreNested(tasks: seq<Task>, moves: seq<Move>, i: nat, x: nat)
    requires IsTaskRun(tasks, moves) && i < |tasks| && x < |tasks[i].books.leases| && !tasks[i].books.leases[x].closed
    ensures var c, b := tasks[i].limits, tasks[i].books;
            && b.cpuInUse == OpenThreads(b.leases) <= c.cpuBudget && OpenModels(b.leases) <= c.maxParallel
            && (b.leases[x].model ==>
                  exists j ::
                    0 <= j < |b.leases| && b.leases[x].parent == Some(b.leases[j].self)
                      && OpenRoot(b.leases[j], b.leases[x].stage)
                              && b.leases[x].deadline <= b.leases[j].deadline
                              && Before(b.leases[j].deadline, GlobalDeadline(c, b.elapsedBefore)))
            && (!b.leases[x].model ==>
                  Before(b.leases[x].deadline, GlobalDeadline(c, b.elapsedBefore))
                  && forall j :: 0 <= j < |b.leases| && j != x ==> !OpenRoot(b.leases[j], b.leases[x].stage))
  {
    RunKeeps(tasks, moves, i);
    hide IsTaskRun;
    var c, b := tasks[i].limits, tasks[i].books;
    InvParts(c, b);
    LeaseAt(c, b, x);
    hide Inv, Within, OpenThreads, OpenModels, Identified, LeasesFit;
    if b.leases[x].model {
      var j :| 0 <= j < |b.leases| && b.leases[x].parent == Some(b.leases[j].self)
          && OpenRoot(b.leases[j], b.leases[x].stage)
               && b.leases[x].deadline <= b.leases[j].deadline && b.leases[x].workDeadline <= b.leases[j].workDeadline;
      LeaseAt(c, b, j);
    } else {
      OnlyRoot(b, x);
    }
  }

  lemma OnlyRoot(b: Books<nat>, x: nat)
    requires OneRoot(b) && x < |b.leases| && OpenRoot(b.leases[x], b.leases[x].stage)
    ensures forall j :: 0 <= j < |b.leases| && j != x ==> !OpenRoot(b.leases[j], b.leases[x].stage)
  {
    forall j | 0 <= j < |b.leases| && j != x ensures !OpenRoot(b.leases[j], b.leases[x].stage) {
      if !b.leases[j].closed && !b.leases[j].model {
        RootsDiffer(b, if j < x then j else x, if j < x then x else j);
      }
    }
  }

  lemma RootsDiffer(b: Books<nat>, i: nat, j: nat)
    requires OneRoot(b) && i < j < |b.leases| && !b.leases[i].closed && !b.leases[j].closed && !b.leases[i].model
    requires !b.leases[j].model
    ensures b.leases[i].stage != b.leases[j].stage
  {
  }
}
