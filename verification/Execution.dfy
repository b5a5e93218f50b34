/** Contexts executing over the real coordinator and its lossy connections
    (runtime/execution/execute_impl.h over runtime/execution/control_transport.cc). */
module Execution {
  import opened ControlTransport
  import opened Gathering
  import opened Lifecycle

  datatype Full = Full(system: System<Payload>, locals: seq<Local>)

  function Callers(f: Full): Group {
    Group(f.system.ranks, f.locals)
  }

  /** A rank's step together with what it does on the wire. */
  ghost predicate Acts(f: Full, r: nat, e: Event, h: Full, size: Payload -> nat) {
    && r < |f.system.ranks| == |f.locals| == |h.system.ranks|
    && Enabled(f.locals[r], f.system.ranks[r].broken, e)
    && h.locals == f.locals[r := Apply(f.locals[r], f.system.ranks[r].broken, e)]
    && match e
       case Send => (f.locals[r].pc.At? || f.locals[r].pc.OtherAt?)
         && Next(f.system, Call(r, Outgoing(f.locals[r])), h.system, size)
       case Return(members) =>
         exists reply: Reply<Payload> ::
           Next(f.system, Deliver(r, reply), h.system, size) && reply.members == members && !h.system.ranks[r].broken
       case GatherFails => Next(f.system, Step<Payload>.GiveUp(r), h.system, size)
       case _ => h.system == f.system
  }

  ghost predicate WireStep(step: Step<Payload>) {
    step.Process? || step.Emit? || step.Noise?
  }

  /** Any interleaving of rank steps with frames processed, repeated, lost or foreign and replies written or lost. */
  ghost predicate FullNext(f: Full, h: Full, size: Payload -> nat) {
    || (exists step :: WireStep(step) && Next(f.system, step, h.system, size) && h.locals == f.locals)
    || (exists r: nat, e: Event :: Acts(f, r, e, h, size))
  }

  ghost predicate IsFullRun(states: seq<Full>, size: Payload -> nat) {
    && states != [] && Initial(states[0].system) && InitialGroup(Callers(states[0]))
    && forall i :: 0 <= i < |states| - 1 ==> FullNext(states[i], states[i + 1], size)
  }

  ghost predicate FullOk(f: Full) {
    Gathering.Inv(f.system) && GroupOk(Callers(f))
  }

  // ---------------------------------------------------------------- every step is a group step

  lemma WireKeepsRanks(f: Full, step: Step<Payload>, h: Full, size: Payload -> nat)
    requires WireStep(step) && Next(f.system, step, h.system, size)
    ensures h.system.ranks == f.system.ranks
  {
    hide Handled;
  }

  lemma SendIsCall(f: Full, r: nat, h: Full, size: Payload -> nat)
    requires Acts(f, r, Send, h, size)
    ensures TransportStep(Callers(f), r, Send, Callers(h))
  {
    hide Apply, Outgoing;
  }

  lemma FailureIsGiveUp(f: Full, r: nat, h: Full, size: Payload -> nat)
    requires Acts(f, r, GatherFails, h, size)
    ensures TransportStep(Callers(f), r, GatherFails, Callers(h))
  {
    hide Apply;
  }

  lemma ReturnIsDelivery(f: Full, r: nat, members: seq<Payload>, h: Full, size: Payload -> nat)
    requires Gathering.Inv(f.system) && Acts(f, r, Return(members), h, size)
    ensures TransportStep(Callers(f), r, Return(members), Callers(h))
  {
    hide Apply, Enabled, Gathering.Inv;
    var reply: Reply<Payload> :| Next(f.system, Deliver(r, reply), h.system, size) && reply.members == members
        && !h.system.ranks[r].broken;
    Parts(f.system);
    hide RanksOk, Lockstep, Window, RoundsOk, RepliesOk, ResultsOk;
    ReplyMatches(f.system, r, reply);
    DeliverReturns(f.system, h.system, r, reply);
  }

  lemma ActsInGroup(f: Full, r: nat, e: Event, h: Full, size: Payload -> nat)
    requires Gathering.Inv(f.system) && Acts(f, r, e, h, size)
    ensures GroupNext(Callers(f), r, e, Callers(h))
  {
    hide Gathering.Inv, Apply, Enabled, Next, Returns;
    match e
    case Send => SendIsCall(f, r, h, size);
    case Return(members) => ReturnIsDelivery(f, r, members, h, size);
    case GatherFails => FailureIsGiveUp(f, r, h, size);
    case _ =>
  }

  lemma ActsOnWire(f: Full, r: nat, e: Event, h: Full, size: Payload -> nat)
    requires Gathering.Inv(f.system) && Acts(f, r, e, h, size)
    ensures Gathering.Inv(h.system)
  {
    hide Gathering.Inv, Apply, Enabled, Next;
    match e
    case Send => StepKeeps(f.system, Call(r, Outgoing(f.locals[r])), h.system, size);
    case Return(members) =>
      var reply: Reply<Payload> :| Next(f.system, Deliver(r, reply), h.system, size) && reply.members == members
          && !h.system.ranks[r].broken;
      StepKeeps(f.system, Deliver(r, reply), h.system, size);
    case GatherFails => StepKeeps(f.system, Step<Payload>.GiveUp(r), h.system, size);
    case _ =>
  }

  /** Every step of the whole system keeps its invariant. */
  lemma FullKeeps(f: Full, h: Full, size: Payload -> nat)
    requires FullOk(f) && FullNext(f, h, size)
    ensures FullOk(h)
  {
    hide Gathering.Inv, GroupOk, Next, Acts, WireStep;
    if step :| WireStep(step) && Next(f.system, step, h.system, size) && h.locals == f.locals {
      WireKeepsRanks(f, step, h, size);
      StepKeeps(f.system, step, h.system, size);
    } else {
      var r: nat, e: Event :| Acts(f, r, e, h, size);
      ActsInGroup(f, r, e, h, size);
      ActsOnWire(f, r, e, h, size);
      GroupKeeps(Callers(f), r, e, Callers(h));
    }
  }

  lemma {:induction false} FullRunKeeps(states: seq<Full>, size: Payload -> nat, i: nat)
    requires IsFullRun(states, size) && i < |states|
    ensures FullOk(states[i])
    decreases i
  {
    hide FullNext, Gathering.Inv, GroupOk, Initial, InitialGroup;
    if i == 0 {
      Gathering.InitialInv(states[0].system);
      InitialOk(Callers(states[0]));
    } else {
      FullRunKeeps(states, size, i - 1);
      assert FullNext(states[i - 1], states[i - 1 + 1], size);
      FullKeeps(states[i - 1], states[i], size);
    }
  }

  // ---------------------------------------------------------------- what runs guarantee

  /** Group-wide success: once any rank reports a valid output for a request, version and contract, on every rank its
      GPU has
      completed, its evidence is published and its stream guard has been released, whatever was reordered,
      repeated or lost. */
  lemma GroupWideSuccess(states: seq<Full>, size: Payload -> nat, i: nat, r: nat, id: Identity, q: nat)
    requires IsFullRun(states, size) && i < |states|
    requires r < |states[i].locals| && q < |states[i].locals| && id in states[i].locals[r].valid
    ensures id in states[i].locals[q].completed && id in states[i].locals[q].recorded && id in states[i].locals[q].freed
  {
    FullRunKeeps(states, size, i);
    hide IsFullRun, Gathering.Inv, RankGood;
    assert Everywhere(Callers(states[i]).locals, id);
  }

  /** No rank enqueues a request's collective before every rank has committed that request. */
  lemma LaunchedOnlyIfCommitted(states: seq<Full>, size: Payload -> nat, i: nat, r: nat, id: Identity, q: nat)
    requires IsFullRun(states, size) && i < |states|
    requires r < |states[i].locals| && q < |states[i].locals| && id in states[i].locals[r].launched
    ensures id in states[i].locals[q].committed
  {
    FullRunKeeps(states, size, i);
    hide IsFullRun, Gathering.Inv, RankGood;
    assert CommittedEverywhere(Callers(states[i]).locals, id);
  }

  lemma LocalSafe(states: seq<Full>, size: Payload -> nat, i: nat, r: nat)
    requires IsFullRun(states, size) && i < |states| && r < |states[i].locals|
    ensures LocalOk(states[i].locals[r])
  {
    FullRunKeeps(states, size, i);
    hide IsFullRun, Gathering.Inv, Spread;
    assert RankGood(Callers(states[i]), r);
  }

  /** Lifecycle safety: incomplete GPU work always has its stream's guard; a context that is neither busy nor uncertain,
      or is
      closed, retains no buffers,
      guard or request; buffers are given up only while the stream is known to be stopped. */
  lemma OwnershipIsSafe(states: seq<Full>, size: Payload -> nat, i: nat, r: nat)
    requires IsFullRun(states, size) && i < |states| && r < |states[i].locals|
    ensures var l := states[i].locals[r];
            && (!l.gpuComplete ==> l.guard)
            && ((!l.busy && !l.uncertain) || l.closed ==>
              !l.buffersRetained && !l.guard && !l.requestActive && l.gpuComplete)
            && (!l.buffersRetained ==> !l.streamBusy && l.gpuComplete)
  {
    LocalSafe(states, size, i, r);
    hide IsFullRun;
  }

  /** Closing never meets incomplete GPU work without an owned stream. */
  lemma CloseOwnsItsStream(states: seq<Full>, size: Payload -> nat, i: nat, r: nat, broken: bool)
    requires IsFullRun(states, size) && i < |states| && r < |states[i].locals|
    requires states[i].locals[r].pc.Closing?
    requires !states[i].locals[r].releaseFailed && !(states[i].locals[r].comm && !states[i].locals[r].commInitialized)
    ensures Enabled(states[i].locals[r], broken, CloseStop) || Enabled(states[i].locals[r], broken, CloseDone)
  {
    LocalSafe(states, size, i, r);
    hide IsFullRun, PhaseName;
  }
}
