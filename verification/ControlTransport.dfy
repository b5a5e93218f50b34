/** The coordinator's decision rounds and the ranks that retransmit to it
    (runtime/execution/control_transport.cc: Coordinator::request, Coordinator::loop, ControlTransport::gather).

    Connections, framing and polling are abstracted: any frame ever sent may be processed at any time, any number of
    times or never; any reply may be lost; a caller may give up at any time.  `size` is the length of a payload's
    text. */
module ControlTransport {
  import opened Basics

  const ENVELOPE := 12             // {"payload":...}
  const GROUP_LIMIT := 3 * 1024 * 1024
  const PHASE_LIMIT := 128

  datatype Message<P> = Message(sequence: nat, rank: nat, phase: string, payload: P)

  datatype Round<P> = Round(phase: string, members: map<nat, P>, bytes: nat, reply: Option<seq<P>>)

  datatype Fault = BadPhase | Outside | PhaseMismatch | Duplicate | TooLarge | Foreign

  datatype Decisions<P> = Decisions(ranks: nat, rounds: map<nat, Round<P>>, next: nat, fatal: Option<Fault>)

  // ---------------------------------------------------------------- request

  predicate ValidPhase(phase: string) {
    0 < |phase| <= PHASE_LIMIT
  }

  function Fail<P>(d: Decisions<P>, fault: Fault): Decisions<P> {
    d.(fatal := Some(fault))
  }

  /** Only the two largest sequences stay. */
  ghost predicate Retained<P>(before: map<nat, Round<P>>, after: map<nat, Round<P>>) {
    && after.Keys <= before.Keys
    && (forall k :: k in after ==> after[k] == before[k])
    && (forall k, l :: k in before && k !in after && l in after ==> k < l)
    && (if |before| <= 2 then after == before else |after| == 2)
  }

  function Collect<P>(ranks: nat, members: map<nat, P>): (all: seq<P>)
    requires forall r: nat :: r < ranks ==> r in members
    ensures |all| == ranks && forall r :: 0 <= r < ranks ==> all[r] == members[r]
    decreases ranks
  {
    if ranks == 0 then [] else Collect(ranks - 1, members) + [members[ranks - 1]]
  }

  /** The round a message belongs to, opened on demand. */
  function RoundFor<P>(d: Decisions<P>, m: Message<P>): Round<P> {
    if m.sequence in d.rounds then d.rounds[m.sequence] else Round(m.phase, map[], 0, None)
  }

  /** Accept a member's payload into its round. */
  function Joined<P>(round: Round<P>, m: Message<P>, size: nat): Round<P> {
    if m.rank in round.members then round
    else round.(members := round.members[m.rank := m.payload], bytes := round.bytes + ENVELOPE + size)
  }

  ghost predicate InBoundary<P>(d: Decisions<P>, m: Message<P>) {
    m.sequence == d.next || (m.sequence < d.next && m.sequence in d.rounds)
  }

  /** What one processed frame does to the coordinator, including the partial effects left by a refused one. */
  ghost predicate Handled<P>(d: Decisions<P>, m: Message<P>, size: nat, e: Decisions<P>) {
    if !ValidPhase(m.phase) then e == Fail(d, BadPhase)
    else if !InBoundary(d, m) then e == Fail(d, Outside)
    else Taken(d, m, RoundFor(d, m), size, e)
  }

  /** The frame's round is open. */
  ghost predicate Taken<P>(d: Decisions<P>, m: Message<P>, round: Round<P>, size: nat, e: Decisions<P>) {
    if round.phase != m.phase then e == Fail(d.(rounds := d.rounds[m.sequence := round]), PhaseMismatch)
    else if m.rank in round.members && round.members[m.rank] != m.payload then
      e == Fail(d.(rounds := d.rounds[m.sequence := round]), Duplicate)
    else if m.rank !in round.members && round.bytes + ENVELOPE + size > GROUP_LIMIT then
      e == Fail(d.(rounds := d.rounds[m.sequence := round.(bytes := round.bytes + ENVELOPE + size)]), TooLarge)
    else Completed(d, m.sequence, Joined(round, m, size), e)
  }

  /** The round gets its reply, and the coordinator moves on, once every member is in. */
  ghost predicate Completed<P>(d: Decisions<P>, sequence: nat, joined: Round<P>, e: Decisions<P>) {
    if joined.reply.None? && (forall r: nat :: r < d.ranks ==> r in joined.members) then
      && e.ranks == d.ranks && e.fatal == d.fatal && e.next == d.next + 1
      && Retained(d.rounds[sequence := joined.(reply := Some(Collect(d.ranks, joined.members)))], e.rounds)
    else e == d.(rounds := d.rounds[sequence := joined])
  }

  /** Writing the round before completing it makes no difference. */
  lemma CompletedOver<P>(d: Decisions<P>, mid: Decisions<P>, sequence: nat, joined: Round<P>, e: Decisions<P>)
    requires sequence in mid.rounds && mid == d.(rounds := d.rounds[sequence := mid.rounds[sequence]])
    requires Completed(mid, sequence, joined, e)
    ensures Completed(d, sequence, joined, e)
  {
    hide Retained;
    assert mid.rounds[sequence := joined] == d.rounds[sequence := joined];
    if joined.reply.None? && (forall r: nat :: r < d.ranks ==> r in joined.members) {
      var answered := joined.(reply := Some(Collect(d.ranks, joined.members)));
      assert mid.rounds[sequence := answered] == d.rounds[sequence := answered];
    }
  }

  class Coordinator<P(==)> {
    const ranks: nat
    var rounds: map<nat, Round<P>>
    var next: nat
    var fatal: Option<Fault>

    function State(): Decisions<P>
      reads this
    {
      Decisions(ranks, rounds, next, fatal)
    }

    constructor (ranks: nat)
      ensures State() == Decisions(ranks, map[], 0, None)
    {
      this.ranks, rounds, next, fatal := ranks, map[], 0, None;
    }

    /** Keep the two largest sequences. */
    method EvictOld()
      modifies this`rounds
      ensures Retained(old(rounds), rounds)
    {
      ghost var full := rounds;
      while |rounds| > 2
        invariant rounds.Keys <= full.Keys && forall k :: k in rounds ==> rounds[k] == full[k]
        invariant forall k, l :: k in full && k !in rounds && l in rounds ==> k < l
        invariant |full| > 2 ==> |rounds| >= 2
        invariant |full| <= 2 ==> rounds == full
        decreases |rounds|
      {
        var oldest := LeastId(rounds.Keys);
        var kept := rounds - {oldest};
        assert kept.Keys == rounds.Keys - {oldest};
        rounds := kept;
      }
    }

    /** Answer a complete round and move on. */
    method Complete(sequence: nat, joined: Round<P>)
      modifies this`rounds, this`next
      ensures Completed(old(State()), sequence, joined, State())
    {
      if joined.reply.None? && forall r: nat :: r < ranks ==> r in joined.members {
        rounds := rounds[sequence := joined.(reply := Some(Collect(ranks, joined.members)))];
        next := next + 1;
        EvictOld();
      } else {
        rounds := rounds[sequence := joined];
      }
    }

    /** Take a frame into its round; true when the client may wait for the reply. */
    method Take(m: Message<P>, round: Round<P>, size: nat) returns (parsed: bool)
      requires m.rank < ranks
      modifies this
      ensures Taken(old(State()), m, round, size, State())
      ensures parsed <==> Acceptable(round, m, size)
    {
      hide Completed;
      parsed := false;
      rounds := rounds[m.sequence := round];
      if round.phase != m.phase {
        fatal := Some(PhaseMismatch);
        return;
      }
      if m.rank in round.members && round.members[m.rank] != m.payload {
        fatal := Some(Duplicate);
        return;
      }
      var joined := round;
      if m.rank !in round.members {
        joined := round.(bytes := round.bytes + ENVELOPE + size);
        rounds := rounds[m.sequence := joined];
        if joined.bytes > GROUP_LIMIT {
          fatal := Some(TooLarge);
          return;
        }
        joined := joined.(members := round.members[m.rank := m.payload]);
      }
      ghost var mid := State();
      Complete(m.sequence, joined);
      CompletedOver(old(State()), mid, m.sequence, joined, State());
      parsed := true;
    }

    /** One request; true when the client may wait for the round's reply. */
    method Request(m: Message<P>, size: nat) returns (parsed: bool)
      requires m.rank < ranks
      modifies this
      ensures Handled(old(State()), m, size, State())
      ensures parsed <==> Accepted(old(State()), m, size)
    {
      hide Taken, Acceptable;
      parsed := false;
      if |m.phase| == 0 || |m.phase| > PHASE_LIMIT {
        fatal := Some(BadPhase);
        return;
      }
      if m.sequence > next || (m.sequence < next && m.sequence !in rounds) {
        fatal := Some(Outside);
        return;
      }
      var round := if m.sequence in rounds then rounds[m.sequence] else Round(m.phase, map[], 0, None);
      parsed := Take(m, round, size);
    }
  }

  ghost predicate Acceptable<P>(round: Round<P>, m: Message<P>, size: nat) {
    && round.phase == m.phase
    && (m.rank in round.members ==> round.members[m.rank] == m.payload)
    && (m.rank !in round.members ==> round.bytes + ENVELOPE + size <= GROUP_LIMIT)
  }

  /** The frame is taken into its round. */
  ghost predicate Accepted<P>(d: Decisions<P>, m: Message<P>, size: nat) {
    ValidPhase(m.phase) && InBoundary(d, m) && Acceptable(RoundFor(d, m), m, size)
  }
}
