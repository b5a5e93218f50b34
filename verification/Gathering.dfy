/** All ranks and the coordinator as one state machine over lossy connections
    (runtime/execution/control_transport.cc, ControlTransport::gather against Coordinator). */
module Gathering {
  import opened Basics
  import opened ControlTransport

  datatype Entry<P> = Entry(phase: string, payload: P)

  /** `history` is what the rank has sent per sequence, `results` what it returned; the next sequence is |results|. */
  datatype Rank<P> = Rank(history: seq<Entry<P>>, results: seq<seq<P>>, sending: bool, broken: bool)

  datatype Reply<P> = Reply(rank: nat, sequence: nat, phase: string, members: seq<P>)

  /** `replies` holds every reply ever put on a connection. */
  datatype System<P(==)> = System(coordinator: Decisions<P>, ranks: seq<Rank<P>>, replies: set<Reply<P>>)

  datatype Step<P> =
    | Call(rank: nat, entry: Entry<P>)          // gather sends its message
    | Process(rank: nat, sequence: nat)         // the coordinator reads a frame sent earlier, possibly again
    | Emit(rank: nat, sequence: nat)            // the coordinator writes a reply
    | Deliver(rank: nat, reply: Reply<P>)       // gather reads a reply on its own connection
    | GiveUp(rank: nat)                         // deadline or error reply
    | Noise(fault: Fault)                       // a malformed or foreign frame

  ghost predicate Sent<P(!new)>(s: System<P>, r: nat, k: nat) {
    r < |s.ranks| && k < |s.ranks[r].history|
  }

  ghost function MessageOf<P(!new)>(s: System<P>, r: nat, k: nat): Message<P>
    requires Sent(s, r, k)
  {
    Message(k, r, s.ranks[r].history[k].phase, s.ranks[r].history[k].payload)
  }

  function WithRank<P>(s: System<P>, r: nat, x: Rank<P>): System<P>
    requires r < |s.ranks|
  {
    s.(ranks := s.ranks[r := x])
  }

  ghost predicate Next<P(!new)>(s: System<P>, step: Step<P>, t: System<P>, size: P -> nat) {
    match step
    case Call(r, entry) =>
      && r < |s.ranks| && !s.ranks[r].broken && !s.ranks[r].sending
      && t == WithRank(s, r, s.ranks[r].(history := s.ranks[r].history + [entry], sending := true))
    case Process(r, k) =>
      && Sent(s, r, k) && t == s.(coordinator := t.coordinator)
      && Handled(s.coordinator, MessageOf(s, r, k), size(MessageOf(s, r, k).payload), t.coordinator)
    case Emit(r, k) =>
      && Sent(s, r, k) && s.coordinator.fatal.None? && k in s.coordinator.rounds && s.coordinator.rounds[k].reply.Some?
      && t == s.(replies := s.replies
                 + {Reply(r, k, s.coordinator.rounds[k].phase, s.coordinator.rounds[k].reply.value)})
    case Deliver(r, reply) =>
      && r < |s.ranks| && s.ranks[r].sending && !s.ranks[r].broken
      && reply in s.replies && reply.rank == r && reply.sequence == |s.ranks[r].results| && Sent(s, r, reply.sequence)
      && t == WithRank(s, r,
                if reply.phase == s.ranks[r].history[reply.sequence].phase && |reply.members| == |s.ranks|
                then s.ranks[r].(results := s.ranks[r].results + [reply.members], sending := false)
                else s.ranks[r].(broken := true, sending := false))
    case GiveUp(r) =>
      && r < |s.ranks| && s.ranks[r].sending
      && t == WithRank(s, r, s.ranks[r].(broken := true, sending := false))
    case Noise(fault) =>
      t == s.(coordinator := Fail(s.coordinator, fault))
  }

  ghost predicate Initial<P(!new)>(s: System<P>) {
    && |s.ranks| > 0 && s.coordinator == Decisions(|s.ranks|, map[], 0, None) && s.replies == {}
    && forall r :: 0 <= r < |s.ranks| ==> s.ranks[r] == Rank([], [], false, false)
  }

  ghost predicate IsRun<P(!new)>(states: seq<System<P>>, steps: seq<Step<P>>, size: P -> nat) {
    && |states| == |steps| + 1 && Initial(states[0])
    && forall i :: 0 <= i < |steps| ==> Next(states[i], steps[i], states[i + 1], size)
  }

  // ---------------------------------------------------------------- invariants

  ghost predicate RanksOk<P(!new)>(s: System<P>) {
    && |s.ranks| == s.coordinator.ranks > 0
    && forall r :: 0 <= r < |s.ranks| ==> RankOk(s.ranks[r])
  }

  ghost predicate RankOk<P(!new)>(x: Rank<P>) {
    && |x.results| <= |x.history| <= |x.results| + 1
    && (x.sending ==> |x.history| == |x.results| + 1 && !x.broken)
    && (!x.sending && !x.broken ==> |x.history| == |x.results|)
  }

  /** Each rank is at the sequence being decided or the one before. */
  ghost predicate Lockstep<P(!new)>(s: System<P>) {
    forall r :: 0 <= r < |s.ranks| ==> s.coordinator.next - 1 <= |s.ranks[r].results| <= s.coordinator.next
  }

  /** Every rank has sent this sequence, under this phase, and `members` lists what each of them sent. */
  ghost predicate Agreed<P(!new)>(s: System<P>, k: nat, phase: string, members: seq<P>) {
    && |members| == |s.ranks|
    && forall r :: 0 <= r < |s.ranks| ==> k < |s.ranks[r].history| && s.ranks[r].history[k] == Entry(phase, members[r])
  }


  ghost predicate RoundOk<P(!new)>(s: System<P>, k: nat, round: Round<P>) {
    && (forall r :: r in round.members ==>
      Sent(s, r, k) && s.ranks[r].history[k] == Entry(round.phase, round.members[r]))
    && (round.reply.Some? ==> k < s.coordinator.next && Agreed(s, k, round.phase, round.reply.value)
                              && forall r: nat :: r < |s.ranks| ==> r in round.members)
    && (round.reply.None? ==> k == s.coordinator.next && exists r: nat :: r < |s.ranks| && r !in round.members)
  }

  /** The decisions kept are the last two, and the open round. */
  ghost predicate Window<P(!new)>(s: System<P>) {
    && (forall k :: k in s.coordinator.rounds ==> s.coordinator.next <= k + 2 && k <= s.coordinator.next)
    && (forall k: nat :: s.coordinator.next <= k + 2 && k < s.coordinator.next ==> k in s.coordinator.rounds)
  }

  ghost predicate RoundsOk<P(!new)>(s: System<P>) {
    forall k :: k in s.coordinator.rounds ==> RoundOk(s, k, s.coordinator.rounds[k])
  }

  ghost predicate RepliesOk<P(!new)>(s: System<P>) {
    forall x :: x in s.replies ==> x.sequence < s.coordinator.next && Agreed(s, x.sequence, x.phase, x.members)
  }

  ghost predicate ResultsOk<P(!new)>(s: System<P>) {
    forall r, k :: 0 <= r < |s.ranks| && 0 <= k < |s.ranks[r].results| ==> ResultOk(s, r, k)
  }

  ghost predicate ResultOk<P(!new)>(s: System<P>, r: nat, k: nat)
    requires r < |s.ranks| && k < |s.ranks[r].results|
  {
    Sent(s, r, k) && Agreed(s, k, s.ranks[r].history[k].phase, s.ranks[r].results[k])
  }

  ghost predicate Inv<P(!new)>(s: System<P>) {
    RanksOk(s) && Lockstep(s) && Window(s) && RoundsOk(s) && RepliesOk(s) && ResultsOk(s)
  }

  lemma InitialInv<P(!new)>(s: System<P>)
    requires Initial(s)
    ensures Inv(s)
  {
  }

  // ---------------------------------------------------------------- histories only grow

  ghost predicate Grown<P(!new)>(s: System<P>, t: System<P>) {
    && |t.ranks| == |s.ranks|
    && forall r :: 0 <= r < |s.ranks| ==> s.ranks[r].history <= t.ranks[r].history
  }

  lemma AgreedKept<P(!new)>(s: System<P>, t: System<P>, k: nat, phase: string, members: seq<P>)
    requires Grown(s, t) && Agreed(s, k, phase, members)
    ensures Agreed(t, k, phase, members)
  {
    forall r | 0 <= r < |t.ranks|
      ensures k < |t.ranks[r].history| && t.ranks[r].history[k] == Entry(phase, members[r])
    {
      assert s.ranks[r].history <= t.ranks[r].history;
    }
  }

  lemma RoundKept<P(!new)>(s: System<P>, t: System<P>, k: nat, round: Round<P>)
    requires Grown(s, t) && RoundOk(s, k, round) && t.coordinator.next == s.coordinator.next
    ensures RoundOk(t, k, round)
  {
    if round.reply.Some? {
      AgreedKept(s, t, k, round.phase, round.reply.value);
    }
    forall r | r in round.members
      ensures Sent(t, r, k) && t.ranks[r].history[k] == Entry(round.phase, round.members[r])
    {
      assert s.ranks[r].history <= t.ranks[r].history;
    }
  }

  /** Rank steps leave the coordinator's view correct. */
  lemma ViewKept<P(!new)>(s: System<P>, t: System<P>)
    requires Grown(s, t) && t.coordinator == s.coordinator && t.replies == s.replies
    requires Window(s) && RoundsOk(s) && RepliesOk(s)
    ensures Window(t) && RoundsOk(t) && RepliesOk(t)
  {
    hide RoundOk, Agreed;
    forall k | k in t.coordinator.rounds ensures RoundOk(t, k, t.coordinator.rounds[k]) {
      RoundKept(s, t, k, s.coordinator.rounds[k]);
    }
    forall x | x in t.replies ensures x.sequence < t.coordinator.next && Agreed(t, x.sequence, x.phase, x.members) {
      AgreedKept(s, t, x.sequence, x.phase, x.members);
    }
  }

  lemma ResultKept<P(!new)>(s: System<P>, t: System<P>, r: nat, k: nat)
    requires Grown(s, t) && r < |s.ranks| && k < |s.ranks[r].results| && ResultOk(s, r, k)
    requires k < |t.ranks[r].results| && t.ranks[r].results[k] == s.ranks[r].results[k]
    ensures ResultOk(t, r, k)
  {
    assert s.ranks[r].history <= t.ranks[r].history;
    AgreedKept(s, t, k, s.ranks[r].history[k].phase, s.ranks[r].results[k]);
  }

  lemma ResultsKept<P(!new)>(s: System<P>, t: System<P>)
    requires Grown(s, t) && ResultsOk(s) && forall r :: 0 <= r < |s.ranks| ==> t.ranks[r].results == s.ranks[r].results
    ensures ResultsOk(t)
  {
    hide ResultOk, Grown;
    assert |t.ranks| == |s.ranks| by {
      GrownSize(s, t);
    }
    forall r, k | 0 <= r < |t.ranks| && 0 <= k < |t.ranks[r].results| ensures ResultOk(t, r, k) {
      assert ResultOk(s, r, k);
      ResultKept(s, t, r, k);
    }
  }

  lemma GrownSize<P(!new)>(s: System<P>, t: System<P>)
    requires Grown(s, t)
    ensures |t.ranks| == |s.ranks|
  {
  }

  lemma Parts<P(!new)>(s: System<P>)
    requires Inv(s)
    ensures RanksOk(s) && Lockstep(s) && Window(s) && RoundsOk(s) && RepliesOk(s) && ResultsOk(s)
  {
    hide RanksOk, Lockstep, Window, RoundsOk, RepliesOk, ResultsOk;
  }

  lemma Whole<P(!new)>(s: System<P>)
    requires RanksOk(s) && Lockstep(s) && Window(s) && RoundsOk(s) && RepliesOk(s) && ResultsOk(s)
    ensures Inv(s)
  {
    hide RanksOk, Lockstep, Window, RoundsOk, RepliesOk, ResultsOk;
  }

  // ---------------------------------------------------------------- rank steps

  lemma RankChanged<P(!new)>(s: System<P>, t: System<P>, r: nat)
    requires RanksOk(s) && Lockstep(s) && r < |s.ranks| && |t.ranks| == |s.ranks| && t == WithRank(s, r, t.ranks[r])
    requires RankOk(t.ranks[r]) && s.ranks[r].history <= t.ranks[r].history
    requires s.coordinator.next - 1 <= |t.ranks[r].results| <= s.coordinator.next
    ensures RanksOk(t) && Lockstep(t) && Grown(s, t)
  {
  }

  lemma CallKeeps<P(!new)>(s: System<P>, t: System<P>, r: nat, entry: Entry<P>)
    requires Inv(s) && r < |s.ranks| && !s.ranks[r].broken && !s.ranks[r].sending
    requires t == WithRank(s, r, s.ranks[r].(history := s.ranks[r].history + [entry], sending := true))
    ensures Inv(t)
  {
    Parts(s);
    hide Inv, Window, RoundsOk, RepliesOk, ResultsOk;
    RankChanged(s, t, r);
    ViewKept(s, t);
    ResultsKept(s, t);
    Whole(t);
  }

  lemma GiveUpKeeps<P(!new)>(s: System<P>, t: System<P>, r: nat)
    requires Inv(s) && r < |s.ranks| && s.ranks[r].sending
    requires t == WithRank(s, r, s.ranks[r].(broken := true, sending := false))
    ensures Inv(t)
  {
    Parts(s);
    hide Inv, Window, RoundsOk, RepliesOk, ResultsOk;
    RankChanged(s, t, r);
    ViewKept(s, t);
    ResultsKept(s, t);
    Whole(t);
  }

  lemma ReplyIsAgreed<P(!new)>(s: System<P>, x: Reply<P>)
    requires RepliesOk(s) && x in s.replies
    ensures x.sequence < s.coordinator.next && Agreed(s, x.sequence, x.phase, x.members)
  {
    hide Agreed;
  }

  /** A reply to the message a rank is sending always matches it. */
  lemma ReplyMatches<P(!new)>(s: System<P>, r: nat, x: Reply<P>)
    requires RepliesOk(s) && x in s.replies && r < |s.ranks| && Sent(s, r, x.sequence)
    ensures x.phase == s.ranks[r].history[x.sequence].phase && |x.members| == |s.ranks|
  {
    ReplyIsAgreed(s, x);
  }

  lemma DeliverKeeps<P(!new)>(s: System<P>, t: System<P>, r: nat, x: Reply<P>)
    requires Inv(s) && r < |s.ranks| && s.ranks[r].sending && !s.ranks[r].broken
    requires x in s.replies && x.sequence == |s.ranks[r].results| && Sent(s, r, x.sequence)
    requires t == WithRank(s, r, s.ranks[r].(results := s.ranks[r].results + [x.members], sending := false))
    ensures Inv(t)
  {
    Parts(s);
    ReplyIsAgreed(s, x);
    ReplyMatches(s, r, x);
    hide Inv, Window, RoundsOk, RepliesOk, ResultsOk, Agreed;
    RankChanged(s, t, r);
    ViewKept(s, t);
    forall q, k | 0 <= q < |t.ranks| && 0 <= k < |t.ranks[q].results| ensures ResultOk(t, q, k) {
      if q == r && k == x.sequence {
        AgreedKept(s, t, k, x.phase, x.members);
      } else {
        OldResult(s, q, k);
        ResultKept(s, t, q, k);
      }
    }
    ResultsAre(t);
    Whole(t);
  }

  lemma OldResult<P(!new)>(s: System<P>, r: nat, k: nat)
    requires ResultsOk(s) && r < |s.ranks| && k < |s.ranks[r].results|
    ensures ResultOk(s, r, k)
  {
    hide ResultOk;
  }

  lemma ResultsAre<P(!new)>(t: System<P>)
    requires forall q, k :: 0 <= q < |t.ranks| && 0 <= k < |t.ranks[q].results| ==> ResultOk(t, q, k)
    ensures ResultsOk(t)
  {
    hide ResultOk;
  }

  // ---------------------------------------------------------------- coordinator steps

  lemma CoordinatorOnly<P(!new)>(s: System<P>, t: System<P>)
    requires t.ranks == s.ranks && t.coordinator.ranks == s.coordinator.ranks && RanksOk(s) && ResultsOk(s)
    ensures RanksOk(t) && ResultsOk(t) && Grown(s, t)
  {
    hide RankOk, ResultOk;
    forall r | 0 <= r < |t.ranks| ensures RankOk(t.ranks[r]) {
      assert RankOk(s.ranks[r]);
    }
    forall r | 0 <= r < |s.ranks| ensures s.ranks[r].history <= t.ranks[r].history {
    }
    ResultsKeptHere(s, t);
  }

  lemma ResultsKeptHere<P(!new)>(s: System<P>, t: System<P>)
    requires t.ranks == s.ranks && ResultsOk(s)
    ensures ResultsOk(t)
  {
    hide Agreed;
    forall r, k | 0 <= r < |t.ranks| && 0 <= k < |t.ranks[r].results| ensures ResultOk(t, r, k) {
      assert ResultOk(s, r, k);
      SameAgreed(s, t, k, s.ranks[r].history[k].phase, s.ranks[r].results[k]);
    }
  }

  lemma SameAgreed<P(!new)>(s: System<P>, t: System<P>, k: nat, phase: string, members: seq<P>)
    requires t.ranks == s.ranks
    ensures Agreed(s, k, phase, members) <==> Agreed(t, k, phase, members)
  {
  }

  /** Rounds replaced without a decision. */
  lemma RoundPut<P(!new)>(s: System<P>, t: System<P>, k: nat, round: Round<P>)
    requires Inv(s) && t.ranks == s.ranks && t.replies == s.replies
    requires t.coordinator == s.coordinator.(rounds := s.coordinator.rounds[k := round], fatal := t.coordinator.fatal)
    requires RoundOk(s, k, round) && s.coordinator.next <= k + 2 && k <= s.coordinator.next
    ensures Inv(t)
  {
    Parts(s);
    hide Inv, RanksOk, ResultsOk, RoundOk, Agreed;
    CoordinatorOnly(s, t);
    forall x | x in t.coordinator.rounds ensures RoundOk(t, x, t.coordinator.rounds[x]) {
      RoundKept(s, t, x, t.coordinator.rounds[x]);
    }
    forall x | x in t.replies ensures x.sequence < t.coordinator.next && Agreed(t, x.sequence, x.phase, x.members) {
      AgreedKept(s, t, x.sequence, x.phase, x.members);
    }
    assert Lockstep(t) && Window(t) && RoundsOk(t) && RepliesOk(t);
    Whole(t);
  }

  lemma FaultKeeps<P(!new)>(s: System<P>, t: System<P>)
    requires Inv(s) && t == s.(coordinator := s.coordinator.(fatal := t.coordinator.fatal))
    ensures Inv(t)
  {
    Parts(s);
    hide Inv, RanksOk, ResultsOk, RoundOk, Agreed;
    CoordinatorOnly(s, t);
    forall x | x in t.coordinator.rounds ensures RoundOk(t, x, t.coordinator.rounds[x]) {
      RoundKept(s, t, x, t.coordinator.rounds[x]);
    }
    forall x | x in t.replies ensures x.sequence < t.coordinator.next && Agreed(t, x.sequence, x.phase, x.members) {
      AgreedKept(s, t, x.sequence, x.phase, x.members);
    }
    assert Lockstep(t) && Window(t) && RoundsOk(t) && RepliesOk(t);
    Whole(t);
  }

  lemma EmitKeeps<P(!new)>(s: System<P>, t: System<P>, r: nat, k: nat)
    requires Inv(s) && k in s.coordinator.rounds && s.coordinator.rounds[k].reply.Some?
    requires t
        == s.(replies := s.replies + {Reply(r, k, s.coordinator.rounds[k].phase, s.coordinator.rounds[k].reply.value)})
    ensures Inv(t)
  {
    Parts(s);
    assert RoundOk(s, k, s.coordinator.rounds[k]);
    hide Inv, RanksOk, ResultsOk, Agreed;
    CoordinatorOnly(s, t);
    forall x | x in t.coordinator.rounds ensures RoundOk(t, x, t.coordinator.rounds[x]) {
      RoundKept(s, t, x, t.coordinator.rounds[x]);
    }
    forall x | x in t.replies ensures x.sequence < t.coordinator.next && Agreed(t, x.sequence, x.phase, x.members) {
      AgreedKept(s, t, x.sequence, x.phase, x.members);
    }
    assert Lockstep(t) && Window(t) && RoundsOk(t) && RepliesOk(t);
    Whole(t);
  }

  // ---------------------------------------------------------------- processing a frame

  lemma RoundKnown<P(!new)>(s: System<P>, k: nat)
    requires RoundsOk(s) && k in s.coordinator.rounds
    ensures RoundOk(s, k, s.coordinator.rounds[k])
  {
    hide RoundOk;
  }

  /** What a rank has sent was sent at most one sequence ahead of the decisions, so no frame comes from the future. */
  lemma SentIsPast<P(!new)>(s: System<P>, r: nat, k: nat)
    requires RanksOk(s) && Lockstep(s) && Sent(s, r, k)
    ensures k <= s.coordinator.next
  {
    assert RankOk(s.ranks[r]);
  }

  lemma JoinedIsOk<P(!new)>(s: System<P>, r: nat, k: nat, size: nat)
    requires Inv(s) && Sent(s, r, k) && InBoundary(s.coordinator, MessageOf(s, r, k))
    requires RoundFor(s.coordinator, MessageOf(s, r, k)).phase == s.ranks[r].history[k].phase
    ensures var round := RoundFor(s.coordinator, MessageOf(s, r, k));
            var joined := Joined(round, MessageOf(s, r, k), size);
            && (joined.reply.Some? ==> joined == round)
            && (forall q :: q in joined.members ==>
              Sent(s, q, k) && s.ranks[q].history[k] == Entry(joined.phase, joined.members[q]))
            && (round.reply.None? ==> k == s.coordinator.next)
            && (round.reply.Some? ==> k in s.coordinator.rounds && RoundOk(s, k, round))
  {
    Parts(s);
    hide Inv, RanksOk, Lockstep, Window, RoundsOk, RepliesOk, ResultsOk, Agreed;
    if k in s.coordinator.rounds {
      RoundKnown(s, k);
    }
  }

  lemma IncompleteIsOk<P(!new)>(s: System<P>, k: nat, round: Round<P>)
    requires k == s.coordinator.next && round.reply.None? && s.coordinator.ranks == |s.ranks|
    requires forall q :: q in round.members ==>
        Sent(s, q, k) && s.ranks[q].history[k] == Entry(round.phase, round.members[q])
    requires !(forall q: nat :: q < s.coordinator.ranks ==> q in round.members)
    ensures RoundOk(s, k, round)
  {
  }

  /** A newly opened round is empty. */
  lemma OpenedIsOk<P(!new)>(s: System<P>, r: nat, k: nat)
    requires Inv(s) && Sent(s, r, k) && InBoundary(s.coordinator, MessageOf(s, r, k))
    ensures RoundOk(s, k, RoundFor(s.coordinator, MessageOf(s, r, k)))
    ensures s.coordinator.next <= k + 2 && k <= s.coordinator.next
  {
    Parts(s);
    hide Inv, RanksOk, RoundsOk, RepliesOk, ResultsOk, Agreed;
    if k in s.coordinator.rounds {
      RoundKnown(s, k);
    } else {
      assert 0 !in RoundFor(s.coordinator, MessageOf(s, r, k)).members;
      assert r < |s.ranks|;
    }
  }

  lemma BytesDoNotMatter<P(!new)>(s: System<P>, k: nat, round: Round<P>, bytes: nat)
    requires RoundOk(s, k, round)
    ensures RoundOk(s, k, round.(bytes := bytes))
  {
  }

  // ---------------------------------------------------------------- the decision

  /** Evicting down to two leaves exactly the last two decisions. */
  lemma EvictionWindow<P(!new)>(before: map<nat, Round<P>>, after: map<nat, Round<P>>, n: nat)
    requires Retained(before, after)
    requires n in before && (forall k :: k in before ==> n <= k + 2 && k <= n)
    requires forall k: nat :: n <= k + 2 && k < n ==> k in before
    ensures forall k :: k in after ==> n + 1 <= k + 2 && k <= n
    ensures forall k: nat :: n + 1 <= k + 2 && k <= n ==> k in after
  {
    assert |before| == |before.Keys| && |after| == |after.Keys|;
    if n == 0 {
      assert before.Keys == {0};
    } else if n == 1 {
      assert before.Keys == {0, 1};
    } else {
      assert before.Keys == {n - 2, n - 1, n};
      assert |before.Keys| == 3;
      ThreeToTwo(before.Keys, after.Keys, n);
    }
  }

  lemma ThreeToTwo(before: set<nat>, after: set<nat>, n: nat)
    requires n >= 2 && before == {n - 2, n - 1, n} && after <= before && |after| == 2
    requires forall k, l :: k in before && k !in after && l in after ==> k < l
    ensures after == {n - 1, n}
  {
    assert |before| == 3;
    assert n - 2 in after ==> after == before;
    AtMostOne(after, n - 1);
    AtMostOne(after, n);
  }

  lemma AtMostOne(s: set<nat>, x: nat)
    ensures s <= {x} ==> |s| <= 1
  {
    if s <= {x} {
      assert s == {} || s == {x};
    }
  }

  /** The reply of a complete round lists what every rank sent. */
  lemma CompleteIsAgreed<P(!new)>(s: System<P>, k: nat, round: Round<P>)
    requires s.coordinator.ranks == |s.ranks| && (forall q: nat :: q < |s.ranks| ==> q in round.members)
    requires forall q :: q in round.members ==>
        Sent(s, q, k) && s.ranks[q].history[k] == Entry(round.phase, round.members[q])
    ensures Agreed(s, k, round.phase, Collect(s.coordinator.ranks, round.members))
  {
  }

  /** When the open sequence is decided, every rank has sent it, so nobody still waits for an evicted decision. */
  lemma DecisionKeepsLockstep<P(!new)>(s: System<P>, t: System<P>, k: nat)
    requires RanksOk(s) && Lockstep(s) && k == s.coordinator.next && forall q: nat :: q < |s.ranks| ==> Sent(s, q, k)
    requires t.ranks == s.ranks && t.coordinator.next == k + 1
    ensures Lockstep(t)
  {
    forall r | 0 <= r < |t.ranks| ensures t.coordinator.next - 1 <= |t.ranks[r].results| <= t.coordinator.next {
      assert Sent(s, r, k) && RankOk(s.ranks[r]);
    }
  }

  lemma DecidedRound<P(!new)>(s: System<P>, t: System<P>, k: nat, round: Round<P>)
    requires RoundOk(s, k, round) && round.reply.Some? && t.ranks == s.ranks
    requires t.coordinator.next == s.coordinator.next + 1
    ensures RoundOk(t, k, round)
  {
    SameAgreed(s, t, k, round.phase, round.reply.value);
  }

  lemma DecidedRounds<P(!new)>(s: System<P>, t: System<P>, k: nat, answered: Round<P>)
    requires Inv(s) && k == s.coordinator.next && t.ranks == s.ranks && t.coordinator.next == k + 1
    requires answered.reply.Some? && Agreed(s, k, answered.phase, answered.reply.value)
    requires forall q: nat :: q < |s.ranks| ==> q in answered.members
    requires forall q :: q in answered.members ==>
        Sent(s, q, k) && s.ranks[q].history[k] == Entry(answered.phase, answered.members[q])
    requires Retained(s.coordinator.rounds[k := answered], t.coordinator.rounds)
    ensures RoundsOk(t) && Window(t)
  {
    Parts(s);
    WindowAround(s, k, answered);
    EvictionWindow(s.coordinator.rounds[k := answered], t.coordinator.rounds, k);
    RetainedAs(s.coordinator.rounds[k := answered], t.coordinator.rounds);
    hide Inv, RanksOk, Lockstep, RepliesOk, ResultsOk, RoundsOk, Agreed, Retained, Window;
    forall x | x in t.coordinator.rounds ensures RoundOk(t, x, t.coordinator.rounds[x]) {
      if x == k {
        SameAgreed(s, t, k, answered.phase, answered.reply.value);
      } else {
        RoundKnown(s, x);
        DecidedRound(s, t, x, s.coordinator.rounds[x]);
      }
    }
    hide RoundOk;
    RoundsAre(t);
    WindowIs(t);
  }

  lemma WindowAround<P(!new)>(s: System<P>, k: nat, answered: Round<P>)
    requires Window(s) && k == s.coordinator.next
    ensures var before := s.coordinator.rounds[k := answered];
            && (forall j :: j in before ==> k <= j + 2 && j <= k)
            && (forall j: nat :: k <= j + 2 && j < k ==> j in before)
  {
  }

  lemma RetainedAs<P>(before: map<nat, Round<P>>, after: map<nat, Round<P>>)
    requires Retained(before, after)
    ensures forall k :: k in after ==> k in before && after[k] == before[k]
  {
  }

  lemma RoundsAre<P(!new)>(t: System<P>)
    requires forall x :: x in t.coordinator.rounds ==> RoundOk(t, x, t.coordinator.rounds[x])
    ensures RoundsOk(t)
  {
    hide RoundOk;
  }

  lemma WindowIs<P(!new)>(t: System<P>)
    requires forall k :: k in t.coordinator.rounds ==> t.coordinator.next <= k + 2 && k <= t.coordinator.next
    requires forall k: nat :: t.coordinator.next <= k + 2 && k < t.coordinator.next ==> k in t.coordinator.rounds
    ensures Window(t)
  {
  }

  lemma DecisionKeeps<P(!new)>(s: System<P>, t: System<P>, k: nat, joined: Round<P>)
    requires Inv(s) && k == s.coordinator.next && t.ranks == s.ranks && t.replies == s.replies
    requires t.coordinator.ranks == s.coordinator.ranks && t.coordinator.next == k + 1
    requires forall q: nat :: q < s.coordinator.ranks ==> q in joined.members
    requires forall q :: q in joined.members ==>
        Sent(s, q, k) && s.ranks[q].history[k] == Entry(joined.phase, joined.members[q])
    requires Retained(s.coordinator.rounds[k := joined.(reply := Some(Collect(s.coordinator.ranks, joined.members)))],
                      t.coordinator.rounds)
    ensures Inv(t)
  {
    Parts(s);
    var answered := joined.(reply := Some(Collect(s.coordinator.ranks, joined.members)));
    CoordinatorSize(s);
    CompleteIsAgreed(s, k, joined);
    DecidedRounds(s, t, k, answered);
    DecisionKeepsLockstep(s, t, k);
    hide Inv, RanksOk, Lockstep, Window, RoundsOk, ResultsOk, Agreed, Retained;
    CoordinatorOnly(s, t);
    forall x | x in t.replies ensures x.sequence < t.coordinator.next && Agreed(t, x.sequence, x.phase, x.members) {
      AgreedKept(s, t, x.sequence, x.phase, x.members);
    }
    Whole(t);
  }

  lemma CoordinatorSize<P(!new)>(s: System<P>)
    requires RanksOk(s)
    ensures s.coordinator.ranks == |s.ranks| > 0
  {
  }

  lemma TakenKeeps<P(!new)>(s: System<P>, t: System<P>, r: nat, k: nat, size: nat)
    requires Inv(s) && Sent(s, r, k) && InBoundary(s.coordinator, MessageOf(s, r, k))
    requires t == s.(coordinator := t.coordinator)
    requires Taken(s.coordinator, MessageOf(s, r, k), RoundFor(s.coordinator, MessageOf(s, r, k)), size, t.coordinator)
    ensures Inv(t)
  {
    Parts(s);
    CoordinatorSize(s);
    hide Inv, RanksOk, Lockstep, Window, RoundsOk, RepliesOk, ResultsOk, RoundOk, Retained, InBoundary;
    var m := MessageOf(s, r, k);
    var round := RoundFor(s.coordinator, m);
    OpenedIsOk(s, r, k);
    if round.phase != m.phase || (m.rank in round.members && round.members[m.rank] != m.payload) {
      RoundPut(s, t, k, round);
    } else if m.rank !in round.members && round.bytes + ENVELOPE + size > GROUP_LIMIT {
      BytesDoNotMatter(s, k, round, round.bytes + ENVELOPE + size);
      RoundPut(s, t, k, round.(bytes := round.bytes + ENVELOPE + size));
    } else {
      JoinedIsOk(s, r, k, size);
      var joined := Joined(round, m, size);
      if joined.reply.None? && forall q: nat :: q < s.coordinator.ranks ==> q in joined.members {
        DecisionKeeps(s, t, k, joined);
      } else {
        if joined.reply.None? {
          IncompleteIsOk(s, k, joined);
        }
        RoundPut(s, t, k, joined);
      }
    }
  }

  lemma ProcessKeeps<P(!new)>(s: System<P>, t: System<P>, r: nat, k: nat, size: nat)
    requires Inv(s) && Sent(s, r, k) && t == s.(coordinator := t.coordinator)
    requires Handled(s.coordinator, MessageOf(s, r, k), size, t.coordinator)
    ensures Inv(t)
  {
    hide Inv, Taken, InBoundary, RoundFor;
    var m := MessageOf(s, r, k);
    if ValidPhase(m.phase) && InBoundary(s.coordinator, m) {
      TakenKeeps(s, t, r, k, size);
    } else {
      FaultKeeps(s, t);
    }
  }

  /** Every step keeps the invariant. */
  lemma StepKeeps<P(!new)>(s: System<P>, step: Step<P>, t: System<P>, size: P -> nat)
    requires Inv(s) && Next(s, step, t, size)
    ensures Inv(t)
  {
    hide Inv, Handled;
    match step
    case Call(r, entry) => CallKeeps(s, t, r, entry);
    case Process(r, k) => ProcessKeeps(s, t, r, k, size(MessageOf(s, r, k).payload));
    case Emit(r, k) => EmitKeeps(s, t, r, k);
    case Deliver(r, reply) =>
      Parts(s);
      ReplyMatches(s, r, reply);
      DeliverKeeps(s, t, r, reply);
    case GiveUp(r) => GiveUpKeeps(s, t, r);
    case Noise(fault) => FaultKeeps(s, t);
  }

  /** Every state of every run satisfies the invariant. */
  lemma {:induction false} RunKeeps<P(!new)>(states: seq<System<P>>, steps: seq<Step<P>>, size: P -> nat, i: nat)
    requires IsRun(states, steps, size) && i < |states|
    ensures Inv(states[i])
    decreases i
  {
    hide Inv, Next;
    if i == 0 {
      InitialInv(states[0]);
    } else {
      RunKeeps(states, steps, size, i - 1);
      StepKeeps(states[i - 1], steps[i - 1], states[i - 1 + 1], size);
    }
  }

  // ---------------------------------------------------------------- what runs guarantee

  /** Two ranks that return from the same sequence return the same vector, under the same phase, and its r-th entry is
      what
      rank r sent there. */
  lemma Agreement<P(!new)>(s: System<P>, a: nat, b: nat, k: nat)
    requires Inv(s) && a < |s.ranks| && b < |s.ranks| && k < |s.ranks[a].results| && k < |s.ranks[b].results|
    ensures s.ranks[a].results[k] == s.ranks[b].results[k] && |s.ranks[a].results[k]| == |s.ranks|
    ensures Sent(s, a, k) && Sent(s, b, k) && s.ranks[a].history[k].phase == s.ranks[b].history[k].phase
    ensures forall r :: 0 <= r < |s.ranks| ==>
        Sent(s, r, k) && s.ranks[a].results[k][r] == s.ranks[r].history[k].payload
  {
    Parts(s);
    OldResult(s, a, k);
    OldResult(s, b, k);
  }

  /** What a live rank is sending is within the retained decisions. */
  lemma OwnRequestInBoundary<P(!new)>(s: System<P>, r: nat)
    requires Inv(s) && r < |s.ranks| && s.ranks[r].sending
    ensures var k := |s.ranks[r].results|; Sent(s, r, k) && InBoundary(s.coordinator, MessageOf(s, r, k))
  {
    assert RankOk(s.ranks[r]);
  }

  /** What a frame can be refused for: its round is evicted, its phase is empty, too long or not the round's, or the
      group's
      payloads are too large.  A retransmission never conflicts with itself. */
  ghost predicate Refusable<P(!new)>(s: System<P>, r: nat, k: nat, size: nat)
    requires Sent(s, r, k)
  {
    var m := MessageOf(s, r, k);
    || !ValidPhase(m.phase)
    || k + 2 < s.coordinator.next
    || RoundFor(s.coordinator, m).phase != m.phase
    || (r !in RoundFor(s.coordinator, m).members && RoundFor(s.coordinator, m).bytes + ENVELOPE + size > GROUP_LIMIT)
  }

  lemma BoundaryIs<P(!new)>(s: System<P>, r: nat, k: nat)
    requires Inv(s) && Sent(s, r, k)
    ensures InBoundary(s.coordinator, MessageOf(s, r, k)) <==> s.coordinator.next <= k + 2
  {
    Parts(s);
    SentIsPast(s, r, k);
  }

  /** A processed frame makes the coordinator fail exactly when it is refusable, and never as a conflicting duplicate.
      */
  lemma FatalExactly<P(!new)>(s: System<P>, t: System<P>, r: nat, k: nat, size: nat)
    requires Inv(s) && Sent(s, r, k) && Handled(s.coordinator, MessageOf(s, r, k), size, t.coordinator)
    requires s.coordinator.fatal.None?
    ensures t.coordinator.fatal.Some? <==> Refusable(s, r, k, size)
    ensures t.coordinator.fatal != Some(Duplicate)
    ensures t.coordinator.fatal == Some(Outside) ==> k + 2 < s.coordinator.next
  {
    hide *;
    BoundaryIs(s, r, k);
    Parts(s);
    NoConflict(s, r, k);
    FatalFrame(s.coordinator, MessageOf(s, r, k), size, t.coordinator);
    RefusableIs(s, r, k, size);
  }

  /** What a rank has contributed to a round is what it sent. */
  lemma NoConflict<P(!new)>(s: System<P>, r: nat, k: nat)
    requires RoundsOk(s) && Sent(s, r, k)
    ensures var m := MessageOf(s, r, k); m.sequence == k && m.rank == r && !Conflicting(RoundFor(s.coordinator, m), m)
  {
    if k in s.coordinator.rounds {
      RoundKnown(s, k);
    }
    hide RoundsOk, Agreed;
  }

  ghost predicate Conflicting<P>(round: Round<P>, m: Message<P>) {
    round.phase == m.phase && m.rank in round.members && round.members[m.rank] != m.payload
  }

  ghost predicate Oversized<P>(round: Round<P>, m: Message<P>, size: nat) {
    m.rank !in round.members && round.bytes + ENVELOPE + size > GROUP_LIMIT
  }

  /** Which frames leave a fault, and which fault. */
  lemma FatalFrame<P>(d: Decisions<P>, m: Message<P>, size: nat, e: Decisions<P>)
    requires Handled(d, m, size, e) && d.fatal.None? && !Conflicting(RoundFor(d, m), m)
    ensures var round := RoundFor(d, m);
            e.fatal.Some? <==>
            (!ValidPhase(m.phase) || !InBoundary(d, m) || round.phase != m.phase || Oversized(round, m, size))
    ensures e.fatal != Some(Duplicate)
    ensures e.fatal == Some(Outside) ==> !InBoundary(d, m)
  {
    hide InBoundary, RoundFor, Retained, Joined;
  }

  lemma RefusableIs<P(!new)>(s: System<P>, r: nat, k: nat, size: nat)
    requires Sent(s, r, k)
    ensures var m := MessageOf(s, r, k); var round := RoundFor(s.coordinator, m);
            Refusable(s, r, k, size) <==>
            (!ValidPhase(m.phase) || k + 2 < s.coordinator.next || round.phase != m.phase || Oversized(round, m, size))
  {
  }

  /** Processing adds at most one member, never changes one, and never changes a published reply. */
  lemma ContributionsAreImmutable<P(!new)>(s: System<P>, t: System<P>, r: nat, k: nat, size: nat, x: nat)
    requires Inv(s) && Sent(s, r, k) && Handled(s.coordinator, MessageOf(s, r, k), size, t.coordinator)
    requires x in s.coordinator.rounds && x in t.coordinator.rounds
    ensures forall q :: q in s.coordinator.rounds[x].members ==>
              q in t.coordinator.rounds[x].members
                && t.coordinator.rounds[x].members[q] == s.coordinator.rounds[x].members[q]
    ensures s.coordinator.rounds[x].reply.Some? ==> t.coordinator.rounds[x].reply == s.coordinator.rounds[x].reply
    ensures t.coordinator.rounds[x].phase == s.coordinator.rounds[x].phase
  {
    hide Inv;
  }

  // ---------------------------------------------------------------- runs without faults

  ghost function SizeOf<P(!new)>(members: map<nat, P>, n: nat, size: P -> nat): nat {
    if n == 0 then 0
    else SizeOf(members, n - 1, size) + if n - 1 in members then ENVELOPE + size(members[n - 1]) else 0
  }

  ghost function SentAt<P(!new)>(s: System<P>, k: nat): map<nat, P> {
    map r: nat | r < |s.ranks| && Sent(s, r, k) :: s.ranks[r].history[k].payload
  }

  /** Ranks agree on valid phases, and what they send per sequence fits the group limit. */
  ghost predicate Orderly<P(!new)>(s: System<P>, size: P -> nat) {
    && (forall r: nat, q: nat, k: nat :: Sent(s, r, k) && Sent(s, q, k) ==>
      s.ranks[r].history[k].phase == s.ranks[q].history[k].phase)
    && (forall r: nat, k: nat :: Sent(s, r, k) ==> ValidPhase(s.ranks[r].history[k].phase))
    && (forall k: nat :: SizeOf(SentAt(s, k), |s.ranks|, size) <= GROUP_LIMIT)
  }

  /** Without a fault a round counts exactly its members' bytes, and has a member. */
  ghost predicate Counted<P(!new)>(s: System<P>, size: P -> nat) {
    s.coordinator.fatal.None? ==>
      forall k :: k in s.coordinator.rounds ==> RoundCounted(s, s.coordinator.rounds[k], size)
  }

  ghost predicate RoundCounted<P(!new)>(s: System<P>, round: Round<P>, size: P -> nat) {
    round.bytes == SizeOf(round.members, |s.ranks|, size) && round.members != map[]
  }

  lemma {:induction false} SizeWithMember<P(!new)>(members: map<nat, P>, r: nat, payload: P, n: nat, size: P -> nat)
    requires r !in members
    ensures SizeOf(members[r := payload], n, size)
        == SizeOf(members, n, size) + if r < n then ENVELOPE + size(payload) else 0
    decreases n
  {
    if n > 0 {
      SizeWithMember(members, r, payload, n - 1, size);
    }
  }

  lemma {:induction false} SizeWithin<P(!new)>(some: map<nat, P>, all: map<nat, P>, n: nat, size: P -> nat)
    requires some.Keys <= all.Keys && forall r :: r in some ==> some[r] == all[r]
    ensures SizeOf(some, n, size) <= SizeOf(all, n, size)
    decreases n
  {
    if n > 0 {
      SizeWithin(some, all, n - 1, size);
    }
  }

  /** An orderly frame's phase is its round's. */
  lemma PhaseFits<P(!new)>(s: System<P>, r: nat, k: nat, size: P -> nat)
    requires RoundsOk(s) && Orderly(s, size) && Counted(s, size) && s.coordinator.fatal.None? && Sent(s, r, k)
    ensures RoundFor(s.coordinator, MessageOf(s, r, k)).phase == s.ranks[r].history[k].phase
    ensures ValidPhase(s.ranks[r].history[k].phase)
  {
    hide Agreed, SizeOf;
    if k in s.coordinator.rounds {
      RoundKnown(s, k);
      var round := s.coordinator.rounds[k];
      assert RoundCounted(s, round, size);
      var q :| q in round.members.Keys;
      assert Sent(s, q, k);
    }
  }

  /** The bytes counted for a round are its members'. */
  lemma BytesAre<P(!new)>(s: System<P>, r: nat, k: nat, size: P -> nat)
    requires Counted(s, size) && s.coordinator.fatal.None? && Sent(s, r, k)
    ensures var round := RoundFor(s.coordinator, MessageOf(s, r, k));
            round.bytes == SizeOf(round.members, |s.ranks|, size)
  {
    hide SizeOf;
    if k in s.coordinator.rounds {
      assert RoundCounted(s, s.coordinator.rounds[k], size);
    } else {
      EmptySize<P>(|s.ranks|, size);
    }
  }

  lemma BytesFit<P(!new)>(s: System<P>, r: nat, k: nat, size: P -> nat)
    requires RoundsOk(s) && Orderly(s, size) && Counted(s, size) && s.coordinator.fatal.None? && Sent(s, r, k)
    requires r !in RoundFor(s.coordinator, MessageOf(s, r, k)).members
    ensures var m := MessageOf(s, r, k); var round := RoundFor(s.coordinator, m);
            && SizeOf(round.members[r := m.payload], |s.ranks|, size)
              == SizeOf(round.members, |s.ranks|, size) + ENVELOPE + size(m.payload)
            && round.bytes + ENVELOPE + size(m.payload) <= GROUP_LIMIT
  {
    var m := MessageOf(s, r, k);
    var round := RoundFor(s.coordinator, m);
    BytesAre(s, r, k, size);
    MembersWereSent(s, r, k);
    SizeWithMember(round.members, r, m.payload, |s.ranks|, size);
    SentFits(s, k, size);
    hide RoundsOk, Orderly, Counted, SizeOf, SentAt, RoundFor;
    SizeWithin(round.members[r := m.payload], SentAt(s, k), |s.ranks|, size);
  }

  lemma SentFits<P(!new)>(s: System<P>, k: nat, size: P -> nat)
    requires Orderly(s, size)
    ensures SizeOf(SentAt(s, k), |s.ranks|, size) <= GROUP_LIMIT
  {
    hide SizeOf, SentAt;
  }

  /** In an orderly system a frame that is not evicted is never refused. */
  lemma FrameFits<P(!new)>(s: System<P>, r: nat, k: nat, size: P -> nat)
    requires RoundsOk(s) && Orderly(s, size) && Counted(s, size) && s.coordinator.fatal.None?
    requires Sent(s, r, k) && s.coordinator.next <= k + 2
    ensures !Refusable(s, r, k, size(MessageOf(s, r, k).payload))
  {
    PhaseFits(s, r, k, size);
    hide RoundsOk, Orderly, Counted, RoundFor;
    if r !in RoundFor(s.coordinator, MessageOf(s, r, k)).members {
      BytesFit(s, r, k, size);
    }
  }

  lemma MembersWereSent<P(!new)>(s: System<P>, r: nat, k: nat)
    requires Sent(s, r, k) && RoundsOk(s)
    ensures var m := MessageOf(s, r, k); var round := RoundFor(s.coordinator, m); var all := SentAt(s, k);
            && r in all && all[r] == m.payload
            && round.members.Keys <= all.Keys && forall q :: q in round.members ==> round.members[q] == all[q]
  {
    hide Agreed;
    if k in s.coordinator.rounds {
      RoundKnown(s, k);
    }
  }

  lemma {:induction false} EmptySize<P(!new)>(n: nat, size: P -> nat)
    ensures SizeOf<P>(map[], n, size) == 0
    decreases n
  {
    if n > 0 {
      EmptySize<P>(n - 1, size);
    }
  }

  lemma ProcessCounts<P(!new)>(s: System<P>, t: System<P>, r: nat, k: nat, size: P -> nat)
    requires Inv(s) && Orderly(s, size) && Counted(s, size) && s.coordinator.fatal.None?
    requires Sent(s, r, k) && s.coordinator.next <= k + 2 && t == s.(coordinator := t.coordinator)
    requires Handled(s.coordinator, MessageOf(s, r, k), size(MessageOf(s, r, k).payload), t.coordinator)
    ensures t.coordinator.fatal.None? && Counted(t, size)
  {
    hide *;
    Parts(s);
    FrameFits(s, r, k, size);
    FatalExactly(s, t, r, k, size(MessageOf(s, r, k).payload));
    RoundsCounted(s, t, r, k, size);
  }

  lemma OtherRound<P(!new)>(s: System<P>, t: System<P>, m: Message<P>, size: nat, x: nat)
    requires Handled(s.coordinator, m, size, t.coordinator) && x in t.coordinator.rounds && x != m.sequence
    ensures x in s.coordinator.rounds && t.coordinator.rounds[x] == s.coordinator.rounds[x]
  {
  }

  lemma TakenFrame<P(!new)>(s: System<P>, t: System<P>, r: nat, k: nat, size: nat)
    requires Sent(s, r, k) && Handled(s.coordinator, MessageOf(s, r, k), size, t.coordinator)
    requires s.coordinator.fatal.None? && t.coordinator.fatal.None?
    ensures var m := MessageOf(s, r, k); Taken(s.coordinator, m, RoundFor(s.coordinator, m), size, t.coordinator)
  {
    hide Taken;
  }

  lemma RoundsCounted<P(!new)>(s: System<P>, t: System<P>, r: nat, k: nat, size: P -> nat)
    requires RoundsOk(s) && Orderly(s, size) && Counted(s, size) && s.coordinator.fatal.None?
    requires t.coordinator.fatal.None?
    requires Sent(s, r, k) && t == s.(coordinator := t.coordinator)
    requires Handled(s.coordinator, MessageOf(s, r, k), size(MessageOf(s, r, k).payload), t.coordinator)
    ensures Counted(t, size)
  {
    var m := MessageOf(s, r, k);
    var round := RoundFor(s.coordinator, m);
    BytesAre(s, r, k, size);
    if r !in round.members {
      BytesFit(s, r, k, size);
    }
    TakenFrame(s, t, r, k, size(m.payload));
    hide RoundsOk, Orderly, SizeOf, Handled, Taken, RoundCounted;
    forall x | x in t.coordinator.rounds ensures RoundCounted(t, t.coordinator.rounds[x], size) {
      if x != k {
        OtherRound(s, t, m, size(m.payload), x);
        SameCount(s, t, s.coordinator.rounds[x], size);
      } else {
        NewRoundCounted(s, t, m, round, size);
      }
    }
  }

  lemma SameCount<P(!new)>(s: System<P>, t: System<P>, round: Round<P>, size: P -> nat)
    requires RoundCounted(s, round, size) && |t.ranks| == |s.ranks|
    ensures RoundCounted(t, round, size)
  {
  }

  lemma NewRoundCounted<P(!new)>(s: System<P>, t: System<P>, m: Message<P>, round: Round<P>, size: P -> nat)
    requires round == RoundFor(s.coordinator, m) && t.ranks == s.ranks && t.coordinator.fatal.None?
    requires m.sequence in s.coordinator.rounds ==> RoundCounted(s, round, size)
    requires m.rank !in round.members ==>
               round.bytes == SizeOf(round.members, |s.ranks|, size)
               && SizeOf(round.members[m.rank := m.payload], |s.ranks|, size)
                 == SizeOf(round.members, |s.ranks|, size) + ENVELOPE + size(m.payload)
    requires Taken(s.coordinator, m, round, size(m.payload), t.coordinator) && m.sequence in t.coordinator.rounds
    ensures RoundCounted(t, t.coordinator.rounds[m.sequence], size)
  {
    hide SizeOf;
  }

  lemma OtherCounts<P(!new)>(s: System<P>, t: System<P>, size: P -> nat)
    requires Counted(s, size) && t.coordinator == s.coordinator && |t.ranks| == |s.ranks|
    ensures Counted(t, size)
  {
  }

  /** A frame read before its round is evicted, and no foreign frame. */
  ghost predicate Timely<P(!new)>(s: System<P>, step: Step<P>) {
    match step
    case Process(r, k) => s.coordinator.next <= k + 2
    case Noise(fault) => false
    case _ => true
  }

  /** A run of timely steps records no fault. */
  lemma {:induction false} TimelyRun<P(!new)>(states: seq<System<P>>, steps: seq<Step<P>>, size: P -> nat, i: nat)
    requires IsRun(states, steps, size) && i < |states|
    requires forall j :: 0 <= j < i ==> Orderly(states[j], size) && Timely(states[j], steps[j])
    ensures states[i].coordinator.fatal.None? && Counted(states[i], size)
    decreases i
  {
    hide Inv, Orderly, Counted, Handled;
    if i == 0 {
      NothingCounted(states[0], size);
    } else {
      TimelyRun(states, steps, size, i - 1);
      RunKeeps(states, steps, size, i - 1);
      var s, step, t := states[i - 1], steps[i - 1], states[i - 1 + 1];
      assert Timely(s, step);
      match step {
        case Process(r, k) =>
          ProcessCounts(s, t, r, k, size);
        case _ =>
          OtherCounts(s, t, size);
      }
    }
  }

  /** A fault stays. */
  lemma FaultStays<P(!new)>(s: System<P>, step: Step<P>, t: System<P>, size: P -> nat)
    requires Next(s, step, t, size) && s.coordinator.fatal.Some?
    ensures t.coordinator.fatal.Some?
  {
    hide Retained;
  }

  /** A step that is not timely records a fault. */
  lemma UntimelyFails<P(!new)>(s: System<P>, step: Step<P>, t: System<P>, size: P -> nat)
    requires Inv(s) && Next(s, step, t, size) && !Timely(s, step)
    ensures t.coordinator.fatal.Some?
  {
    hide Inv, Handled;
    match step
    case Process(r, k) =>
      if s.coordinator.fatal.None? {
        FatalExactly(s, t, r, k, size(MessageOf(s, r, k).payload));
      } else {
        FaultStays(s, step, t, size);
      }
    case Noise(fault) =>
  }

  /** While ranks agree on phases and stay within the size limit, the coordinator has not failed the group exactly when
      every
      frame it read was timely: read before its round was evicted, and from a rank. */
  lemma {:induction false} NoFault<P(!new)>(states: seq<System<P>>, steps: seq<Step<P>>, size: P -> nat, i: nat)
    requires IsRun(states, steps, size) && i < |states|
    requires forall j :: 0 <= j < i ==> Orderly(states[j], size)
    ensures states[i].coordinator.fatal.None? <==> forall j :: 0 <= j < i ==> Timely(states[j], steps[j])
    decreases i
  {
    hide Inv, Orderly, Handled, Timely, Next;
    if i > 0 {
      NoFault(states, steps, size, i - 1);
      RunKeeps(states, steps, size, i - 1);
      var s, step, t := states[i - 1], steps[i - 1], states[i - 1 + 1];
      assert Next(s, step, t, size);
      if s.coordinator.fatal.Some? {
        FaultStays(s, step, t, size);
      } else if Timely(s, step) {
        TimelyRun(states, steps, size, i);
      } else {
        UntimelyFails(s, step, t, size);
      }
    }
  }

  lemma NothingCounted<P(!new)>(s: System<P>, size: P -> nat)
    requires Initial(s)
    ensures Counted(s, size)
  {
  }

  // ---------------------------------------------------------------- what callers see

  /** The transport as its callers see it: a rank sends, returns everyone's contribution once all have sent, or gives
      up. */
  ghost predicate CallerStep<P(!new)>(s: seq<Rank<P>>, t: seq<Rank<P>>, r: nat) {
    && r < |s| == |t| && (forall q :: 0 <= q < |s| && q != r ==> t[q] == s[q])
    && (|| (exists e :: !s[r].sending && !s[r].broken && t[r] == s[r].(history := s[r].history + [e], sending := true))
        || (s[r].sending && t[r] == s[r].(broken := true, sending := false))
        || (s[r].sending && !s[r].broken && Returns(s, t, r)))
  }

  /** Every rank has sent this sequence under one phase, and the caller gets all their payloads. */
  ghost predicate Returns<P(!new)>(s: seq<Rank<P>>, t: seq<Rank<P>>, r: nat)
    requires r < |s| == |t|
  {
    exists members ::
      && t[r] == s[r].(results := s[r].results + [members], sending := false) && |members| == |s|
      && |s[r].results| < |s[r].history|
      && forall q :: 0 <= q < |s| ==>
           (|s[r].results| < |s[q].history|
             && s[q].history[|s[r].results|] == Entry(s[r].history[|s[r].results|].phase, members[q]))
  }

  /** Retransmission, duplication and loss are invisible: every step is a caller step or changes nothing for callers. */
  lemma Refines<P(!new)>(s: System<P>, step: Step<P>, t: System<P>, size: P -> nat)
    requires Inv(s) && Next(s, step, t, size)
    ensures t.ranks == s.ranks || exists r :: CallerStep(s.ranks, t.ranks, r)
  {
    hide Inv, Handled;
    match step
    case Call(r, entry) => assert CallerStep(s.ranks, t.ranks, r);
    case Process(r, k) =>
    case Emit(r, k) =>
    case Deliver(r, reply) =>
      Parts(s);
      ReplyMatches(s, r, reply);
      DeliverReturns(s, t, r, reply);
      assert CallerStep(s.ranks, t.ranks, r);
    case GiveUp(r) => assert CallerStep(s.ranks, t.ranks, r);
    case Noise(fault) =>
  }

  lemma DeliverReturns<P(!new)>(s: System<P>, t: System<P>, r: nat, x: Reply<P>)
    requires Inv(s) && r < |s.ranks| && s.ranks[r].sending && !s.ranks[r].broken
    requires x in s.replies && x.sequence == |s.ranks[r].results| && Sent(s, r, x.sequence)
    requires t == WithRank(s, r, s.ranks[r].(results := s.ranks[r].results + [x.members], sending := false))
    ensures Returns(s.ranks, t.ranks, r)
  {
    Parts(s);
    ReplyMatches(s, r, x);
    ReplyIsAgreed(s, x);
  }
}
