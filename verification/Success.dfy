/** A run in which a request succeeds, for a group of any size whose frames fit: what group-wide success promises is
    reached
    (runtime/execution/execute_impl.h over runtime/execution/control_transport.cc). */
module Success {
  import opened Basics
  import opened ControlTransport
  import opened Gathering
  import opened Lifecycle
  import opened Execution

  function NoBytes(p: Payload): nat {
    0
  }

  // ---------------------------------------------------------------- all ranks alike, some of them one step ahead

  function Mixed<T>(ahead: T, behind: T, r: nat, n: nat): (s: seq<T>)
    ensures |s| == n && forall i :: 0 <= i < n ==> s[i] == if i < r then ahead else behind
  {
    if n == 0 then [] else Mixed(ahead, behind, r, n - 1) + [if n - 1 < r then ahead else behind]
  }

  lemma MixedNext<T>(ahead: T, behind: T, r: nat, n: nat)
    requires r < n
    ensures Mixed(ahead, behind, r, n)[r] == behind
        && Mixed(ahead, behind, r, n)[r := ahead] == Mixed(ahead, behind, r + 1, n)
  {
  }

  lemma MixedWhole<T>(ahead: T, behind: T, next: T, n: nat)
    ensures Mixed(ahead, behind, n, n) == Mixed(next, ahead, 0, n)
  {
  }

  ghost predicate Reached(f: Full) {
    exists states: seq<Full> :: IsFullRun(states, NoBytes) && states[|states| - 1] == f
  }

  lemma ReachesOn(f: Full, h: Full)
    requires Reached(f) && FullNext(f, h, NoBytes)
    ensures Reached(h)
  {
    hide FullNext, Initial, InitialGroup;
    var states: seq<Full> :| IsFullRun(states, NoBytes) && states[|states| - 1] == f;
    var more := states + [h];
    forall i | 0 <= i < |more| - 1 ensures FullNext(more[i], more[i + 1], NoBytes) {
      if i < |states| - 1 {
        assert FullNext(states[i], states[i + 1], NoBytes);
      }
    }
    assert IsFullRun(more, NoBytes) && more[|more| - 1] == h;
  }

  lemma ActReaches(f: Full, r: nat, e: Event, h: Full)
    requires Reached(f) && Acts(f, r, e, h, NoBytes)
    ensures Reached(h)
  {
    hide Reached, Acts;
    ReachesOn(f, h);
  }

  lemma WireReaches(f: Full, step: Step<Payload>, h: Full)
    requires Reached(f) && WireStep(step) && Next(f.system, step, h.system, NoBytes) && h.locals == f.locals
    ensures Reached(h)
  {
    hide Reached, Next;
    ReachesOn(f, h);
  }

  /** The first r ranks have taken a step. */
  function Line(c: Decisions<Payload>, replies: set<Reply<Payload>>, x1: Rank<Payload>, x0: Rank<Payload>, l1: Local,
                l0: Local, r: nat, n: nat): Full {
    Full(System(c, Mixed(x1, x0, r, n), replies), Mixed(l1, l0, r, n))
  }

  lemma LineWhole(c: Decisions<Payload>, replies: set<Reply<Payload>>, x1: Rank<Payload>, x0: Rank<Payload>, l1: Local,
                  l0: Local,
                  x2: Rank<Payload>, l2: Local, n: nat)
    ensures Line(c, replies, x1, x0, l1, l0, n, n) == Line(c, replies, x2, x1, l2, l1, 0, n)
  {
    MixedWhole(x1, x0, x2, n);
    MixedWhole(l1, l0, l2, n);
  }

  predicate OnItsOwn(e: Event) {
    !e.Send? && !e.Return? && !e.GatherFails?
  }

  /** Every rank takes a step of its own. */
  lemma {:induction false} AllStep(c: Decisions<Payload>, replies: set<Reply<Payload>>, x: Rank<Payload>, l: Local,
                                   e: Event, r: nat, n: nat)
    requires r <= n && OnItsOwn(e) && Enabled(l, x.broken, e) && Reached(Line(c, replies, x, x, l, l, 0, n))
    ensures Reached(Line(c, replies, x, x, Apply(l, x.broken, e), l, r, n))
    decreases r
  {
    hide Reached, Enabled, Apply;
    if r == 0 {
      assert Line(c, replies, x, x, Apply(l, x.broken, e), l, 0, n) == Line(c, replies, x, x, l, l, 0, n);
    } else {
      AllStep(c, replies, x, l, e, r - 1, n);
      MixedNext(Apply(l, x.broken, e), l, r - 1, n);
      var f, h := Line(c, replies, x, x, Apply(l, x.broken, e), l, r - 1, n),
      Line(c, replies, x, x, Apply(l, x.broken, e), l, r, n);
      assert f.system == h.system;
      ActReaches(f, r - 1, e, h);
    }
  }

  lemma Everyone(c: Decisions<Payload>, replies: set<Reply<Payload>>, x: Rank<Payload>, l: Local, e: Event, n: nat)
    requires OnItsOwn(e) && Enabled(l, x.broken, e) && Reached(Line(c, replies, x, x, l, l, 0, n))
    ensures Reached(Line(c, replies, x, x, Apply(l, x.broken, e), Apply(l, x.broken, e), 0, n))
  {
    hide *;
    AllStep(c, replies, x, l, e, n, n);
    LineWhole(c, replies, x, x, Apply(l, x.broken, e), l, x, Apply(l, x.broken, e), n);
  }

  // ---------------------------------------------------------------- one exchange

  function Calling(x: Rank<Payload>, l: Local): Rank<Payload>
    requires l.pc.At?
  {
    x.(history := x.history + [Outgoing(l)], sending := true)
  }

  function Inside(l: Local): Local
    requires l.pc.At?
  {
    l.(pc := Waiting(l.pc.phase))
  }

  lemma {:induction false} AllSend(c: Decisions<Payload>, replies: set<Reply<Payload>>, x: Rank<Payload>, l: Local,
                                   r: nat, n: nat)
    requires r <= n && l.pc.At? && !x.broken && !x.sending && Reached(Line(c, replies, x, x, l, l, 0, n))
    ensures Reached(Line(c, replies, Calling(x, l), x, Inside(l), l, r, n))
    decreases r
  {
    hide Reached, Outgoing;
    if r == 0 {
      assert Line(c, replies, Calling(x, l), x, Inside(l), l, 0, n) == Line(c, replies, x, x, l, l, 0, n);
    } else {
      AllSend(c, replies, x, l, r - 1, n);
      MixedNext(Inside(l), l, r - 1, n);
      MixedNext(Calling(x, l), x, r - 1, n);
      var f, h := Line(c, replies, Calling(x, l), x, Inside(l), l, r - 1, n),
      Line(c, replies, Calling(x, l), x, Inside(l), l, r, n);
      SendActs(f, r - 1, h);
      ActReaches(f, r - 1, Send, h);
    }
  }

  lemma SendActs(f: Full, r: nat, h: Full)
    requires r < |f.system.ranks| == |f.locals| && f.locals[r].pc.At? && !f.system.ranks[r].broken
    requires !f.system.ranks[r].sending
    requires h.system == f.system.(ranks := f.system.ranks[r := Calling(f.system.ranks[r], f.locals[r])])
    requires h.locals == f.locals[r := Inside(f.locals[r])]
    ensures Acts(f, r, Send, h, NoBytes)
  {
    hide Outgoing;
  }

  // ---------------------------------------------------------------- the coordinator

  function Members(payload: Payload, r: nat): map<nat, Payload> {
    if r == 0 then map[] else Members(payload, r - 1)[r - 1 := payload]
  }

  lemma {:induction false} MembersAre(payload: Payload, r: nat)
    ensures forall q: nat :: q in Members(payload, r) <==> q < r
    ensures forall q: nat :: q < r ==> Members(payload, r)[q] == payload
    decreases r
  {
    if r > 0 {
      MembersAre(payload, r - 1);
    }
  }

  /** The decisions after r members have joined round k. */
  function Joining(c: Decisions<Payload>, k: nat, phase: string, payload: Payload, r: nat): Decisions<Payload> {
    if r == 0 then c else c.(rounds := c.rounds[k := Round(phase, Members(payload, r), r * ENVELOPE, None)])
  }

  /** The coordinator waits for sequence k and keeps the two rounds before. */
  ghost predicate Open(c: Decisions<Payload>, n: nat, k: nat) {
    && c.ranks == n > 0 && c.next == k && c.fatal.None?
    && forall j: nat :: j in c.rounds <==> j < k <= j + 2
  }

  /** Round k is answered, and the oldest round kept makes room. */
  function Decided(c: Decisions<Payload>, n: nat, k: nat, phase: string, payload: Payload): Decisions<Payload> {
    var full := c.rounds[k := Round(phase, Members(payload, n), n * ENVELOPE, Some(Mixed(payload, payload, 0, n)))];
    c.(rounds := if k < 2 then full else full - {k - 2}, next := k + 1)
  }

  lemma DecidedIsOpen(c: Decisions<Payload>, n: nat, k: nat, phase: string, payload: Payload)
    requires Open(c, n, k)
    ensures Open(Decided(c, n, k, phase, payload), n, k + 1)
  {
  }

  lemma DecidedRetains(c: Decisions<Payload>, n: nat, k: nat, phase: string, payload: Payload)
    requires Open(c, n, k)
    ensures Retained(c.rounds[k := Round(phase, Members(payload, n), n * ENVELOPE,
                                         Some(Mixed(payload, payload, 0, n)))],
                     Decided(c, n, k, phase, payload).rounds)
  {
    hide Members, Mixed;
    KeptOf(c.rounds[k := Round(phase, Members(payload, n), n * ENVELOPE, Some(Mixed(payload, payload, 0, n)))], k);
  }

  /** Of three rounds in a row the oldest goes. */
  lemma KeptOf(full: map<nat, Round<Payload>>, k: nat)
    requires forall j: nat :: j in full <==> j <= k <= j + 2
    ensures Retained(full, if k < 2 then full else full - {k - 2})
  {
    assert |full| == |full.Keys|;
    if k == 0 {
      assert full.Keys == {0};
    } else if k == 1 {
      assert full.Keys == {0, 1};
    } else {
      assert full.Keys == {k - 2, k - 1, k};
      TwoLeft(full, k);
    }
  }

  lemma TwoLeft(full: map<nat, Round<Payload>>, k: nat)
    requires k >= 2 && full.Keys == {k - 2, k - 1, k}
    ensures Retained(full, full - {k - 2})
  {
    var kept := full - {k - 2};
    assert kept.Keys == {k - 1, k};
    assert |full| == |full.Keys| == 3 && |kept| == |kept.Keys| == 2;
  }

  /** The r-th member joins a round that holds the ones before it. */
  lemma JoinsRound(c: Decisions<Payload>, n: nat, k: nat, phase: string, payload: Payload, r: nat)
    requires Open(c, n, k)
    ensures var d, m := Joining(c, k, phase, payload, r), Message(k, r, phase, payload);
            && RoundFor(d, m) == Round(phase, Members(payload, r), r * ENVELOPE, None) && r !in RoundFor(d, m).members
            && Joined(RoundFor(d, m), m, 0) == Round(phase, Members(payload, r + 1), (r + 1) * ENVELOPE, None)
            && d.ranks == n && d.next == k && d.fatal.None? && InBoundary(d, m)
  {
    MembersAre(payload, r);
    assert k !in c.rounds;
  }

  /** A new member whose frame fits is taken into its round. */
  lemma MemberTaken(d: Decisions<Payload>, m: Message<Payload>, e: Decisions<Payload>)
    requires ValidPhase(m.phase) && InBoundary(d, m) && RoundFor(d, m).phase == m.phase
    requires m.rank !in RoundFor(d, m).members
    requires RoundFor(d, m).bytes + ENVELOPE <= GROUP_LIMIT && Completed(d, m.sequence, Joined(RoundFor(d, m), m, 0), e)
    ensures Handled(d, m, 0, e)
  {
    hide RoundFor, Joined, Completed, InBoundary, ValidPhase;
  }

  lemma FitsStill(r: nat, n: nat)
    requires r < n && n * ENVELOPE <= GROUP_LIMIT
    ensures r * ENVELOPE + ENVELOPE <= GROUP_LIMIT
  {
  }

  lemma JoiningNext(c: Decisions<Payload>, n: nat, k: nat, phase: string, payload: Payload, r: nat)
    requires Open(c, n, k) && r + 1 < n && ValidPhase(phase) && n * ENVELOPE <= GROUP_LIMIT
    ensures Handled(Joining(c, k, phase, payload, r), Message(k, r, phase, payload), 0,
                    Joining(c, k, phase, payload, r + 1))
  {
    hide *;
    JoinsRound(c, n, k, phase, payload, r);
    FitsStill(r, n);
    RoundWaits(c, n, k, phase, payload, r);
    MemberTaken(Joining(c, k, phase, payload, r), Message(k, r, phase, payload), Joining(c, k, phase, payload, r + 1));
  }

  lemma RoundWaits(c: Decisions<Payload>, n: nat, k: nat, phase: string, payload: Payload, r: nat)
    requires Open(c, n, k) && r + 1 < n
    ensures Completed(Joining(c, k, phase, payload, r), k,
                      Round(phase, Members(payload, r + 1), (r + 1) * ENVELOPE, None),
                      Joining(c, k, phase, payload, r + 1))
  {
    MembersAre(payload, r + 1);
    hide Retained, Members, Open;
    assert r + 1 !in Members(payload, r + 1) && Joining(c, k, phase, payload, r).ranks == n by {
      assert c.ranks == n by {
        OpenSize(c, n, k);
      }
    }
    PutTwice(c, k, phase, payload, r, Round(phase, Members(payload, r + 1), (r + 1) * ENVELOPE, None));
  }

  lemma PutTwice(c: Decisions<Payload>, k: nat, phase: string, payload: Payload, r: nat, round: Round<Payload>)
    ensures var d := Joining(c, k, phase, payload, r);
            d.(rounds := d.rounds[k := round]) == c.(rounds := c.rounds[k := round])
  {
    hide Members;
  }

  lemma JoiningLast(c: Decisions<Payload>, n: nat, k: nat, phase: string, payload: Payload)
    requires Open(c, n, k) && ValidPhase(phase) && n * ENVELOPE <= GROUP_LIMIT
    ensures Handled(Joining(c, k, phase, payload, n - 1), Message(k, n - 1, phase, payload), 0,
                    Decided(c, n, k, phase, payload))
  {
    hide *;
    OpenSize(c, n, k);
    JoinsRound(c, n, k, phase, payload, n - 1);
    FitsStill(n - 1, n);
    RoundCompletes(c, n, k, phase, payload);
    MemberTaken(Joining(c, k, phase, payload, n - 1), Message(k, n - 1, phase, payload),
                Decided(c, n, k, phase, payload));
  }

  lemma RoundCompletes(c: Decisions<Payload>, n: nat, k: nat, phase: string, payload: Payload)
    requires Open(c, n, k)
    ensures n > 0
        && Completed(Joining(c, k, phase, payload, n - 1), k, Round(phase, Members(payload, n), n * ENVELOPE, None),
                               Decided(c, n, k, phase, payload))
  {
    OpenSize(c, n, k);
    MembersAre(payload, n);
    DecidedRetains(c, n, k, phase, payload);
    var members := Members(payload, n);
    assert Collect(n, members) == Mixed(payload, payload, 0, n);
    PutTwice(c, k, phase, payload, n - 1, Round(phase, members, n * ENVELOPE, Some(Mixed(payload, payload, 0, n))));
    hide Retained, Members, Mixed, Open;
  }

  /** The frame each rank has just sent. */
  lemma SentByAll(f: Full, r: nat, n: nat, k: nat, entry: Entry<Payload>)
    requires r < n && |f.system.ranks| == n && k < |f.system.ranks[r].history| && f.system.ranks[r].history[k] == entry
    ensures Sent(f.system, r, k) && MessageOf(f.system, r, k) == Message(k, r, entry.phase, entry.payload)
  {
  }

  lemma {:induction false} AllProcess(c: Decisions<Payload>, replies: set<Reply<Payload>>, x: Rank<Payload>, l: Local,
                                      k: nat, entry: Entry<Payload>, r: nat, n: nat)
    requires r < n && Open(c, n, k) && ValidPhase(entry.phase) && n * ENVELOPE <= GROUP_LIMIT
    requires k < |x.history| && x.history[k] == entry && Reached(Line(c, replies, x, x, l, l, 0, n))
    ensures Reached(Line(Joining(c, k, entry.phase, entry.payload, r), replies, x, x, l, l, 0, n))
    decreases r
  {
    hide *;
    if r == 0 {
      NoneJoined(c, k, entry.phase, entry.payload);
    } else {
      AllProcess(c, replies, x, l, k, entry, r - 1, n);
      var d, e := Joining(c, k, entry.phase, entry.payload, r - 1), Joining(c, k, entry.phase, entry.payload, r);
      JoiningNext(c, n, k, entry.phase, entry.payload, r - 1);
      ProcessReaches(d, e, replies, x, l, k, entry, r - 1, n);
    }
  }

  lemma NoneJoined(c: Decisions<Payload>, k: nat, phase: string, payload: Payload)
    ensures Joining(c, k, phase, payload, 0) == c
  {
  }

  lemma ProcessReaches(d: Decisions<Payload>, e: Decisions<Payload>, replies: set<Reply<Payload>>, x: Rank<Payload>,
                       l: Local, k: nat,
                       entry: Entry<Payload>, r: nat, n: nat)
    requires r < n && k < |x.history| && x.history[k] == entry && Reached(Line(d, replies, x, x, l, l, 0, n))
    requires Handled(d, Message(k, r, entry.phase, entry.payload), 0, e)
    ensures Reached(Line(e, replies, x, x, l, l, 0, n))
  {
    hide Reached, Handled, Mixed;
    var f, h := Line(d, replies, x, x, l, l, 0, n), Line(e, replies, x, x, l, l, 0, n);
    SentByAll(f, r, n, k, entry);
    WireReaches(f, Process(r, k), h);
  }

  /** The replies to the first r ranks. */
  function Answers(replies: set<Reply<Payload>>, k: nat, phase: string, members: seq<Payload>,
                   r: nat): set<Reply<Payload>> {
    if r == 0 then replies else Answers(replies, k, phase, members, r - 1) + {Reply(r - 1, k, phase, members)}
  }

  lemma {:induction false} AnswersHold(replies: set<Reply<Payload>>, k: nat, phase: string, members: seq<Payload>,
                                       r: nat, q: nat)
    requires q < r
    ensures Reply(q, k, phase, members) in Answers(replies, k, phase, members, r)
    decreases r
  {
    if q < r - 1 {
      AnswersHold(replies, k, phase, members, r - 1, q);
    }
  }

  lemma {:induction false} AllEmit(d: Decisions<Payload>, replies: set<Reply<Payload>>, x: Rank<Payload>, l: Local,
                                   k: nat, phase: string,
                                   members: seq<Payload>, r: nat, n: nat)
    requires r <= n && d.fatal.None? && k in d.rounds && d.rounds[k].phase == phase
    requires d.rounds[k].reply == Some(members)
    requires k < |x.history| && Reached(Line(d, replies, x, x, l, l, 0, n))
    ensures Reached(Line(d, Answers(replies, k, phase, members, r), x, x, l, l, 0, n))
    decreases r
  {
    hide Reached, Mixed;
    if r > 0 {
      AllEmit(d, replies, x, l, k, phase, members, r - 1, n);
      var f := Line(d, Answers(replies, k, phase, members, r - 1), x, x, l, l, 0, n);
      var h := Line(d, Answers(replies, k, phase, members, r), x, x, l, l, 0, n);
      SentByAll(f, r - 1, n, k, x.history[k]);
      WireReaches(f, Emit(r - 1, k), h);
    }
  }

  function Returned(x: Rank<Payload>, members: seq<Payload>): Rank<Payload> {
    x.(results := x.results + [members], sending := false)
  }

  lemma {:induction false} AllReturn(d: Decisions<Payload>, replies: set<Reply<Payload>>, x: Rank<Payload>, l: Local,
                                     l1: Local, k: nat, phase: string,
                                     members: seq<Payload>, r: nat, n: nat)
    requires r <= n && x.sending && !x.broken && |x.results| == k < |x.history| && x.history[k].phase == phase
    requires |members| == n
    requires l.pc.Waiting? && l1 == Apply(l, false, Return(members))
    requires (forall q: nat :: q < n ==> Reply(q, k, phase, members) in replies)
    requires Reached(Line(d, replies, x, x, l, l, 0, n))
    ensures Reached(Line(d, replies, Returned(x, members), x, l1, l, r, n))
    decreases r
  {
    hide Reached, Apply;
    if r == 0 {
      assert Line(d, replies, Returned(x, members), x, l1, l, 0, n) == Line(d, replies, x, x, l, l, 0, n);
    } else {
      AllReturn(d, replies, x, l, l1, k, phase, members, r - 1, n);
      MixedNext(l1, l, r - 1, n);
      MixedNext(Returned(x, members), x, r - 1, n);
      var f, h := Line(d, replies, Returned(x, members), x, l1, l, r - 1, n),
      Line(d, replies, Returned(x, members), x, l1, l, r, n);
      ReturnActs(f, r - 1, members, Reply(r - 1, k, phase, members), h);
      ActReaches(f, r - 1, Return(members), h);
    }
  }

  lemma ReturnActs(f: Full, r: nat, members: seq<Payload>, reply: Reply<Payload>, h: Full)
    requires r < |f.system.ranks| == |f.locals| && f.locals[r].pc.Waiting? && |members| == |f.system.ranks|
    requires var x := f.system.ranks[r];
             x.sending && !x.broken && |x.results| < |x.history| && x.history[|x.results|].phase == reply.phase
               && reply.sequence == |x.results|
    requires reply in f.system.replies && reply.rank == r && reply.members == members
    requires h.system == f.system.(ranks := f.system.ranks[r := Returned(f.system.ranks[r], members)])
    requires h.locals == f.locals[r := Apply(f.locals[r], false, Return(members))]
    ensures Acts(f, r, Return(members), h, NoBytes)
  {
    hide Apply;
    assert Next(f.system, Deliver(r, reply), h.system, NoBytes);
  }

  /** A rank between exchanges that has returned from k of them. */
  predicate Resting(x: Rank<Payload>, k: nat) {
    !x.sending && !x.broken && |x.history| == k && |x.results| == k
  }

  /** All ranks stand at the same point between exchanges. */
  ghost predicate Together(c: Decisions<Payload>, replies: set<Reply<Payload>>, x: Rank<Payload>, l: Local, k: nat,
                           n: nat) {
    Open(c, n, k) && Resting(x, k) && Reached(Line(c, replies, x, x, l, l, 0, n))
  }

  lemma PhaseIsValid(p: nat)
    ensures ValidPhase(PhaseName(p))
  {
  }

  lemma ExchangeFacts(x: Rank<Payload>, l: Local, k: nat, n: nat, members: seq<Payload>)
    requires l.pc.At? && Resting(x, k)
    ensures ValidPhase(Outgoing(l).phase) && Inside(l).pc.Waiting?
    ensures Apply(Inside(l), false, Return(members)) == AfterPhase(Inside(l), l.pc.phase, members, false)
    ensures var called := Calling(x, l);
            && called.sending && !called.broken && |called.results| == k < |called.history|
            && called.history[k] == Outgoing(l)
            && Resting(Returned(called, members), k + 1)
  {
    PhaseIsValid(l.pc.phase);
    hide PhaseName, Contribution, AfterPhase, ValidPhase;
  }

  lemma DecidedAnswers(c: Decisions<Payload>, n: nat, k: nat, phase: string, payload: Payload)
    ensures var d := Decided(c, n, k, phase, payload);
            k in d.rounds && d.rounds[k].phase == phase && d.rounds[k].reply == Some(Mixed(payload, payload, 0, n))
  {
    hide Members, Mixed;
  }

  /** One exchange of a phase by all ranks, which then all go on as the phase says. */
  lemma Exchange(c: Decisions<Payload>, replies: set<Reply<Payload>>, x: Rank<Payload>, l: Local, k: nat, n: nat)
    returns (d: Decisions<Payload>, more: set<Reply<Payload>>, y: Rank<Payload>)
    requires Together(c, replies, x, l, k, n) && l.pc.At? && n * ENVELOPE <= GROUP_LIMIT
    ensures Together(d, more, y,
                     AfterPhase(Inside(l), l.pc.phase, Mixed(Outgoing(l).payload, Outgoing(l).payload, 0, n), false), k
                     + 1, n)
  {
    var entry, called, inside := Outgoing(l), Calling(x, l), Inside(l);
    var members := Mixed(entry.payload, entry.payload, 0, n);
    var after := AfterPhase(inside, l.pc.phase, members, false);
    d := Decided(c, n, k, entry.phase, entry.payload);
    y := Returned(called, members);
    ExchangeFacts(x, l, k, n, members);
    DecidedAnswers(c, n, k, entry.phase, entry.payload);
    hide Reached, PhaseName, Outgoing, AfterPhase, Apply, Mixed, Line, Decided, Joining, Members, Open, Calling,
    ValidPhase;
    AllSend(c, replies, x, l, n, n);
    LineWhole(c, replies, called, x, inside, l, called, inside, n);
    OpenSize(c, n, k);
    AllProcess(c, replies, called, inside, k, entry, n - 1, n);
    JoiningLast(c, n, k, entry.phase, entry.payload);
    ProcessReaches(Joining(c, k, entry.phase, entry.payload, n - 1), d, replies, called, inside, k, entry, n - 1, n);
    DecidedIsOpen(c, n, k, entry.phase, entry.payload);
    OpenSize(d, n, k + 1);
    AllEmit(d, replies, called, inside, k, entry.phase, members, n, n);
    more := Answers(replies, k, entry.phase, members, n);
    forall q: nat | q < n ensures Reply(q, k, entry.phase, members) in more {
      AnswersHold(replies, k, entry.phase, members, n, q);
    }
    AllReturn(d, more, called, inside, after, k, entry.phase, members, n, n);
    LineWhole(d, more, y, called, after, inside, y, after, n);
  }

  lemma OpenSize(c: Decisions<Payload>, n: nat, k: nat)
    requires Open(c, n, k)
    ensures n > 0 && c.ranks == n && c.next == k && c.fatal.None?
  {
  }

  /** All ranks take the same step of their own. */
  lemma Onward(c: Decisions<Payload>, replies: set<Reply<Payload>>, x: Rank<Payload>, l: Local, e: Event, k: nat,
               n: nat)
    requires Together(c, replies, x, l, k, n) && OnItsOwn(e) && Enabled(l, false, e)
    ensures Together(c, replies, x, Apply(l, false, e), k, n)
  {
    hide Reached, Open, Enabled, Apply, Line;
    Everyone(c, replies, x, l, e, n);
  }

  // ---------------------------------------------------------------- a request from beginning to end

  /** All ranks agree, so the phase passes. */
  lemma PhasePasses(l: Local, n: nat)
    requires l.pc.At? && n > 0 && !Outgoing(l).payload.error
    requires l.pc.phase == OUTCOME ==> Outgoing(l).payload.gpuCompleted
    ensures AfterPhase(Inside(l), l.pc.phase, Mixed(Outgoing(l).payload, Outgoing(l).payload, 0, n), false)
        == Passed(Inside(l), l.pc.phase)
  {
    hide PhaseName, Passed, ExchangeFails;
  }

  lemma Pass(c: Decisions<Payload>, replies: set<Reply<Payload>>, x: Rank<Payload>, l: Local, k: nat, n: nat)
    returns (d: Decisions<Payload>, more: set<Reply<Payload>>, y: Rank<Payload>)
    requires Together(c, replies, x, l, k, n) && l.pc.At? && n * ENVELOPE <= GROUP_LIMIT && !l.error
    requires l.pc.phase == OUTCOME ==> l.gpuComplete
    ensures Together(d, more, y, Passed(Inside(l), l.pc.phase), k + 1, n)
  {
    assert !Outgoing(l).payload.error && Outgoing(l).payload.gpuCompleted == l.gpuComplete by {
      hide PhaseName;
    }
    hide *;
    TogetherSize(c, replies, x, l, k, n);
    d, more, y := Exchange(c, replies, x, l, k, n);
    PhasePasses(l, n);
  }

  lemma TogetherSize(c: Decisions<Payload>, replies: set<Reply<Payload>>, x: Rank<Payload>, l: Local, k: nat, n: nat)
    requires Together(c, replies, x, l, k, n)
    ensures n > 0
  {
    hide Reached;
  }

  lemma Beginning(n: nat)
    requires n > 0
    ensures Together(Decisions(n, map[], 0, None), {}, Rank([], [], false, false), FreshLocal(), 0, n)
  {
    var f := Line(Decisions(n, map[], 0, None), {}, Rank([], [], false, false), Rank([], [], false, false),
                  FreshLocal(), FreshLocal(), 0, n);
    assert Initial(f.system) && InitialGroup(Callers(f));
    assert IsFullRun([f], NoBytes);
  }

  /** The workload is prepared, and the request is submitted and admitted everywhere. */
  function Prepared(): Local {
    FreshLocal().(ready := true, comm := true, commInitialized := true)
  }

  function Admitted(id: Identity): Local {
    Prepared().(pc := At(PREPARE), busy := true, id := id, guard := true, buffersRetained := true)
  }

  lemma Admission(n: nat, version: nat, contract: nat)
    requires n > 0
    ensures Together(Decisions(n, map[], 0, None), {}, Rank([], [], false, false),
                     Admitted(Identity(1, version, contract)), 0, n)
  {
    hide *;
    var c: Decisions<Payload> := Decisions(n, map[], 0, None);
    var x: Rank<Payload> := Rank([], [], false, false);
    Beginning(n);
    Preparing();
    var busy := Apply(FreshLocal(), false, OtherBegin("PREPARE"));
    Onward(c, {}, x, FreshLocal(), OtherBegin("PREPARE"), 0, n);
    Onward(c, {}, x, busy, OtherDone(true, true, true), 0, n);
    Submitting(version, contract);
    var checking := Apply(Prepared(), false, Submit(version, contract));
    Onward(c, {}, x, Prepared(), Submit(version, contract), 0, n);
    Onward(c, {}, x, checking, RetainOk, 0, n);
  }

  lemma Preparing()
    ensures OnItsOwn(OtherBegin("PREPARE")) && OnItsOwn(OtherDone(true, true, true))
    ensures Enabled(FreshLocal(), false, OtherBegin("PREPARE"))
    ensures var busy := Apply(FreshLocal(), false, OtherBegin("PREPARE"));
            Enabled(busy, false, OtherDone(true, true, true))
              && Apply(busy, false, OtherDone(true, true, true)) == Prepared()
  {
    OtherIsNoPhase();
    hide PhaseName;
  }

  lemma Submitting(version: nat, contract: nat)
    ensures OnItsOwn(Submit(version, contract)) && OnItsOwn(RetainOk)
        && Enabled(Prepared(), false, Submit(version, contract))
    ensures var checking := Apply(Prepared(), false, Submit(version, contract));
            Enabled(checking, false, RetainOk)
              && Apply(checking, false, RetainOk) == Admitted(Identity(1, version, contract))
  {
    hide PhaseName;
  }

  lemma OtherIsNoPhase()
    ensures forall p: nat :: p <= RELEASE ==> "PREPARE" != PhaseName(p)
  {
    forall p: nat | p <= RELEASE ensures |PhaseName(p)| != |"PREPARE"| {
    }
  }

  /** The phases before the launch lead from one to the next. */
  lemma EarlyPhase(l: Local)
    requires l.pc.At? && l.pc.phase < STARTED && !l.error
    ensures var m := Passed(Inside(l), l.pc.phase); m.pc == At(l.pc.phase + 1) && !m.error && m.id == l.id
  {
    var w := Inside(l);
    assert w.error == l.error && w.id == l.id;
    if l.pc.phase == PREPARE {
      PreparePasses(w);
    } else if l.pc.phase == READY {
      ReadyPasses(w);
    } else if l.pc.phase == ACK {
      AckPasses(w);
    } else {
      StartPasses(w);
    }
    hide Passed, Inside;
  }

  lemma PreparePasses(l: Local)
    ensures var m := Passed(l, PREPARE); m.pc == At(READY) && m.error == l.error && m.id == l.id
  {
  }

  lemma ReadyPasses(l: Local)
    ensures var m := Passed(l, READY); m.pc == At(ACK) && m.error == l.error && m.id == l.id
  {
  }

  lemma AckPasses(l: Local)
    ensures var m := Passed(l, ACK); m.pc == At(START) && !m.error && m.id == l.id
  {
  }

  lemma StartPasses(l: Local)
    ensures var m := Passed(l, START); m.pc == At(STARTED) && m.error == l.error && m.id == l.id
  {
  }

  /** From the launch to the valid output, with each rank's own steps in between. */
  lemma Launches(l: Local)
    requires l.pc == At(STARTED) && !l.error
    ensures var m := Passed(Inside(l), STARTED);
            && Enabled(m, false, GpuDone)
            && var done := Apply(m, false, GpuDone);
               done.pc == At(OUTCOME) && !done.error && done.gpuComplete && done.id == l.id
  {
    hide PhaseName;
  }

  lemma Records(l: Local)
    requires l.pc == At(OUTCOME) && !l.error
    ensures var m := Passed(Inside(l), OUTCOME);
            && Enabled(m, false, EvidenceOk)
            && var done := Apply(m, false, EvidenceOk); done.pc == At(EVIDENCE) && !done.error && done.id == l.id
  {
    hide PhaseName;
  }

  lemma Frees(l: Local)
    requires l.pc == At(EVIDENCE) && !l.error
    ensures var m := Passed(Inside(l), EVIDENCE);
            && Enabled(m, false, ReleaseOk)
            && var done := Apply(m, false, ReleaseOk); done.pc == At(RELEASE) && !done.error && done.id == l.id
  {
    hide PhaseName;
  }

  lemma Validates(l: Local)
    requires l.pc == At(RELEASE)
    ensures l.id in Passed(Inside(l), RELEASE).valid
  {
  }

  /** The four exchanges before the launch. */
  lemma {:induction false} UpToLaunch(c: Decisions<Payload>, replies: set<Reply<Payload>>, x: Rank<Payload>, l: Local,
                                      k: nat, n: nat)
    returns (d: Decisions<Payload>, more: set<Reply<Payload>>, y: Rank<Payload>, m: Local, j: nat)
    requires Together(c, replies, x, l, k, n) && l.pc.At? && l.pc.phase <= STARTED && !l.error
    requires n * ENVELOPE <= GROUP_LIMIT
    ensures Together(d, more, y, m, j, n) && m.pc == At(STARTED) && !m.error && m.id == l.id
    decreases STARTED - l.pc.phase
  {
    hide Together, Passed, Inside;
    if l.pc.phase == STARTED {
      d, more, y, m, j := c, replies, x, l, k;
    } else {
      var d1, more1, y1 := Pass(c, replies, x, l, k, n);
      EarlyPhase(l);
      d, more, y, m, j := UpToLaunch(d1, more1, y1, Passed(Inside(l), l.pc.phase), k + 1, n);
    }
  }

  lemma Witness(c: Decisions<Payload>, replies: set<Reply<Payload>>, x: Rank<Payload>, l: Local, k: nat, n: nat)
    returns (states: seq<Full>, last: Full)
    requires Together(c, replies, x, l, k, n)
    ensures IsFullRun(states, NoBytes) && states != [] && states[|states| - 1] == last && |last.locals| == n
    ensures forall r :: 0 <= r < n ==> last.locals[r] == l
  {
    last := Line(c, replies, x, x, l, l, 0, n);
    states := RunTo(last);
  }

  lemma RunTo(f: Full) returns (states: seq<Full>)
    requires Reached(f)
    ensures IsFullRun(states, NoBytes) && states != [] && states[|states| - 1] == f
  {
    states :| IsFullRun(states, NoBytes) && states[|states| - 1] == f;
  }

  /** For every group whose frames fit there is a run of contexts, coordinator and wire in which the request ends with a
      valid
      output on every rank. */
  lemma SuccessIsReached(n: nat, version: nat, contract: nat) returns (states: seq<Full>, last: Full)
    requires n > 0 && n * ENVELOPE <= GROUP_LIMIT
    ensures IsFullRun(states, NoBytes) && states != [] && states[|states| - 1] == last && |last.locals| == n
    ensures forall r :: 0 <= r < n ==> Identity(1, version, contract) in last.locals[r].valid
  {
    hide Together, Passed, Inside, Apply, Enabled, Admitted, IsFullRun;
    var c: Decisions<Payload> := Decisions(n, map[], 0, None);
    var x: Rank<Payload> := Rank([], [], false, false);
    var l := Admitted(Identity(1, version, contract));
    Admission(n, version, contract);
    AdmittedIs(Identity(1, version, contract));
    var c1, r1, x1, l1, k := UpToLaunch(c, {}, x, l, 0, n);
    var c2, r2, x2, l2 := Completes(c1, r1, x1, l1, k, n);
    var c3, r3, x3, l3 := Publishes(c2, r2, x2, l2, k + 1, n);
    Validates(l3);
    states, last := Witness(c3, r3, x3, Passed(Inside(l3), RELEASE), k + 4, n);
  }

  /** Launched everywhere, the request runs to completion everywhere. */
  lemma Completes(c: Decisions<Payload>, replies: set<Reply<Payload>>, x: Rank<Payload>, l: Local, k: nat, n: nat)
    returns (d: Decisions<Payload>, more: set<Reply<Payload>>, y: Rank<Payload>, m: Local)
    requires Together(c, replies, x, l, k, n) && l.pc == At(STARTED) && !l.error && n * ENVELOPE <= GROUP_LIMIT
    ensures Together(d, more, y, m, k + 1, n) && m.pc == At(OUTCOME) && !m.error && m.gpuComplete && m.id == l.id
  {
    hide Together, Passed, Inside, Apply, Enabled;
    Launches(l);
    d, more, y := Pass(c, replies, x, l, k, n);
    Onward(d, more, y, Passed(Inside(l), STARTED), GpuDone, k + 1, n);
    m := Apply(Passed(Inside(l), STARTED), false, GpuDone);
  }

  /** Completed everywhere, its evidence is published and its guard released everywhere. */
  lemma Publishes(c: Decisions<Payload>, replies: set<Reply<Payload>>, x: Rank<Payload>, l: Local, k: nat, n: nat)
    returns (d: Decisions<Payload>, more: set<Reply<Payload>>, y: Rank<Payload>, m: Local)
    requires Together(c, replies, x, l, k, n) && l.pc == At(OUTCOME) && !l.error && l.gpuComplete
    requires n * ENVELOPE <= GROUP_LIMIT
    ensures m.pc == At(RELEASE) && !m.error && m.id == l.id
        && Together(d, more, y, Passed(Inside(m), RELEASE), k + 3, n)
  {
    hide Together, Passed, Inside, Apply, Enabled;
    Records(l);
    var c1, r1, x1 := Pass(c, replies, x, l, k, n);
    Onward(c1, r1, x1, Passed(Inside(l), OUTCOME), EvidenceOk, k + 1, n);
    var l1 := Apply(Passed(Inside(l), OUTCOME), false, EvidenceOk);
    var c2, r2, x2 := Pass(c1, r1, x1, l1, k + 1, n);
    Frees(l1);
    Onward(c2, r2, x2, Passed(Inside(l1), EVIDENCE), ReleaseOk, k + 2, n);
    m := Apply(Passed(Inside(l1), EVIDENCE), false, ReleaseOk);
    d, more, y := Pass(c2, r2, x2, m, k + 2, n);
  }

  lemma AdmittedIs(id: Identity)
    ensures Admitted(id).pc == At(PREPARE) && !Admitted(id).error && Admitted(id).id == id
  {
  }
}
