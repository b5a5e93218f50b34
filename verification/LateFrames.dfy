/** A delayed frame and the rounds that are kept (runtime/execution/control_transport.cc, Coordinator::request): a run
    of one honest
    rank in which a duplicate of an answered frame fails the group. */
module LateFrames {
  import opened Basics
  import opened ControlTransport
  import opened Gathering

  const PHASE := "x"

  function Size(payload: nat): nat {
    payload
  }

  /** A round the only rank has completed with payload 0. */
  function Answered(): Round<nat> {
    Round(PHASE, map[0 := 0], ENVELOPE, Some([0]))
  }

  function Sends(n: nat): (s: seq<Entry<nat>>)
    ensures |s| == n && forall i :: 0 <= i < n ==> s[i] == Entry(PHASE, 0)
  {
    if n == 0 then [] else Sends(n - 1) + [Entry(PHASE, 0)]
  }

  function Gathers(n: nat): (s: seq<seq<nat>>)
    ensures |s| == n && forall i :: 0 <= i < n ==> s[i] == [0]
  {
    if n == 0 then [] else Gathers(n - 1) + [[0]]
  }

  function Replies(n: nat): set<Reply<nat>> {
    if n == 0 then {} else Replies(n - 1) + {Reply(0, n - 1, PHASE, [0])}
  }

  /** The decisions kept after n answered rounds. */
  function Kept(n: nat): map<nat, Round<nat>> {
    if n == 0 then map[] else if n == 1 then map[0 := Answered()] else map[n - 2 := Answered(), n - 1 := Answered()]
  }

  /** One rank that has gathered n times. */
  function After(n: nat): System<nat> {
    System(Decisions(1, Kept(n), n, None), [Rank(Sends(n), Gathers(n), false, false)], Replies(n))
  }

  /** The only rank sends the same valid frame each time. */
  ghost predicate Plain(s: System<nat>) {
    |s.ranks| == 1 && forall k :: 0 <= k < |s.ranks[0].history| ==> s.ranks[0].history[k] == Entry(PHASE, 0)
  }

  lemma PlainIsOrderly(s: System<nat>)
    requires Plain(s)
    ensures Orderly(s, Size)
  {
    forall k: nat ensures SizeOf(SentAt(s, k), |s.ranks|, Size) <= GROUP_LIMIT {
      assert SizeOf(SentAt(s, k), 0, Size) == 0;
      if 0 in SentAt(s, k) {
        assert Sent(s, 0, k) && SentAt(s, k)[0] == 0;
      }
    }
  }

  /** The next round replaces the oldest of three. */
  lemma KeptNext(n: nat)
    ensures Retained(Kept(n)[n := Answered()], Kept(n + 1))
  {
    var before, after := Kept(n)[n := Answered()], Kept(n + 1);
    assert |before| == |before.Keys| && |after| == |after.Keys|;
    if n == 0 {
      assert before.Keys == {0} && before == after;
    } else if n == 1 {
      assert before.Keys == {0, 1} && before == after;
    } else {
      assert before.Keys == {n - 2, n - 1, n} && after.Keys == {n - 1, n};
    }
  }

  /** The coordinator completes the round of the rank's next frame. */
  lemma Completes(n: nat)
    ensures Handled(After(n).coordinator, Message(n, 0, PHASE, 0), 0, After(n + 1).coordinator)
  {
    var d, m := After(n).coordinator, Message(n, 0, PHASE, 0);
    KeptNext(n);
    hide Retained, Kept;
    KeptBefore(n);
    var joined := Joined(RoundFor(d, m), m, 0);
    assert joined == Round(PHASE, map[0 := 0], ENVELOPE, None);
    assert Collect(1, joined.members) == [0];
    assert Completed(d, n, joined, After(n + 1).coordinator);
  }

  lemma KeptBefore(n: nat)
    ensures n !in Kept(n)
  {
  }

  /** One more gather, in four steps. */
  lemma OneMore(n: nat) returns (sent: System<nat>, answered: System<nat>, replied: System<nat>)
    ensures Next(After(n), Call(0, Entry(PHASE, 0)), sent, Size)
    ensures Next(sent, Process(0, n), answered, Size)
    ensures Next(answered, Emit(0, n), replied, Size)
    ensures Next(replied, Deliver(0, Reply(0, n, PHASE, [0])), After(n + 1), Size)
    ensures Plain(sent) && Plain(answered) && Plain(replied) && Plain(After(n + 1))
  {
    Completes(n);
    hide Handled;
    var a, b := After(n), After(n + 1);
    sent := WithRank(a, 0, a.ranks[0].(history := a.ranks[0].history + [Entry(PHASE, 0)], sending := true));
    answered := sent.(coordinator := b.coordinator);
    replied := answered.(replies := answered.replies + {Reply(0, n, PHASE, [0])});
    assert MessageOf(sent, 0, n) == Message(n, 0, PHASE, 0);
    assert b.coordinator.rounds[n] == Answered();
    assert b.ranks[0].history == sent.ranks[0].history;
    assert b == WithRank(replied, 0, replied.ranks[0].(results := replied.ranks[0].results + [[0]], sending := false));
  }

  ghost predicate AllPlain(states: seq<System<nat>>) {
    forall i :: 0 <= i < |states| ==> Plain(states[i])
  }

  ghost predicate NoNoise(steps: seq<Step<nat>>) {
    forall i :: 0 <= i < |steps| ==> !steps[i].Noise?
  }

  /** A run of the one rank without foreign frames, up to this state. */
  ghost predicate RunsTo(states: seq<System<nat>>, steps: seq<Step<nat>>, t: System<nat>) {
    IsRun(states, steps, Size) && AllPlain(states) && NoNoise(steps) && states[|steps|] == t
  }

  lemma RunsOn(states: seq<System<nat>>, steps: seq<Step<nat>>, s: System<nat>, step: Step<nat>, t: System<nat>)
    requires RunsTo(states, steps, s) && Next(s, step, t, Size) && Plain(t) && !step.Noise?
    ensures RunsTo(states + [t], steps + [step], t)
  {
    hide Initial, Next, Plain;
    var all, taken := states + [t], steps + [step];
    forall i | 0 <= i < |taken| ensures Next(all[i], taken[i], all[i + 1], Size) {
      if i < |steps| {
        assert Next(states[i], steps[i], states[i + 1], Size);
      }
    }
  }

  lemma Starts()
    ensures RunsTo([After(0)], [], After(0))
  {
  }

  /** Any number of gathers of one rank is a run. */
  lemma {:induction false} Gatherings(n: nat) returns (states: seq<System<nat>>, steps: seq<Step<nat>>)
    ensures RunsTo(states, steps, After(n))
  {
    hide *;
    if n == 0 {
      Starts();
      states, steps := [After(0)], [];
    } else {
      states, steps := Gatherings(n - 1);
      var sent, answered, replied := OneMore(n - 1);
      RunsOn(states, steps, After(n - 1), Call(0, Entry(PHASE, 0)), sent);
      states, steps := states + [sent], steps + [Call(0, Entry(PHASE, 0))];
      RunsOn(states, steps, sent, Process(0, n - 1), answered);
      states, steps := states + [answered], steps + [Process(0, n - 1)];
      RunsOn(states, steps, answered, Emit(0, n - 1), replied);
      states, steps := states + [replied], steps + [Emit(0, n - 1)];
      RunsOn(states, steps, replied, Deliver(0, Reply(0, n - 1, PHASE, [0])), After(n));
      states, steps := states + [After(n)], steps + [Deliver(0, Reply(0, n - 1, PHASE, [0]))];
    }
  }

  lemma Refused(n: nat, k: nat) returns (t: System<nat>)
    requires k + 3 <= n
    ensures Next(After(n), Process(0, k), t, Size) && Plain(t) && t.coordinator.fatal == Some(Outside)
  {
    var a := After(n);
    t := a.(coordinator := Fail(a.coordinator, Outside));
    assert MessageOf(a, 0, k) == Message(k, 0, PHASE, 0);
    assert !InBoundary(a.coordinator, MessageOf(a, 0, k));
  }

  lemma NotYetFailed(n: nat)
    ensures After(n).coordinator.fatal.None?
  {
  }

  /** After three more rounds a delayed duplicate of an honest rank's own frame, answered long ago, fails the group. */
  lemma LateFrameFailsGroup(n: nat, k: nat) returns (states: seq<System<nat>>, steps: seq<Step<nat>>)
    requires k + 3 <= n
    ensures IsRun(states, steps, Size) && NoNoise(steps) && forall i :: 0 <= i < |states| ==> Orderly(states[i], Size)
    ensures |steps| > 0 && steps[|steps| - 1] == Process(0, k) && states[|steps| - 1] == After(n)
    ensures states[|steps| - 1].coordinator.fatal.None? && states[|steps|].coordinator.fatal == Some(Outside)
  {
    states, steps := Gatherings(n);
    NotYetFailed(n);
    var t := Refused(n, k);
    RunsOn(states, steps, After(n), Process(0, k), t);
    hide After, Plain, Next, Initial, Orderly;
    states, steps := states + [t], steps + [Process(0, k)];
    forall i | 0 <= i < |states| ensures Orderly(states[i], Size) {
      PlainIsOrderly(states[i]);
    }
  }
}
