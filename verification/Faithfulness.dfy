/** What it means for a replay to be faithful, without the loop that produces it, and who drains when in one
    (vericcl/performance/simulation.py, predict with exact=True). */
module Faithfulness {
  import opened CostModel
  import opened Rates
  import opened RateChoice
  import opened Replaying

  /** Every available operation started, drained and ended by the rules of the model. */
  ghost predicate Faithful(p: Plan, s: Replay) {
    && s.starts.Keys == p.available && s.ends.Keys == p.available && p.available <= p.ops.Keys
    && (forall k :: k in p.available ==> IsStart(p, s.ends, k, s.starts[k]))
    && (forall k :: k in p.available && !IsData(p, k) ==> s.ends[k] == s.starts[k] && Idle(s.rounds, k))
    && (forall k :: k in p.available && IsData(p, k) ==> Served(p, s, k))
    && Timeline(p, s)
    && (forall k :: k in p.available ==> k in s.waves && IsWave(p, s.starts, s.waves, k))
    && (forall k :: k in p.available ==> 0.0 <= s.starts[k])
    && AlwaysDecided(p, s)
  }

  /** At every instant, and after every launching pass of it, every component present has its profile decided. */
  ghost predicate AlwaysDecided(p: Plan, s: Replay) {
    forall time: real, w: nat :: 0.0 <= time ==> Decided(p.ops, p.model, PresentAt(p, s, time, w))
  }

  /** One startup chosen for the launch-time mode, then gapless rounds that drain exactly the payload. */
  ghost predicate Served(p: Plan, s: Replay, k: nat)
    requires k in p.ops && k in s.starts && k in s.ends
  {
    && Charged(p, s, k) && k in s.waves && DataOf(p, s.modes[k]) == PresentAt(p, s, s.starts[k], s.waves[k])
    && k in s.begun && s.begun[k] == s.starts[k] + s.alphas[k]
    && Tiles(s.rounds, k, s.begun[k], s.ends[k])
    && Drained(s.rounds, k) == p.ops[k].payload as real
  }

  lemma PresentWhole(p: Plan, s: Replay, time: real, w: nat)
    ensures PresentIn(p, s, {}, time, w) == PresentAt(p, s, time, w)
  {
    assert DataOf(p, {}) == {};
  }

  lemma FinalIsFaithful(p: Plan, s: Replay)
    requires ValidPlan(p) && Inv(p, s, {}) && s.pending == {} && s.startup.Keys == {} && s.active == {}
    ensures Faithful(p, s)
  {
    hide *;
    InvParts(p, s, {});
    AvailableIsKnown(p);
    FinalKeys(p, s);
    forall k | k in p.available && IsData(p, k) ensures Served(p, s, k) {
      FinalIsServed(p, s, k);
    }
    forall k | k in p.available && !IsData(p, k) ensures s.ends[k] == s.starts[k] && Idle(s.rounds, k) {
      FinalIsInstant(p, s, k);
    }
    FinalWaves(p, s);
    FinalDecided(p, s);
    StartedParts(p, s);
    FaithfulWhole(p, s);
  }

  lemma AvailableIsKnown(p: Plan)
    requires ValidPlan(p)
    ensures p.available <= p.ops.Keys
  {
  }

  lemma FinalKeys(p: Plan, s: Replay)
    requires Phases(p, s) && s.pending == {} && s.startup.Keys == {} && s.active == {}
    ensures s.ends.Keys == p.available && s.starts.Keys == p.available
  {
  }

  lemma FinalIsInstant(p: Plan, s: Replay, k: nat)
    requires Books(p, s) && k in s.ends && k in s.starts && !IsData(p, k) && k in p.available
    ensures s.ends[k] == s.starts[k] && Idle(s.rounds, k)
  {
    hide Idle, Tiles, Drained;
    assert Accounted(p, s, k);
  }

  lemma FinalWaves(p: Plan, s: Replay)
    requires Waved(p, s, {}) && s.starts.Keys == p.available
    ensures forall k :: k in p.available ==> k in s.waves && IsWave(p, s.starts, s.waves, k)
  {
    hide IsWave, DueFollows, BatchFollows, TakesTime;
  }

  lemma FinalDecided(p: Plan, s: Replay)
    requires Clear(p, s, {}) && Phases(p, s) && Waved(p, s, {}) && Clock(s) && p.available <= p.ops.Keys
    requires s.startup.Keys == {} && s.active == {}
    ensures AlwaysDecided(p, s)
  {
    hide Waved, Phases, Clock, Decided;
    forall time: real, w: nat | 0.0 <= time ensures Decided(p.ops, p.model, PresentAt(p, s, time, w)) {
      PresentWhole(p, s, time, w);
      if Passed(s, time, w) {
        assert Decided(p.ops, p.model, PresentIn(p, s, {}, time, w));
      } else {
        PresentBetween(p, s, time, w);
        NothingIsDecided(p);
      }
    }
  }

  lemma NothingIsDecided(p: Plan)
    ensures DataOf(p, {} + {}) == {} && Decided(p.ops, p.model, {})
  {
  }

  lemma StartedParts(p: Plan, s: Replay)
    requires Started(p, s) && Clock(s)
    ensures forall k :: k in s.starts ==> k in p.ops && IsStart(p, s.ends, k, s.starts[k]) && 0.0 <= s.starts[k]
  {
    hide IsStart;
  }

  lemma FaithfulWhole(p: Plan, s: Replay)
    requires s.starts.Keys == p.available && s.ends.Keys == p.available && p.available <= p.ops.Keys
    requires forall k :: k in p.available ==> IsStart(p, s.ends, k, s.starts[k])
    requires forall k :: k in p.available && !IsData(p, k) ==> s.ends[k] == s.starts[k] && Idle(s.rounds, k)
    requires forall k :: k in p.available && IsData(p, k) ==> Served(p, s, k)
    requires Timeline(p, s) && AlwaysDecided(p, s)
    requires forall k :: k in p.available ==> k in s.waves && IsWave(p, s.starts, s.waves, k)
    requires forall k :: k in p.available ==> 0.0 <= s.starts[k]
    ensures Faithful(p, s)
  {
    hide IsStart, Idle, Served, Timeline, AlwaysDecided, IsWave;
  }

  lemma FinalIsServed(p: Plan, s: Replay, k: nat)
    requires Books(p, s) && Modes(p, s, {}) && Waved(p, s, {}) && k in s.ends && k in s.starts && IsData(p, k)
    requires k in p.available
    ensures Served(p, s, k)
  {
    hide IsLaunchAlpha, Tiles, Drained, Idle, IsWave, PresentAt, Follows;
    assert Accounted(p, s, k);
    assert Charged(p, s, k);
    PresentWhole(p, s, s.starts[k], s.waves[k]);
  }

  // ---------------------------------------------------------------- who drains when

  ghost predicate Chronological(rounds: seq<Round>) {
    && (forall i :: 0 <= i < |rounds| ==> rounds[i].from < rounds[i].until)
    && (forall i, j :: 0 <= i < j < |rounds| ==> rounds[i].until <= rounds[j].from)
  }

  ghost predicate EndsRound(rounds: seq<Round>, k: nat, t: real) {
    exists i :: 0 <= i < |rounds| && k in rounds[i].rates && rounds[i].until == t
  }

  ghost predicate Inside(r: Round, k: nat, a: real, b: real) {
    if k in r.rates then a <= r.from && r.until <= b else a < b ==> r.until <= a || b <= r.from
  }

  /** Rounds that tile [a, b] are the rounds inside [a, b], and no others. */
  lemma {:induction false} TilesAreExact(rounds: seq<Round>, k: nat, a: real, b: real)
    requires Chronological(rounds) && Tiles(rounds, k, a, b)
    ensures a <= b && (a < b ==> EndsRound(rounds, k, b))
    ensures forall i :: 0 <= i < |rounds| ==> Inside(rounds[i], k, a, b)
    decreases |rounds|
  {
    if rounds != [] {
      var n := |rounds| - 1;
      var last, init := rounds[n], rounds[..n];
      if k in last.rates {
        TilesAreExact(init, k, a, last.from);
        assert EndsRound(rounds, k, b);
        forall i | 0 <= i < |rounds| ensures Inside(rounds[i], k, a, b) {
          assert i < n ==> rounds[i] == init[i] && Inside(init[i], k, a, last.from);
        }
      } else {
        TilesAreExact(init, k, a, b);
        if a < b {
          var j :| 0 <= j < |init| && k in init[j].rates && init[j].until == b;
          assert rounds[j] == init[j];
        }
        forall i | 0 <= i < |rounds| ensures Inside(rounds[i], k, a, b) {
          assert i < n ==> rounds[i] == init[i] && Inside(init[i], k, a, b);
        }
      }
    }
  }

  lemma {:induction false} TilesCover(rounds: seq<Round>, k: nat, a: real, b: real, t: real)
    requires Tiles(rounds, k, a, b) && a <= t < b
    ensures exists i :: 0 <= i < |rounds| && k in rounds[i].rates && rounds[i].from <= t < rounds[i].until
    decreases |rounds|
  {
    var n := |rounds| - 1;
    var last, init := rounds[n], rounds[..n];
    if k in last.rates && last.from <= t {
    } else {
      TilesCover(init, k, a, if k in last.rates then last.from else b, t);
      var i :| 0 <= i < |init| && k in init[i].rates && init[i].from <= t < init[i].until;
      assert rounds[i] == init[i];
    }
  }

  lemma FaithfulTimeline(p: Plan, s: Replay)
    requires Faithful(p, s)
    ensures Chronological(s.rounds)
  {
    assert forall i :: 0 <= i < |s.rounds| ==> RoundValid(p, s.rounds[i]);
  }

  lemma DrainsForAWhile(p: Plan, s: Replay, k: nat)
    requires ValidPlan(p) && Faithful(p, s) && k in p.available && IsData(p, k)
    ensures Served(p, s, k) && s.begun[k] < s.ends[k]
  {
    FaithfulTimeline(p, s);
    TilesAreExact(s.rounds, k, s.begun[k], s.ends[k]);
    assert p.ops[k].Valid();
    if s.begun[k] == s.ends[k] {
      forall i | 0 <= i < |s.rounds| ensures k !in s.rounds[i].rates {
        assert Inside(s.rounds[i], k, s.begun[k], s.ends[k]);
      }
      IdleDrainsNothing(s.rounds, k, s.begun[k]);
    }
  }

  /** A round rates exactly the operations in flight throughout it. */
  lemma RoundHoldsInFlight(p: Plan, s: Replay, i: nat, k: nat)
    requires ValidPlan(p) && Faithful(p, s) && i < |s.rounds| && k in p.available
    ensures k in s.rounds[i].rates
            <==> IsData(p, k) && s.begun[k] <= s.rounds[i].from && s.rounds[i].until <= s.ends[k]
  {
    FaithfulTimeline(p, s);
    if IsData(p, k) {
      DrainsForAWhile(p, s, k);
      TilesAreExact(s.rounds, k, s.begun[k], s.ends[k]);
      assert Inside(s.rounds[i], k, s.begun[k], s.ends[k]);
    }
  }

  lemma ServedParts(p: Plan, s: Replay, k: nat)
    requires Faithful(p, s) && k in p.available && IsData(p, k)
    ensures k in s.begun && k in s.alphas && k in s.modes && k in p.costs && k in s.waves && k in s.starts
        && k in s.ends
    ensures s.begun[k] == s.starts[k] + s.alphas[k] && IsLaunchAlpha(p, s.modes[k], k, s.alphas[k])
    ensures Tiles(s.rounds, k, s.begun[k], s.ends[k]) && Drained(s.rounds, k) == p.ops[k].payload as real
    ensures DataOf(p, s.modes[k]) == PresentAt(p, s, s.starts[k], s.waves[k])
  {
    hide IsLaunchAlpha, Tiles, Drained, PresentAt, Timeline, AlwaysDecided, DataOf, IsWave, IsStart, Idle;
    assert Served(p, s, k);
  }
}
