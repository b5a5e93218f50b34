/** A replay in progress agrees with every faithful replay of its plan, so there is at most one
    (vericcl/performance/simulation.py, predict with exact=True). */
module Determinism {
  import opened Basics
  import opened CostModel
  import opened Rates
  import opened RateChoice
  import opened Replaying
  import opened Faithfulness
  import C = Components
  import G = Graphs

  // ---------------------------------------------------------------- bytes drained by a time

  function Overlap(r: Round, t: real): real {
    if t <= r.from then 0.0 else if t >= r.until then r.until - r.from else t - r.from
  }

  /** Bytes of k drained in a round, and those drained in it by t. */
  ghost function PartOf(r: Round, k: nat): real {
    if k in r.rates then r.rates[k] * (r.until - r.from) else 0.0
  }

  ghost function PartBy(r: Round, k: nat, t: real): real {
    if k in r.rates then r.rates[k] * Overlap(r, t) else 0.0
  }

  ghost function DrainedUpTo(rounds: seq<Round>, k: nat, t: real): real {
    if rounds == [] then 0.0
    else
      var last := rounds[|rounds| - 1];
      DrainedUpTo(rounds[..|rounds| - 1], k, t) + PartBy(last, k, t)
  }

  lemma {:induction false} UpToEnds(rounds: seq<Round>, k: nat, a: real, b: real, t: real)
    requires Chronological(rounds) && Tiles(rounds, k, a, b)
    ensures a <= b
    ensures t >= b ==> DrainedUpTo(rounds, k, t) == Drained(rounds, k)
    ensures t <= a ==> DrainedUpTo(rounds, k, t) == 0.0
    decreases |rounds|
  {
    if rounds != [] {
      var n := |rounds| - 1;
      UpToEnds(rounds[..n], k, a, if k in rounds[n].rates then rounds[n].from else b, t);
    }
  }

  ghost predicate Drains(rounds: seq<Round>, k: nat) {
    forall i :: 0 <= i < |rounds| && k in rounds[i].rates ==> rounds[i].rates[k] > 0.0
  }

  /** The last round and the ones before it. */
  lemma LastRound(rounds: seq<Round>, k: nat, a: real, b: real)
    requires rounds != [] && Chronological(rounds) && Tiles(rounds, k, a, b)
    ensures var n := |rounds| - 1; var last, init := rounds[n], rounds[..n];
            Chronological(init) && last.from < last.until
              && (Drains(rounds, k) ==> Drains(init, k) && (k in last.rates ==> last.rates[k] > 0.0))
            && (if k in last.rates then last.until == b && Tiles(init, k, a, last.from) else Tiles(init, k, a, b))
    ensures var n := |rounds| - 1; var last, init := rounds[n], rounds[..n];
            Drained(rounds, k) == Drained(init, k) + PartOf(last, k)
  {
    LastWhole(rounds, k);
    hide DrainedUpTo, Drained, PartOf;
  }

  lemma LastWhole(rounds: seq<Round>, k: nat)
    requires rounds != []
    ensures var n := |rounds| - 1; Drained(rounds, k) == Drained(rounds[..n], k) + PartOf(rounds[n], k)
  {
  }

  lemma LastUpTo(rounds: seq<Round>, k: nat, t: real)
    requires rounds != []
    ensures var n := |rounds| - 1; var last, init := rounds[n], rounds[..n];
            DrainedUpTo(rounds, k, t) == DrainedUpTo(init, k, t) + PartBy(last, k, t)
  {
  }

  lemma Positive(rate: real, d: real, e: real)
    requires rate > 0.0 && d < e
    ensures rate * d < rate * e
  {
    assert rate * (e - d) > 0.0;
  }

  lemma NothingDrained(k: nat, a: real, b: real, t: real)
    ensures Drained([], k) == 0.0 && DrainedUpTo([], k, t) == 0.0 && (Tiles([], k, a, b) ==> a == b)
  {
  }

  /** A round drains no more by t than in all, and less before its end. */
  lemma PartOfRound(r: Round, k: nat, t: real)
    requires r.from < r.until && (k in r.rates ==> r.rates[k] > 0.0)
    ensures PartBy(r, k, t) <= PartOf(r, k)
    ensures k in r.rates && t < r.until ==> PartBy(r, k, t) < PartOf(r, k)
  {
    if k in r.rates {
      if t < r.until {
        Positive(r.rates[k], Overlap(r, t), r.until - r.from);
      } else {
        assert Overlap(r, t) == r.until - r.from;
      }
    }
  }

  /** Nothing before a round, and its rate within it. */
  lemma PartByIs(r: Round, k: nat, t: real)
    ensures k !in r.rates || t <= r.from ==> PartBy(r, k, t) == 0.0
    ensures k in r.rates && r.from <= t <= r.until ==> PartBy(r, k, t) == r.rates[k] * (t - r.from)
  {
  }

  /** Before the last byte some bytes are left. */
  lemma {:induction false} UpToBefore(rounds: seq<Round>, k: nat, a: real, b: real, t: real)
    requires Chronological(rounds) && Tiles(rounds, k, a, b) && Drains(rounds, k)
    ensures DrainedUpTo(rounds, k, t) <= Drained(rounds, k)
    ensures a < b && t < b ==> DrainedUpTo(rounds, k, t) < Drained(rounds, k)
    decreases |rounds|
  {
    hide Chronological, Tiles, Drains, Drained, DrainedUpTo, PartBy, PartOf;
    if rounds == [] {
      NothingDrained(k, a, b, t);
    } else {
      var n := |rounds| - 1;
      var last, init := rounds[n], rounds[..n];
      LastRound(rounds, k, a, b);
      LastUpTo(rounds, k, t);
      UpToBefore(init, k, a, if k in last.rates then last.from else b, t);
      PartOfRound(last, k, t);
    }
  }

  ghost predicate SteadyRate(rounds: seq<Round>, k: nat, x: real, y: real, rate: real) {
    forall i :: 0 <= i < |rounds| && k in rounds[i].rates && rounds[i].from < y && rounds[i].until > x ==>
        rounds[i].rates[k] == rate
  }

  lemma SteadyLast(rounds: seq<Round>, k: nat, x: real, y: real, rate: real)
    requires rounds != [] && SteadyRate(rounds, k, x, y, rate)
    ensures var n := |rounds| - 1; var last, init := rounds[n], rounds[..n];
            SteadyRate(init, k, x, y, rate) && (last.from <= y ==> SteadyRate(init, k, x, last.from, rate))
            && (k in last.rates && last.from < y && last.until > x ==> last.rates[k] == rate)
  {
  }

  lemma Slice(rate: real, from: real, x: real, y: real)
    ensures rate * (y - from) - rate * (x - from) == rate * (y - x)
    ensures rate * (from - x) + rate * (y - from) == rate * (y - x)
  {
  }

  /** Between two times with one rate in force, bytes drain at that rate. */
  lemma {:induction false} Slope(rounds: seq<Round>, k: nat, a: real, b: real, x: real, y: real, rate: real)
    requires Chronological(rounds) && Tiles(rounds, k, a, b) && a <= x <= y <= b && SteadyRate(rounds, k, x, y, rate)
    ensures DrainedUpTo(rounds, k, y) - DrainedUpTo(rounds, k, x) == rate * (y - x)
    decreases |rounds|
  {
    hide Chronological, Tiles, SteadyRate, Drained, DrainedUpTo, PartBy, PartOf;
    if rounds == [] {
      NothingDrained(k, a, b, x);
      NothingDrained(k, a, b, y);
    } else {
      var n := |rounds| - 1;
      var last, init := rounds[n], rounds[..n];
      LastRound(rounds, k, a, b);
      LastUpTo(rounds, k, x);
      LastUpTo(rounds, k, y);
      PartByIs(last, k, x);
      PartByIs(last, k, y);
      SteadyLast(rounds, k, x, y, rate);
      if k !in last.rates {
        Slope(init, k, a, b, x, y, rate);
      } else if y <= last.from {
        Slope(init, k, a, last.from, x, y, rate);
      } else if x >= last.from {
        SlopeInLast(rounds, k, a, b, x, y, rate);
      } else {
        Slope(init, k, a, last.from, x, last.from, rate);
        UpToEnds(init, k, a, last.from, last.from);
        UpToEnds(init, k, a, last.from, y);
        Slice(rate, last.from, x, y);
      }
    }
  }

  lemma SlopeInLast(rounds: seq<Round>, k: nat, a: real, b: real, x: real, y: real, rate: real)
    requires rounds != [] && Chronological(rounds) && Tiles(rounds, k, a, b) && SteadyRate(rounds, k, x, y, rate)
    requires var last := rounds[|rounds| - 1]; k in last.rates && last.from <= x <= y <= b
    ensures DrainedUpTo(rounds, k, y) - DrainedUpTo(rounds, k, x) == rate * (y - x)
  {
    hide Chronological, Tiles, SteadyRate, Drained, DrainedUpTo, PartBy, PartOf;
    var n := |rounds| - 1;
    var last, init := rounds[n], rounds[..n];
    LastRound(rounds, k, a, b);
    LastUpTo(rounds, k, x);
    LastUpTo(rounds, k, y);
    PartByIs(last, k, x);
    PartByIs(last, k, y);
    SteadyLast(rounds, k, x, y, rate);
    UpToEnds(init, k, a, last.from, x);
    UpToEnds(init, k, a, last.from, y);
    assert Overlap(last, x) == x - last.from && Overlap(last, y) == y - last.from;
    Slice(last.rates[k], last.from, x, y);
  }

  // ---------------------------------------------------------------- agreement

  ghost predicate SameLaunch(p: Plan, s: Replay, f: Replay, k: nat) {
    && k in s.starts && k in f.starts && f.starts[k] == s.starts[k]
    && k in s.waves && k in f.waves && f.waves[k] == s.waves[k]
    && (IsData(p, k) ==> k in s.alphas && k in f.alphas && f.alphas[k] == s.alphas[k])
  }

  ghost predicate AgreeStarted(p: Plan, s: Replay, f: Replay) {
    forall k :: k in s.starts ==> SameLaunch(p, s, f, k)
  }

  ghost predicate AgreeEnded(s: Replay, f: Replay) {
    forall k :: k in s.ends ==> k in f.ends && f.ends[k] == s.ends[k]
  }

  ghost predicate AgreePending(s: Replay, f: Replay) {
    forall k :: k in s.pending ==> k in f.starts && f.starts[k] >= s.now
  }

  ghost predicate AgreeRunning(s: Replay, f: Replay) {
    forall k :: k in s.active + s.startup.Keys ==> k in f.ends && f.ends[k] >= s.now
  }

  ghost predicate AgreeBytes(s: Replay, f: Replay) {
    forall k :: k in s.active ==> DrainedUpTo(f.rounds, k, s.now) == Drained(s.rounds, k)
  }

  /** What f does by the present moment of s is what s has recorded. */
  ghost predicate Agree(p: Plan, s: Replay, f: Replay) {
    AgreeStarted(p, s, f) && AgreeEnded(s, f) && AgreePending(s, f) && AgreeRunning(s, f) && AgreeBytes(s, f)
  }

  lemma AgreeParts(p: Plan, s: Replay, f: Replay)
    requires Agree(p, s, f)
    ensures AgreeStarted(p, s, f) && AgreeEnded(s, f) && AgreePending(s, f) && AgreeRunning(s, f) && AgreeBytes(s, f)
  {
    hide AgreeStarted, AgreeEnded, AgreePending, AgreeRunning, AgreeBytes;
  }

  lemma AgreeWhole(p: Plan, s: Replay, f: Replay)
    requires AgreeStarted(p, s, f) && AgreeEnded(s, f) && AgreePending(s, f) && AgreeRunning(s, f) && AgreeBytes(s, f)
    ensures Agree(p, s, f)
  {
    hide AgreeStarted, AgreeEnded, AgreePending, AgreeRunning, AgreeBytes;
  }

  ghost predicate Forced(p: Plan, s: Replay) {
    forall f: Replay :: Faithful(p, f) ==> Agree(p, s, f)
  }

  /** A data operation of a faithful replay. */
  lemma ServedAt(p: Plan, f: Replay, k: nat)
    requires ValidPlan(p) && Faithful(p, f) && k in p.available && IsData(p, k)
    ensures k in f.starts && k in f.ends && k in f.begun && k in f.alphas && k in f.modes && k in f.waves
        && k in p.costs
    ensures f.begun[k] == f.starts[k] + f.alphas[k] && 0.0 <= f.alphas[k] && f.begun[k] < f.ends[k]
    ensures Tiles(f.rounds, k, f.begun[k], f.ends[k]) && Drained(f.rounds, k) == p.ops[k].payload as real
    ensures IsLaunchAlpha(p, f.modes[k], k, f.alphas[k])
        && DataOf(p, f.modes[k]) == PresentAt(p, f, f.starts[k], f.waves[k])
    ensures Chronological(f.rounds) && Drains(f.rounds, k)
  {
    hide *;
    DrainsForAWhile(p, f, k);
    FaithfulTimeline(p, f);
    ServedParts(p, f, k);
    AlphaNonNegative(p, k, f.modes[k], f.alphas[k]);
    RoundsDrain(p, f, k);
  }

  lemma RoundsDrain(p: Plan, f: Replay, k: nat)
    requires Faithful(p, f)
    ensures Drains(f.rounds, k)
  {
    forall i | 0 <= i < |f.rounds| && k in f.rounds[i].rates ensures f.rounds[i].rates[k] > 0.0 {
      assert RoundValid(p, f.rounds[i]);
    }
  }

  lemma FaithfulKeys(p: Plan, f: Replay, k: nat)
    requires Faithful(p, f) && k in p.available
    ensures k in f.starts && k in f.ends && k in f.waves && k in p.ops && IsStart(p, f.ends, k, f.starts[k])
        && IsWave(p, f.starts, f.waves, k)
    ensures !IsData(p, k) ==> f.ends[k] == f.starts[k]
  {
    hide IsStart, IsWave, Idle, Served, Timeline, AlwaysDecided;
  }

  lemma StartsBeforeEnds(p: Plan, f: Replay, k: nat)
    requires ValidPlan(p) && Faithful(p, f) && k in p.available
    ensures k in f.starts && k in f.ends && f.starts[k] <= f.ends[k] && (IsData(p, k) ==> f.starts[k] < f.ends[k])
  {
    hide *;
    FaithfulKeys(p, f, k);
    if IsData(p, k) {
      ServedAt(p, f, k);
    }
  }

  lemma PhaseOf(p: Plan, s: Replay, k: nat)
    requires Phases(p, s) && k in p.available
    ensures k in s.pending || k in s.startup || k in s.active || k in s.ends
  {
  }

  lemma PhaseKeys(p: Plan, s: Replay)
    requires Phases(p, s)
    ensures s.pending <= p.available && s.active <= p.available && s.startup.Keys <= p.available
        && s.ends.Keys <= p.available
    ensures s.starts.Keys == s.active + s.startup.Keys + s.ends.Keys && s.pending !! s.starts.Keys
    ensures forall k :: k in s.active + s.startup.Keys ==> IsData(p, k) && k in s.remaining && k in s.alphas
    ensures s.active !! s.startup.Keys && s.active !! s.ends.Keys && s.startup.Keys !! s.ends.Keys
    ensures s.active <= s.begun.Keys
  {
  }

  /** Startup still running, or flow with bytes left. */
  lemma FlowBooks(p: Plan, s: Replay, k: nat)
    requires Books(p, s) && k in s.active + s.startup.Keys && k in p.available
    ensures k in s.starts && k in s.alphas && k in s.remaining
    ensures k in s.startup ==> s.startup[k] == s.starts[k] + s.alphas[k] && Drained(s.rounds, k) == 0.0
    ensures k in s.active ==>
        k in s.begun && s.begun[k] == s.starts[k] + s.alphas[k]
          && Drained(s.rounds, k) + s.remaining[k] == p.ops[k].payload as real
  {
    hide Tiles, Drained, Charged;
    assert Accounted(p, s, k);
    if k in s.startup {
      IdleDrainsNothing(s.rounds, k, 0.0);
    }
  }

  /** Nothing in progress ends now, as long as every flow has bytes left. */
  lemma EndsLater(p: Plan, s: Replay, f: Replay, k: nat)
    requires ValidPlan(p) && Faithful(p, f) && Agree(p, s, f) && Phases(p, s) && Books(p, s) && Clock(s) && Busy(s)
    requires k in s.active + s.startup.Keys
    ensures k in f.ends && f.ends[k] > s.now
  {
    PhaseKeys(p, s);
    hide ValidPlan, Faithful, Phases, Books, Tiles, Drained, DrainedUpTo, IsLaunchAlpha, PresentAt, Chronological;
    ServedAt(p, f, k);
    FlowBooks(p, s, k);
    assert SameLaunch(p, s, f, k);
    if k in s.active && f.ends[k] == s.now {
      UpToEnds(f.rounds, k, f.begun[k], f.ends[k], s.now);
    }
  }

  lemma StartUnique(p: Plan, ends: map<nat, real>, other: map<nat, real>, k: nat, a: real, b: real)
    requires k in p.ops && IsStart(p, ends, k, a) && IsStart(p, other, k, b)
    requires forall d :: d in p.ops[k].dependencies ==> d in ends && d in other && ends[d] == other[d]
    ensures a == b
  {
  }

  // ---------------------------------------------------------------- launches

  /** What is due now. */
  ghost predicate DueAt(p: Plan, s: Replay, k: nat) {
    k in s.releases && k in p.ops && p.ops[k].notBefore <= s.now
  }

  lemma ReleasedIsPending(p: Plan, s: Replay, k: nat)
    requires Waits(p, s, {}) && k in s.releases
    ensures k in s.pending && k in p.ops && p.ops[k].dependencies <= s.ends.Keys
  {
    assert k in s.releases || k in {};
  }

  lemma PendingWaits(p: Plan, s: Replay, k: nat)
    requires Waits(p, s, {}) && k in s.pending && k !in s.releases
    ensures k in p.ops && exists d :: d in p.ops[k].dependencies && d !in s.ends
  {
    assert !(k in s.releases || k in {});
    var d :| d in p.ops[k].dependencies && d !in s.ends.Keys;
  }

  lemma DueIsStart(p: Plan, s: Replay, k: nat)
    requires Waits(p, s, {}) && Punctual(p, s, {}) && Clock(s) && DueAt(p, s, k)
    ensures IsStart(p, s.ends, k, s.now)
  {
    ReleasedIsPending(p, s, k);
    assert k in s.releases + {};
    assert Timely(p, s, k);
    hide Waits;
  }

  lemma SameEnds(p: Plan, s: Replay, f: Replay)
    requires Agree(p, s, f)
    ensures forall d :: d in s.ends ==> d in f.ends && s.ends[d] == f.ends[d]
  {
    hide SameLaunch, DrainedUpTo, Drained;
  }

  /** What is due starts now in every faithful replay. */
  lemma DueStarts(p: Plan, s: Replay, f: Replay, k: nat)
    requires ValidPlan(p) && Faithful(p, f) && Agree(p, s, f) && Phases(p, s) && Waits(p, s, {}) && Punctual(p, s, {})
    requires Clock(s)
    requires DueAt(p, s, k)
    ensures k in f.starts && f.starts[k] == s.now
  {
    hide *;
    DueIsReleased(p, s, k);
    ReleasedIsPending(p, s, k);
    PhaseKeys(p, s);
    FaithfulKeys(p, f, k);
    DueIsStart(p, s, k);
    SameEnds(p, s, f);
    StartUnique(p, s.ends, f.ends, k, s.now, f.starts[k]);
  }

  lemma DueIsReleased(p: Plan, s: Replay, k: nat)
    requires DueAt(p, s, k)
    ensures k in s.releases && k in p.ops && p.ops[k].notBefore <= s.now
  {
  }

  /** The instant operations k waited for, in s and in f. */
  lemma SameFollows(p: Plan, s: Replay, f: Replay, k: nat, d: nat)
    requires Agree(p, s, f) && AllWaves(p, s) && k in p.ops && p.ops[k].dependencies <= s.ends.Keys
    requires s.ends.Keys <= s.starts.Keys
    requires k in f.starts && f.starts[k] == s.now
    ensures Chains(p, f.starts, d, k)
        <==> d in p.ops[k].dependencies && !IsData(p, d) && d in s.starts && s.starts[d] == s.now
    ensures Chains(p, f.starts, d, k) ==>
        d in s.waves && d in f.waves && f.waves[d] == s.waves[d] < s.wave && Follows(p, s, k, s.waves[d])
  {
    hide IsWave;
    if d in s.starts {
      assert SameLaunch(p, s, f, d);
    }
  }

  lemma WaveAtMost(p: Plan, s: Replay, f: Replay, k: nat)
    requires Agree(p, s, f) && AllWaves(p, s) && k in p.ops && p.ops[k].dependencies <= s.ends.Keys
    requires s.ends.Keys <= s.starts.Keys
    requires k in f.starts && f.starts[k] == s.now && k in f.waves && IsWave(p, f.starts, f.waves, k)
    ensures f.waves[k] <= s.wave
  {
    hide Agree, AllWaves, Chains, Follows;
    if f.waves[k] != 0 {
      var d :| Chains(p, f.starts, d, k) && d in f.waves && f.waves[d] + 1 == f.waves[k];
      SameFollows(p, s, f, k, d);
    }
  }

  lemma WaveAtLeast(p: Plan, s: Replay, f: Replay, k: nat)
    requires Agree(p, s, f) && AllWaves(p, s) && DueFollows(p, s) && DueAt(p, s, k)
    requires p.ops[k].dependencies <= s.ends.Keys && s.ends.Keys <= s.starts.Keys
    requires k in f.starts && f.starts[k] == s.now && k in f.waves && IsWave(p, f.starts, f.waves, k)
    ensures f.waves[k] >= s.wave
  {
    hide Agree, AllWaves, Chains;
    if s.wave > 0 {
      assert Follows(p, s, k, s.wave - 1);
      var d :| d in p.ops[k].dependencies && !IsData(p, d) && d in s.starts && s.starts[d] == s.now && d in s.waves
          && s.waves[d] == s.wave - 1;
      SameFollows(p, s, f, k, d);
    }
  }

  lemma WavedParts(p: Plan, s: Replay)
    requires Waved(p, s, {})
    ensures AllWaves(p, s) && DueFollows(p, s) && TakesTime(p, s)
  {
    hide AllWaves, DueFollows, BatchFollows, TakesTime;
  }

  /** What is due is in the next pass of every faithful replay. */
  lemma DueWave(p: Plan, s: Replay, f: Replay, k: nat)
    requires Faithful(p, f) && Agree(p, s, f) && Phases(p, s) && Waits(p, s, {}) && Waved(p, s, {})
    requires DueAt(p, s, k) && k in f.starts && f.starts[k] == s.now
    ensures k in f.waves && f.waves[k] == s.wave
  {
    DueIsReleased(p, s, k);
    hide *;
    ReleasedIsPending(p, s, k);
    PhaseKeys(p, s);
    FaithfulKeys(p, f, k);
    WavedParts(p, s);
    WaveAtMost(p, s, f, k);
    WaveAtLeast(p, s, f, k);
  }

  /** An unfinished operation a pending one waits for that must end by now is itself pending, instant, and starts now.
      */
  lemma BlockerStartsNow(p: Plan, s: Replay, f: Replay, k: nat, d: nat)
    requires ValidPlan(p) && Faithful(p, f) && Agree(p, s, f) && Phases(p, s) && Books(p, s) && Clock(s) && Busy(s)
    requires k in s.pending && k in f.starts && f.starts[k] <= s.now && k in p.ops && d in p.ops[k].dependencies
    requires d !in s.ends
    ensures d in s.pending && d in f.starts && f.starts[d] == s.now && !IsData(p, d) && Chains(p, f.starts, d, k)
  {
    PhaseKeys(p, s);
    FaithfulKeys(p, f, k);
    DependencyKnown(p, k, d);
    PhaseOf(p, s, d);
    FaithfulKeys(p, f, d);
    StartsBeforeEnds(p, f, d);
    hide ValidPlan, Faithful, Phases, Books, Clock, Busy, SameLaunch, IsWave;
    if d !in s.pending {
      EndsLater(p, s, f, d);
    }
  }

  lemma DependencyKnown(p: Plan, k: nat, d: nat)
    requires ValidPlan(p) && k in p.available && d in p.ops[k].dependencies
    ensures d in p.available && d in p.ops
  {
  }

  /** What is pending and not due does not start now, or does so in a later pass. */
  lemma {:induction false} LaterWave(p: Plan, s: Replay, f: Replay, rank: map<nat, nat>, k: nat)
    requires ValidPlan(p) && G.Closed(Dependencies(p.ops)) && G.Ranks(Dependencies(p.ops), rank)
    requires Faithful(p, f) && Agree(p, s, f) && Inv(p, s, {}) && Busy(s)
    requires k in s.pending && !DueAt(p, s, k) && k in f.starts && f.starts[k] == s.now && k in rank
    ensures k in f.waves && f.waves[k] > s.wave
    decreases rank[k]
  {
    hide *;
    InvParts(p, s, {});
    PhaseKeys(p, s);
    FaithfulKeys(p, f, k);
    var d := BlockerOf(p, s, f, k);
    BlockerStartsNow(p, s, f, k, d);
    DependencyKnown(p, k, d);
    RankFalls(p, rank, k, d);
    if DueAt(p, s, d) {
      DueWave(p, s, f, d);
    } else {
      LaterWave(p, s, f, rank, d);
    }
    WaveBehind(p, f, d, k);
  }

  lemma WaveBehind(p: Plan, f: Replay, d: nat, k: nat)
    requires k in f.waves && IsWave(p, f.starts, f.waves, k) && Chains(p, f.starts, d, k)
    ensures d in f.waves && f.waves[d] < f.waves[k]
  {
  }

  lemma RankFalls(p: Plan, rank: map<nat, nat>, k: nat, d: nat)
    requires G.Closed(Dependencies(p.ops)) && G.Ranks(Dependencies(p.ops), rank) && k in p.ops
    requires d in p.ops[k].dependencies && d in p.ops
    ensures k in rank && d in rank && rank[d] < rank[k]
  {
    assert d in Dependencies(p.ops)[k];
  }

  lemma ReleasedIsDue(p: Plan, s: Replay, f: Replay, k: nat)
    requires k in s.releases && k in p.ops && k in f.starts && f.starts[k] <= s.now
    requires IsStart(p, f.ends, k, f.starts[k])
    ensures DueAt(p, s, k)
  {
  }

  /** Why a pending operation that is not due has not been launched. */
  lemma BlockerOf(p: Plan, s: Replay, f: Replay, k: nat) returns (d: nat)
    requires Waits(p, s, {}) && k in s.pending && !DueAt(p, s, k) && k in p.ops && k in f.starts && f.starts[k] <= s.now
    requires IsStart(p, f.ends, k, f.starts[k])
    ensures d in p.ops[k].dependencies && d !in s.ends
  {
    if k in s.releases {
      ReleasedIsDue(p, s, f, k);
    }
    PendingWaits(p, s, k);
    d :| d in p.ops[k].dependencies && d !in s.ends;
  }

  // ---------------------------------------------------------------- the batch

  ghost predicate IsBatch(p: Plan, s: Replay, ready: set<nat>) {
    forall k: nat :: k in ready <==> DueAt(p, s, k)
  }

  /** Who is present in the next pass, one operation at a time. */
  lemma PresentMember(p: Plan, s: Replay, f: Replay, rank: map<nat, nat>, ready: set<nat>, x: nat)
    requires ValidPlan(p) && G.Closed(Dependencies(p.ops)) && G.Ranks(Dependencies(p.ops), rank)
    requires Faithful(p, f) && Agree(p, s, f) && Inv(p, s, {}) && Busy(s) && IsBatch(p, s, ready) && x in p.available
    requires IsData(p, x)
    ensures x in PresentAt(p, f, s.now, s.wave) <==> x in s.active + s.startup.Keys + ready
  {
    hide *;
    InvParts(p, s, {});
    PhaseKeys(p, s);
    PhaseOf(p, s, x);
    FaithfulKeys(p, f, x);
    StartsBeforeEnds(p, f, x);
    InPresent(p, f, s.now, s.wave, x);
    BatchIs(p, s, ready, x);
    if x in s.pending {
      PendingStart(p, s, f, x);
      if f.starts[x] == s.now {
        if DueAt(p, s, x) {
          DueWave(p, s, f, x);
        } else {
          RankKnown(p, rank, x);
          LaterWave(p, s, f, rank, x);
        }
      } else if DueAt(p, s, x) {
        DueStarts(p, s, f, x);
      }
    } else {
      StartedAlike(p, s, f, x);
      if x in s.ends {
        SameEnds(p, s, f);
        EndedBefore(s, x);
      } else {
        EndsLater(p, s, f, x);
      }
    }
  }

  lemma InPresent(p: Plan, f: Replay, time: real, w: nat, x: nat)
    requires x in f.starts && x in f.ends && x in f.waves && IsData(p, x)
    ensures x in PresentAt(p, f, time, w)
        <==> (f.starts[x] < time < f.ends[x]) || (f.starts[x] == time && f.waves[x] <= w)
  {
  }

  lemma BatchIs(p: Plan, s: Replay, ready: set<nat>, x: nat)
    requires IsBatch(p, s, ready) && Waits(p, s, {})
    ensures x in ready <==> DueAt(p, s, x)
    ensures x in ready ==> x in s.pending
  {
    if x in ready {
      ReleasedIsPending(p, s, x);
    }
    hide Waits;
  }

  lemma PendingStart(p: Plan, s: Replay, f: Replay, x: nat)
    requires Agree(p, s, f) && x in s.pending
    ensures x in f.starts && f.starts[x] >= s.now
  {
    hide SameLaunch, DrainedUpTo, Drained;
  }

  lemma RankKnown(p: Plan, rank: map<nat, nat>, x: nat)
    requires G.Closed(Dependencies(p.ops)) && G.Ranks(Dependencies(p.ops), rank) && x in p.ops
    ensures x in rank
  {
    assert x in Dependencies(p.ops);
  }

  /** A launched operation is recorded alike, now or before. */
  lemma StartedAlike(p: Plan, s: Replay, f: Replay, x: nat)
    requires Agree(p, s, f) && Clock(s) && Waved(p, s, {}) && x in s.starts
    ensures x in f.starts && x in f.waves && x in s.waves && f.starts[x] == s.starts[x] <= s.now
        && f.waves[x] == s.waves[x]
    ensures s.starts[x] == s.now ==> s.waves[x] < s.wave
  {
    hide DrainedUpTo, Drained, IsWave, DueFollows, BatchFollows, TakesTime;
    assert SameLaunch(p, s, f, x);
  }

  lemma EndedBefore(s: Replay, x: nat)
    requires Clock(s) && x in s.ends
    ensures s.ends[x] <= s.now
  {
  }

  /** Every faithful replay has exactly these operations present in the next pass. */
  lemma SamePresent(p: Plan, s: Replay, f: Replay, ready: set<nat>)
    requires ValidPlan(p) && Faithful(p, f) && Agree(p, s, f) && Inv(p, s, {}) && Busy(s) && IsBatch(p, s, ready)
    ensures PresentAt(p, f, s.now, s.wave) == DataOf(p, s.active + s.startup.Keys + ready)
  {
    hide *;
    InvParts(p, s, {});
    PhaseKeys(p, s);
    DependenciesAcyclic(p);
    var rank :| G.Ranks(Dependencies(p.ops), rank);
    forall x: nat ensures x in PresentAt(p, f, s.now, s.wave) <==> x in DataOf(p, s.active + s.startup.Keys + ready) {
      InData(p, s.active + s.startup.Keys + ready, x);
      if x in p.available && IsData(p, x) {
        PresentMember(p, s, f, rank, ready, x);
      } else {
        if x in PresentAt(p, f, s.now, s.wave) {
          PresentKnown(p, f, s.now, s.wave, x);
        }
        BatchIs(p, s, ready, x);
      }
    }
  }

  lemma InData(p: Plan, keys: set<nat>, x: nat)
    ensures x in DataOf(p, keys) <==> x in keys && IsData(p, x)
  {
  }

  lemma PresentKnown(p: Plan, f: Replay, time: real, w: nat, x: nat)
    requires Faithful(p, f) && x in PresentAt(p, f, time, w)
    ensures x in p.available && IsData(p, x)
  {
    hide IsStart, IsWave, Idle, Served, Timeline, AlwaysDecided;
  }

  lemma DependenciesAcyclic(p: Plan)
    requires ValidPlan(p)
    ensures G.Closed(Dependencies(p.ops)) && exists rank :: G.Ranks(Dependencies(p.ops), rank)
  {
  }

  lemma SameCommunicating(p: Plan, a: set<nat>, b: set<nat>)
    requires DataOf(p, a) == DataOf(p, b)
    ensures Communicating(p.ops, a) == Communicating(p.ops, b)
  {
    forall x ensures x in Communicating(p.ops, a) <==> x in Communicating(p.ops, b) {
      assert x in DataOf(p, a) <==> x in DataOf(p, b);
    }
  }

  lemma AlphaUnique(p: Plan, a: set<nat>, b: set<nat>, k: nat, x: real, y: real)
    requires k in p.ops && k in p.costs && DataOf(p, a) == DataOf(p, b) && IsLaunchAlpha(p, a, k, x)
    requires IsLaunchAlpha(p, b, k, y)
    ensures x == y
  {
    SameCommunicating(p, a, b);
    hide DecidedFor, DataOf;
    if p.ops[k].Communicates() {
      var u :| DecidedFor(p.ops, p.model, a, k, u) && x == OfferedAlpha(p, k, u);
      var v :| DecidedFor(p.ops, p.model, b, k, v) && y == OfferedAlpha(p, k, v);
      DecidedUnique(p.ops, p.model, a, b, k, u, v);
    }
  }

  /** How a faithful replay launches a batch. */
  ghost predicate LaunchesAlike(p: Plan, f: Replay, time: real, pass: nat, k: nat, alphas: map<nat, real>) {
    && k in f.starts && f.starts[k] == time && k in f.waves && f.waves[k] == pass
    && (IsData(p, k) ==> k in alphas && k in f.alphas && f.alphas[k] == alphas[k])
  }

  ghost predicate BatchForced(p: Plan, time: real, pass: nat, ready: set<nat>, alphas: map<nat, real>) {
    forall f: Replay, k: nat :: Faithful(p, f) && k in ready ==> LaunchesAlike(p, f, time, pass, k, alphas)
  }

  lemma BatchAlike(p: Plan, s: Replay, f: Replay, ready: set<nat>, alphas: map<nat, real>, k: nat)
    requires ValidPlan(p) && Faithful(p, f) && Agree(p, s, f) && Inv(p, s, {}) && Busy(s) && IsBatch(p, s, ready)
    requires k in ready
    requires IsData(p, k) ==>
        k in alphas && k in p.costs && IsLaunchAlpha(p, s.active + s.startup.Keys + ready, k, alphas[k])
    ensures LaunchesAlike(p, f, s.now, s.wave, k, alphas)
  {
    hide *;
    InvParts(p, s, {});
    PhaseKeys(p, s);
    BatchIs(p, s, ready, k);
    DueStarts(p, s, f, k);
    DueWave(p, s, f, k);
    if IsData(p, k) {
      SamePresent(p, s, f, ready);
      ServedAt(p, f, k);
      DataIsKnown(p, k);
      AlphaUnique(p, f.modes[k], s.active + s.startup.Keys + ready, k, f.alphas[k], alphas[k]);
    }
    LaunchIs(p, f, s.now, s.wave, k, alphas);
  }

  lemma DataIsKnown(p: Plan, k: nat)
    requires IsData(p, k)
    ensures k in p.ops
  {
  }

  lemma LaunchIs(p: Plan, f: Replay, time: real, pass: nat, k: nat, alphas: map<nat, real>)
    requires k in f.starts && f.starts[k] == time && k in f.waves && f.waves[k] == pass
    requires IsData(p, k) ==> k in alphas && k in f.alphas && f.alphas[k] == alphas[k]
    ensures LaunchesAlike(p, f, time, pass, k, alphas)
  {
  }

  lemma BatchIsForced(p: Plan, s: Replay, ready: set<nat>, alphas: map<nat, real>)
    requires ValidPlan(p) && Forced(p, s) && Inv(p, s, {}) && Busy(s) && IsBatch(p, s, ready)
    requires forall k :: k in ready && IsData(p, k) ==>
        k in alphas && k in p.costs && k in p.ops && IsLaunchAlpha(p, s.active + s.startup.Keys + ready, k, alphas[k])
    ensures BatchForced(p, s.now, s.wave, ready, alphas)
  {
    hide ValidPlan, Faithful, Agree, Inv, Busy, IsBatch, IsLaunchAlpha, LaunchesAlike;
    forall f: Replay, k: nat | Faithful(p, f) && k in ready ensures LaunchesAlike(p, f, s.now, s.wave, k, alphas) {
      BatchAlike(p, s, f, ready, alphas, k);
    }
  }

  /** A pass in which some component is undecided refutes every faithful replay. */
  lemma UndecidedRefutes(p: Plan, s: Replay, ready: set<nat>)
    requires ValidPlan(p) && Forced(p, s) && Inv(p, s, {}) && Busy(s) && IsBatch(p, s, ready)
    requires !Decided(p.ops, p.model, s.active + s.startup.Keys + ready)
    ensures forall f: Replay :: !Faithful(p, f)
  {
    hide ValidPlan, Agree, Inv, Busy, IsBatch, Decided;
    forall f: Replay ensures !Faithful(p, f) {
      if Faithful(p, f) {
        SamePresent(p, s, f, ready);
        NowNonNegative(p, s);
        DecidedAlways(p, f, s.now, s.wave);
        DataTwice(p, s.active + s.startup.Keys + ready);
        DataDecides(p, PresentAt(p, f, s.now, s.wave), s.active + s.startup.Keys + ready);
      }
    }
  }

  lemma NowNonNegative(p: Plan, s: Replay)
    requires Inv(p, s, {})
    ensures s.now >= 0.0
  {
    hide Phases, Waits, Punctual, Started, Books, Timeline, Waved, Modes, Clear;
  }

  lemma DecidedAlways(p: Plan, f: Replay, time: real, w: nat)
    requires Faithful(p, f) && time >= 0.0
    ensures Decided(p.ops, p.model, PresentAt(p, f, time, w))
  {
    hide IsStart, IsWave, Idle, Served, Timeline, Decided, PresentAt;
  }

  lemma DataTwice(p: Plan, keys: set<nat>)
    ensures DataOf(p, DataOf(p, keys)) == DataOf(p, keys)
  {
  }

  // ---------------------------------------------------------------- steps at one instant

  /** Launches recorded alike stay so. */
  lemma StartedStay(p: Plan, s: Replay, t: Replay, f: Replay)
    requires AgreeStarted(p, s, f) && t.starts == s.starts && t.waves == s.waves && t.alphas == s.alphas
    ensures AgreeStarted(p, t, f)
  {
    forall x | x in t.starts ensures SameLaunch(p, t, f, x) {
      assert SameLaunch(p, s, f, x);
    }
  }

  lemma StartedGrow(p: Plan, s: Replay, t: Replay, f: Replay, k: nat, alphas: map<nat, real>)
    requires AgreeStarted(p, s, f) && k !in s.starts && LaunchesAlike(p, f, s.now, LastPass(s), k, alphas)
    requires t.starts == s.starts[k := s.now] && t.waves == s.waves[k := LastPass(s)]
    requires if IsData(p, k) then k in alphas && t.alphas == s.alphas[k := alphas[k]] else t.alphas == s.alphas
    ensures AgreeStarted(p, t, f)
  {
    forall x | x in t.starts ensures SameLaunch(p, t, f, x) {
      if x != k {
        assert SameLaunch(p, s, f, x);
      }
    }
  }

  lemma EndedStay(s: Replay, t: Replay, f: Replay)
    requires AgreeEnded(s, f) && t.ends == s.ends
    ensures AgreeEnded(t, f)
  {
  }

  lemma EndedGrow(s: Replay, t: Replay, f: Replay, k: nat)
    requires AgreeEnded(s, f) && t.ends == s.ends[k := s.now] && k in f.ends && f.ends[k] == s.now
    ensures AgreeEnded(t, f)
  {
  }

  lemma PendingStay(s: Replay, t: Replay, f: Replay)
    requires AgreePending(s, f) && t.pending <= s.pending && t.now == s.now
    ensures AgreePending(t, f)
  {
  }

  lemma RunningGrow(s: Replay, t: Replay, f: Replay, k: nat)
    requires AgreeRunning(s, f) && t.now == s.now && t.active + t.startup.Keys <= s.active + s.startup.Keys + {k}
    requires k in f.ends && f.ends[k] >= s.now
    ensures AgreeRunning(t, f)
  {
  }

  lemma BytesStay(s: Replay, t: Replay, f: Replay)
    requires AgreeBytes(s, f) && t.active <= s.active && t.now == s.now && t.rounds == s.rounds
    ensures AgreeBytes(t, f)
  {
    hide Drained, DrainedUpTo;
  }

  lemma BytesGrow(s: Replay, t: Replay, f: Replay, k: nat)
    requires AgreeBytes(s, f) && t.active <= s.active + {k} && t.now == s.now && t.rounds == s.rounds
    requires DrainedUpTo(f.rounds, k, s.now) == Drained(s.rounds, k)
    ensures AgreeBytes(t, f)
  {
    hide Drained, DrainedUpTo;
  }

  lemma RunningEnd(s: Replay, f: Replay, k: nat)
    requires AgreeRunning(s, f) && k in s.active + s.startup.Keys
    ensures k in f.ends && f.ends[k] >= s.now
  {
  }

  lemma BeginFields(s: Replay, k: nat)
    ensures var t := BeginFlow(s, k);
            t.starts == s.starts && t.waves == s.waves && t.alphas == s.alphas && t.ends == s.ends
              && t.pending == s.pending
            && t.now == s.now && t.rounds == s.rounds && t.active == s.active + {k}
            && t.startup.Keys == s.startup.Keys - {k}
  {
  }

  lemma FlowBegins(p: Plan, s: Replay, f: Replay, k: nat)
    requires ValidPlan(p) && Faithful(p, f) && Agree(p, s, f) && Phases(p, s) && Books(p, s) && Clock(s)
    requires k in s.startup && s.startup[k] <= s.now
    ensures DrainedUpTo(f.rounds, k, s.now) == Drained(s.rounds, k)
  {
    hide *;
    PhaseKeys(p, s);
    FlowBooks(p, s, k);
    ServedAt(p, f, k);
    AgreeParts(p, s, f);
    LaunchedAlike(p, s, f, k);
    ClockStartup(s, k);
    UpToEnds(f.rounds, k, f.begun[k], f.ends[k], s.now);
  }

  lemma LaunchedAlike(p: Plan, s: Replay, f: Replay, k: nat)
    requires AgreeStarted(p, s, f) && k in s.starts
    ensures k in f.starts && f.starts[k] == s.starts[k]
        && (IsData(p, k) ==> k in s.alphas && k in f.alphas && f.alphas[k] == s.alphas[k])
  {
    assert SameLaunch(p, s, f, k);
  }

  lemma ClockStartup(s: Replay, k: nat)
    requires Clock(s) && k in s.startup
    ensures s.startup[k] >= s.now
  {
  }

  lemma AgreeBegin(p: Plan, s: Replay, f: Replay, k: nat)
    requires ValidPlan(p) && Faithful(p, f) && Agree(p, s, f) && Phases(p, s) && Books(p, s) && Clock(s)
    requires k in s.startup && s.startup[k] <= s.now
    ensures Agree(p, BeginFlow(s, k), f)
  {
    hide *;
    FlowBegins(p, s, f, k);
    AgreeParts(p, s, f);
    BeginFields(s, k);
    var t := BeginFlow(s, k);
    StartedStay(p, s, t, f);
    EndedStay(s, t, f);
    PendingStay(s, t, f);
    RunningEnd(s, f, k);
    RunningGrow(s, t, f, k);
    BytesGrow(s, t, f, k);
    AgreeWhole(p, t, f);
  }

  lemma LaunchFields(p: Plan, s: Replay, k: nat, present: set<nat>, alpha: real)
    requires k in p.ops
    ensures var t := Launch(p, s, k, present, alpha);
            t.starts == s.starts[k := s.now] && t.waves == s.waves[k := LastPass(s)] && t.alphas == s.alphas[k := alpha]
              && t.ends == s.ends
            && t.pending == s.pending - {k} && t.now == s.now && t.rounds == s.rounds && t.active == s.active
            && t.startup.Keys == s.startup.Keys + {k}
  {
  }

  lemma AgreeLaunch(p: Plan, s: Replay, f: Replay, k: nat, present: set<nat>, alphas: map<nat, real>)
    requires ValidPlan(p) && Faithful(p, f) && Agree(p, s, f) && Phases(p, s) && k in s.pending && IsData(p, k)
    requires LaunchesAlike(p, f, s.now, LastPass(s), k, alphas) && k in alphas
    ensures Agree(p, Launch(p, s, k, present, alphas[k]), f)
  {
    hide *;
    PhaseKeys(p, s);
    DataIsKnown(p, k);
    StartsBeforeEnds(p, f, k);
    PendingStart(p, s, f, k);
    AgreeParts(p, s, f);
    LaunchFields(p, s, k, present, alphas[k]);
    var t := Launch(p, s, k, present, alphas[k]);
    StartedGrow(p, s, t, f, k, alphas);
    EndedStay(s, t, f);
    PendingStay(s, t, f);
    RunningGrow(s, t, f, k);
    BytesStay(s, t, f);
    AgreeWhole(p, t, f);
  }

  lemma InstantFields(p: Plan, s: Replay, k: nat)
    ensures var t := LaunchNop(p, s, k);
            t.starts == s.starts[k := s.now] && t.waves == s.waves[k := LastPass(s)] && t.alphas == s.alphas
              && t.ends == s.ends[k := s.now]
            && t.pending == s.pending - {k} && t.now == s.now && t.rounds == s.rounds && t.active == s.active
            && t.startup == s.startup
  {
  }

  lemma AgreeInstant(p: Plan, s: Replay, f: Replay, k: nat, alphas: map<nat, real>)
    requires Faithful(p, f) && Agree(p, s, f) && Phases(p, s) && k in s.pending && !IsData(p, k)
    requires LaunchesAlike(p, f, s.now, LastPass(s), k, alphas)
    ensures Agree(p, LaunchNop(p, s, k), f)
  {
    hide *;
    PhaseKeys(p, s);
    FaithfulKeys(p, f, k);
    AlikeStart(p, f, s.now, LastPass(s), k, alphas);
    AgreeParts(p, s, f);
    InstantFields(p, s, k);
    var t := LaunchNop(p, s, k);
    StartedGrow(p, s, t, f, k, alphas);
    EndedGrow(s, t, f, k);
    PendingStay(s, t, f);
    RunningGrow(s, t, f, k);
    BytesStay(s, t, f);
    AgreeWhole(p, t, f);
  }

  lemma AlikeStart(p: Plan, f: Replay, time: real, pass: nat, k: nat, alphas: map<nat, real>)
    requires LaunchesAlike(p, f, time, pass, k, alphas)
    ensures k in f.starts && f.starts[k] == time
  {
  }

  /** A drained flow ends now. */
  lemma DrainedEnds(p: Plan, s: Replay, f: Replay, k: nat)
    requires ValidPlan(p) && Faithful(p, f) && Agree(p, s, f) && Phases(p, s) && Books(p, s) && k in s.active
    requires k in s.remaining && s.remaining[k] == 0.0
    ensures k in f.ends && f.ends[k] == s.now
  {
    PhaseKeys(p, s);
    FlowBooks(p, s, k);
    ServedAt(p, f, k);
    UpToBefore(f.rounds, k, f.begun[k], f.ends[k], s.now);
    hide ValidPlan, Faithful, Phases, Books, Tiles, Drained, DrainedUpTo, IsLaunchAlpha, PresentAt, Chronological,
    Drains, DataOf;
  }

  lemma FinishFields(p: Plan, s: Replay, k: nat)
    ensures var t := Finish(p, s, k);
            t.starts == s.starts && t.waves == s.waves && t.alphas == s.alphas && t.ends == s.ends[k := s.now]
            && t.pending == s.pending && t.now == s.now && t.rounds == s.rounds && t.active == s.active - {k}
            && t.startup == s.startup
  {
  }

  lemma AgreeFinish(p: Plan, s: Replay, f: Replay, k: nat)
    requires ValidPlan(p) && Faithful(p, f) && Agree(p, s, f) && Phases(p, s) && Books(p, s) && k in s.active
    requires k in s.remaining && s.remaining[k] == 0.0
    ensures Agree(p, Finish(p, s, k), f)
  {
    hide *;
    DrainedEnds(p, s, f, k);
    AgreeParts(p, s, f);
    FinishFields(p, s, k);
    var t := Finish(p, s, k);
    StartedStay(p, s, t, f);
    EndedGrow(s, t, f, k);
    PendingStay(s, t, f);
    RunningGrow(s, t, f, k);
    BytesStay(s, t, f);
    AgreeWhole(p, t, f);
  }

  // ---------------------------------------------------------------- between events

  /** No operation in progress ends, and none pending starts, before e. */
  ghost predicate QuietUntil(s: Replay, f: Replay, e: real) {
    && (forall k :: k in s.pending ==> k in f.starts && f.starts[k] >= e)
    && (forall k :: k in s.active + s.startup.Keys ==> k in f.ends && f.ends[k] >= e)
  }

  lemma StartupEnds(p: Plan, s: Replay, f: Replay, k: nat)
    requires ValidPlan(p) && Faithful(p, f) && Agree(p, s, f) && Phases(p, s) && Books(p, s) && k in s.startup
    ensures k in f.begun && f.begun[k] == s.startup[k] && k in f.ends && f.ends[k] > s.startup[k]
  {
    hide *;
    PhaseKeys(p, s);
    FlowBooks(p, s, k);
    ServedAt(p, f, k);
    AgreeParts(p, s, f);
    LaunchedAlike(p, s, f, k);
  }

  lemma FlowBegun(p: Plan, s: Replay, f: Replay, k: nat)
    requires ValidPlan(p) && Faithful(p, f) && Agree(p, s, f) && Phases(p, s) && Books(p, s) && Clock(s)
    requires k in s.active
    ensures k in f.begun && f.begun[k] <= s.now
  {
    hide *;
    PhaseKeys(p, s);
    FlowBooks(p, s, k);
    ServedAt(p, f, k);
    AgreeParts(p, s, f);
    LaunchedAlike(p, s, f, k);
    ClockBegun(s, k);
  }

  lemma ClockBegun(s: Replay, k: nat)
    requires Clock(s) && k in s.begun
    ensures s.begun[k] <= s.now
  {
  }

  /** A round of f that meets the time from now to e, and begins before e, rates exactly the active operations. */
  lemma RoundIsMode(p: Plan, s: Replay, f: Replay, i: nat, e: real, k: nat)
    requires ValidPlan(p) && Faithful(p, f) && Agree(p, s, f) && Phases(p, s) && Books(p, s) && Clock(s)
    requires QuietUntil(s, f, e) && (forall x :: x in s.startup ==> s.startup[x] >= e) && s.now < e
    requires i < |f.rounds| && f.rounds[i].from < e && f.rounds[i].until > s.now && k in p.available
    ensures k in f.rounds[i].rates <==> k in s.active
  {
    hide *;
    PhaseKeys(p, s);
    PhaseOf(p, s, k);
    FaithfulTimeline(p, f);
    if k in s.active {
      ServedAt(p, f, k);
      FlowBegun(p, s, f, k);
      QuietEnd(s, f, e, k);
      InsideIs(f.rounds, k, f.begun[k], f.ends[k], i);
    } else if IsData(p, k) {
      ServedAt(p, f, k);
      InsideIs(f.rounds, k, f.begun[k], f.ends[k], i);
      if k in s.startup {
        StartupEnds(p, s, f, k);
      } else if k in s.pending {
        QuietStart(s, f, e, k);
      } else {
        AgreeParts(p, s, f);
        EndedAlike(s, f, k);
        EndedBefore(s, k);
      }
    } else {
      InstantIdles(p, f, k, i);
    }
  }

  lemma InsideIs(rounds: seq<Round>, k: nat, a: real, b: real, i: nat)
    requires Chronological(rounds) && Tiles(rounds, k, a, b) && i < |rounds|
    ensures rounds[i].from < rounds[i].until
    ensures k in rounds[i].rates ==> a <= rounds[i].from && rounds[i].until <= b
    ensures k !in rounds[i].rates && a < b ==> rounds[i].until <= a || b <= rounds[i].from
  {
    TilesAreExact(rounds, k, a, b);
    hide Tiles;
    assert Inside(rounds[i], k, a, b);
  }

  lemma QuietEnd(s: Replay, f: Replay, e: real, k: nat)
    requires QuietUntil(s, f, e) && k in s.active + s.startup.Keys
    ensures k in f.ends && f.ends[k] >= e
  {
  }

  lemma QuietStart(s: Replay, f: Replay, e: real, k: nat)
    requires QuietUntil(s, f, e) && k in s.pending
    ensures k in f.starts && f.starts[k] >= e
  {
  }

  lemma EndedAlike(s: Replay, f: Replay, k: nat)
    requires AgreeEnded(s, f) && k in s.ends
    ensures k in f.ends && f.ends[k] == s.ends[k]
  {
  }

  lemma InstantIdles(p: Plan, f: Replay, k: nat, i: nat)
    requires Faithful(p, f) && k in p.available && !IsData(p, k) && i < |f.rounds|
    ensures k !in f.rounds[i].rates
  {
    hide IsStart, IsWave, Served, Timeline, AlwaysDecided;
  }

  lemma RoundKnown(p: Plan, f: Replay, i: nat)
    requires Faithful(p, f) && i < |f.rounds|
    ensures RoundValid(p, f.rounds[i]) && f.rounds[i].rates.Keys <= p.available
  {
    hide IsStart, IsWave, Served, Idle, AlwaysDecided, Rated, Costed;
  }

  /** Such a round has the rates of the active operations. */
  lemma RoundHasRates(p: Plan, s: Replay, f: Replay, i: nat, e: real, rates: map<nat, real>)
    requires ValidPlan(p) && Faithful(p, f) && Agree(p, s, f) && Phases(p, s) && Books(p, s) && Clock(s)
    requires QuietUntil(s, f, e) && (forall x :: x in s.startup ==> s.startup[x] >= e) && s.now < e
    requires i < |f.rounds| && f.rounds[i].from < e && f.rounds[i].until > s.now
    requires Costed(p.ops, p.costs, p.model, s.active) && Rated(p.ops, p.costs, p.model, s.active, rates)
    ensures f.rounds[i].rates == rates
  {
    hide ValidPlan, Faithful, Agree, Phases, Books, Clock, QuietUntil, Rated, Costed;
    PhaseKeys(p, s);
    RoundKnown(p, f, i);
    forall k ensures k in f.rounds[i].rates <==> k in s.active {
      if k in p.available {
        RoundIsMode(p, s, f, i, e, k);
      }
    }
    assert f.rounds[i].rates.Keys == s.active;
    RatedUnique(p.ops, p.costs, p.model, s.active, f.rounds[i].rates, rates);
  }

  /** While nothing happens, f drains every active operation at our rates. */
  lemma FlowBytes(p: Plan, s: Replay, f: Replay, e: real, rates: map<nat, real>, k: nat)
    requires ValidPlan(p) && Faithful(p, f) && Agree(p, s, f) && Phases(p, s) && Books(p, s) && Clock(s)
    requires QuietUntil(s, f, e) && (forall x :: x in s.startup ==> s.startup[x] >= e) && s.now <= e
    requires Costed(p.ops, p.costs, p.model, s.active) && Rated(p.ops, p.costs, p.model, s.active, rates)
    requires k in s.active && k in rates
    ensures DrainedUpTo(f.rounds, k, e) == Drained(s.rounds, k) + rates[k] * (e - s.now)
  {
    hide *;
    PhaseKeys(p, s);
    AgreeParts(p, s, f);
    BytesAlike(s, f, k);
    if s.now < e {
      ServedAt(p, f, k);
      FlowBegun(p, s, f, k);
      QuietEnd(s, f, e, k);
      assert SteadyRate(f.rounds, k, s.now, e, rates[k]) by {
        RatesSteady(p, s, f, e, rates, k);
      }
      Slope(f.rounds, k, f.begun[k], f.ends[k], s.now, e, rates[k]);
    }
  }

  lemma BytesAlike(s: Replay, f: Replay, k: nat)
    requires AgreeBytes(s, f) && k in s.active
    ensures DrainedUpTo(f.rounds, k, s.now) == Drained(s.rounds, k)
  {
    hide Drained, DrainedUpTo;
  }

  lemma RatesSteady(p: Plan, s: Replay, f: Replay, e: real, rates: map<nat, real>, k: nat)
    requires ValidPlan(p) && Faithful(p, f) && Agree(p, s, f) && Phases(p, s) && Books(p, s) && Clock(s)
    requires QuietUntil(s, f, e) && (forall x :: x in s.startup ==> s.startup[x] >= e) && s.now < e
    requires Costed(p.ops, p.costs, p.model, s.active) && Rated(p.ops, p.costs, p.model, s.active, rates)
    requires k in s.active && k in rates
    ensures SteadyRate(f.rounds, k, s.now, e, rates[k])
  {
    hide ValidPlan, Faithful, Agree, Phases, Books, Clock, QuietUntil, Rated, Costed;
    forall i | 0 <= i < |f.rounds| && k in f.rounds[i].rates && f.rounds[i].from < e && f.rounds[i].until > s.now
      ensures f.rounds[i].rates[k] == rates[k]
    {
      RoundHasRates(p, s, f, i, e, rates);
    }
  }

  lemma RateGrows(rate: real, d: real, e: real)
    requires rate > 0.0 && d < e
    ensures rate * d < rate * e
  {
    Positive(rate, d, e);
  }

  lemma RatePositive(p: Plan, active: set<nat>, rates: map<nat, real>, k: nat)
    requires Costed(p.ops, p.costs, p.model, active) && Rated(p.ops, p.costs, p.model, active, rates) && k in active
    ensures k in rates && rates[k] > 0.0
  {
    hide RatedInGroup, WithinCapacity;
  }

  lemma NextOverruns(p: Plan, s: Replay, rates: map<nat, real>, next: real, k: nat)
    requires s.active <= rates.Keys && s.active <= s.remaining.Keys && NextEvent(p, s, rates, next)
    ensures s.now < next
    ensures k in s.active ==> rates[k] * (next - s.now) <= s.remaining[k]
    ensures k in s.startup ==> next <= s.startup[k]
    ensures k in s.releases && k in p.ops ==> next <= p.ops[k].notBefore
  {
  }

  /** Nothing in progress is the first to end before the next event. */
  lemma NoEarlyEnd(p: Plan, s: Replay, f: Replay, e: real, rates: map<nat, real>, next: real, k: nat)
    requires ValidPlan(p) && Faithful(p, f) && Agree(p, s, f) && Phases(p, s) && Books(p, s) && Clock(s)
    requires s.active <= rates.Keys && s.active <= s.remaining.Keys && NextEvent(p, s, rates, next)
    requires Costed(p.ops, p.costs, p.model, s.active) && Rated(p.ops, p.costs, p.model, s.active, rates)
    requires s.now <= e < next && QuietUntil(s, f, e) && k in s.active + s.startup.Keys
    ensures k in f.ends && f.ends[k] != e
  {
    hide *;
    QuietEnd(s, f, e, k);
    forall x | x in s.startup ensures s.startup[x] >= e {
      NextOverruns(p, s, rates, next, x);
    }
    NextOverruns(p, s, rates, next, k);
    if k in s.startup {
      StartupEnds(p, s, f, k);
    } else {
      PhaseKeys(p, s);
      FlowBooks(p, s, k);
      ServedAt(p, f, k);
      RatePositive(p, s.active, rates, k);
      RateGrows(rates[k], e - s.now, next - s.now);
      FlowBytes(p, s, f, e, rates, k);
      UpToEnds(f.rounds, k, f.begun[k], f.ends[k], e);
    }
  }

  /** Nothing pending is the first to start before the next event. */
  lemma {:induction false} NoEarlyStart(p: Plan, s: Replay, f: Replay, rank: map<nat, nat>, e: real,
                                        rates: map<nat, real>, next: real, k: nat)
    requires ValidPlan(p) && Faithful(p, f) && Agree(p, s, f) && Phases(p, s) && Waits(p, s, {}) && Books(p, s)
    requires Clock(s)
    requires s.active <= rates.Keys && s.active <= s.remaining.Keys && NextEvent(p, s, rates, next)
    requires Costed(p.ops, p.costs, p.model, s.active) && Rated(p.ops, p.costs, p.model, s.active, rates)
    requires G.Closed(Dependencies(p.ops)) && G.Ranks(Dependencies(p.ops), rank)
    requires s.now <= e < next && QuietUntil(s, f, e) && k in s.pending && k in rank
    ensures k in f.starts && f.starts[k] != e
    decreases rank[k]
  {
    hide *;
    PhaseKeys(p, s);
    FaithfulKeys(p, f, k);
    if f.starts[k] == e {
      StartLimits(p, f.ends, k, e);
      if k in s.releases {
        NextOverruns(p, s, rates, next, k);
      } else {
        PendingWaits(p, s, k);
        var d :| d in p.ops[k].dependencies && d !in s.ends;
        StartAfter(p, f.ends, k, e, d);
        DependencyKnown(p, k, d);
        PhaseOf(p, s, d);
        if d in s.pending {
          RankFalls(p, rank, k, d);
          QuietStart(s, f, e, d);
          StartsBeforeEnds(p, f, d);
          NoEarlyStart(p, s, f, rank, e, rates, next, d);
        } else {
          QuietEnd(s, f, e, d);
          NoEarlyEnd(p, s, f, e, rates, next, d);
        }
      }
    }
  }

  lemma StartLimits(p: Plan, ends: map<nat, real>, k: nat, t: real)
    requires k in p.ops && IsStart(p, ends, k, t)
    ensures t >= p.ops[k].notBefore
  {
  }

  lemma StartAfter(p: Plan, ends: map<nat, real>, k: nat, t: real, d: nat)
    requires k in p.ops && IsStart(p, ends, k, t) && d in p.ops[k].dependencies
    ensures d in ends && ends[d] <= t
  {
  }

  /** When each operation next does something in f. */
  ghost function NextOf(p: Plan, s: Replay, f: Replay, k: nat): real {
    if k in s.pending then (if k in f.starts then f.starts[k] else 0.0) else if k in f.ends then f.ends[k] else 0.0
  }

  ghost function Soonest(p: Plan, s: Replay, f: Replay, keys: set<nat>): (k: nat)
    requires keys != {}
    ensures k in keys && forall x :: x in keys ==> NextOf(p, s, f, k) <= NextOf(p, s, f, x)
  {
    var x :| x in keys;
    var rest := keys - {x};
    if rest == {} then
      assert keys == {x};
      x
    else
      var y := Soonest(p, s, f, rest);
      assert forall z :: z in keys ==> z == x || z in rest;
      if NextOf(p, s, f, x) <= NextOf(p, s, f, y) then x else y
  }

  lemma NextIs(p: Plan, s: Replay, f: Replay, k: nat)
    requires Faithful(p, f) && Phases(p, s) && k in p.available && k !in s.ends
    ensures k in s.pending ==> k in f.starts && NextOf(p, s, f, k) == f.starts[k]
    ensures k !in s.pending ==> k in f.ends && NextOf(p, s, f, k) == f.ends[k]
  {
    FaithfulKeys(p, f, k);
    hide Faithful, Phases;
  }

  lemma QuietIs(s: Replay, f: Replay, e: real)
    requires forall k :: k in s.pending ==> k in f.starts && f.starts[k] >= e
    requires forall k :: k in s.active + s.startup.Keys ==> k in f.ends && f.ends[k] >= e
    ensures QuietUntil(s, f, e)
  {
  }

  lemma NotBeforeNow(p: Plan, s: Replay, f: Replay, k: nat)
    requires Faithful(p, f) && Agree(p, s, f) && Phases(p, s) && k in p.available && k !in s.ends
    ensures NextOf(p, s, f, k) >= s.now
  {
    hide *;
    NextIs(p, s, f, k);
    PhaseOf(p, s, k);
    AgreeParts(p, s, f);
    if k in s.pending {
      PendingStart(p, s, f, k);
    } else {
      RunningEnd(s, f, k);
    }
  }

  lemma SoonestIsQuiet(p: Plan, s: Replay, f: Replay, e: real)
    requires Faithful(p, f) && Phases(p, s)
    requires (forall x :: x in p.available && x !in s.ends ==> NextOf(p, s, f, x) >= e)
    ensures QuietUntil(s, f, e)
  {
    hide *;
    PhaseKeys(p, s);
    forall k | k in s.pending ensures k in f.starts && f.starts[k] >= e {
      NextIs(p, s, f, k);
    }
    forall k | k in s.active + s.startup.Keys ensures k in f.ends && f.ends[k] >= e {
      NextIs(p, s, f, k);
    }
    QuietIs(s, f, e);
  }

  /** Nothing happens in f before the next event. */
  lemma QuietTillNext(p: Plan, s: Replay, f: Replay, rates: map<nat, real>, next: real)
    requires ValidPlan(p) && Faithful(p, f) && Agree(p, s, f) && Phases(p, s) && Waits(p, s, {}) && Books(p, s)
    requires Clock(s)
    requires s.active <= rates.Keys && s.active <= s.remaining.Keys && NextEvent(p, s, rates, next)
    requires Costed(p.ops, p.costs, p.model, s.active) && Rated(p.ops, p.costs, p.model, s.active, rates)
    ensures QuietUntil(s, f, next)
  {
    hide *;
    DependenciesAcyclic(p);
    var rank :| G.Ranks(Dependencies(p.ops), rank);
    var left := p.available - s.ends.Keys;
    assert forall x :: x in p.available && x !in s.ends ==> x in left;
    if left != {} {
      var k := Soonest(p, s, f, left);
      var e := NextOf(p, s, f, k);
      NotBeforeNow(p, s, f, k);
      SoonestIsQuiet(p, s, f, e);
      NextIs(p, s, f, k);
      PhaseOf(p, s, k);
      if e < next {
        if k in s.pending {
          KnownRank(p, rank, k);
          NoEarlyStart(p, s, f, rank, e, rates, next, k);
        } else {
          NoEarlyEnd(p, s, f, e, rates, next, k);
        }
      }
    }
    SoonestIsQuiet(p, s, f, next);
  }

  lemma KnownRank(p: Plan, rank: map<nat, nat>, k: nat)
    requires ValidPlan(p) && G.Closed(Dependencies(p.ops)) && G.Ranks(Dependencies(p.ops), rank) && k in p.available
    ensures k in rank && k in p.ops
  {
    assert k in p.ops;
    RankKnown(p, rank, k);
  }

  lemma AdvancedFields(s: Replay, rates: map<nat, real>, next: real)
    requires s.active <= rates.Keys
    ensures var t := Advance(s, rates, next);
            t.starts == s.starts && t.waves == s.waves && t.alphas == s.alphas && t.ends == s.ends
              && t.pending == s.pending
            && t.now == next && t.rounds == s.rounds + [Round(s.now, next, rates)] && t.active == s.active
            && t.startup == s.startup
  {
  }

  lemma AdvancedBytes(s: Replay, rates: map<nat, real>, next: real, k: nat)
    requires k in rates
    ensures Drained(s.rounds + [Round(s.now, next, rates)], k) == Drained(s.rounds, k) + rates[k] * (next - s.now)
  {
    hide Drained;
    SnocRound(s.rounds, Round(s.now, next, rates), k, 0.0, 0.0);
  }

  lemma QuietAgrees(s: Replay, t: Replay, f: Replay)
    requires QuietUntil(s, f, t.now) && t.pending == s.pending && t.active == s.active && t.startup == s.startup
    ensures AgreePending(t, f) && AgreeRunning(t, f)
  {
  }

  lemma AgreeAdvance(p: Plan, s: Replay, f: Replay, rates: map<nat, real>, next: real)
    requires ValidPlan(p) && Faithful(p, f) && Agree(p, s, f) && Phases(p, s) && Waits(p, s, {}) && Books(p, s)
    requires Clock(s)
    requires s.active <= rates.Keys && s.active <= s.remaining.Keys && NextEvent(p, s, rates, next)
    requires Costed(p.ops, p.costs, p.model, s.active) && Rated(p.ops, p.costs, p.model, s.active, rates)
    ensures Agree(p, Advance(s, rates, next), f)
  {
    hide *;
    var t := Advance(s, rates, next);
    QuietTillNext(p, s, f, rates, next);
    AgreeParts(p, s, f);
    AdvancedFields(s, rates, next);
    StartedStay(p, s, t, f);
    EndedStay(s, t, f);
    QuietAgrees(s, t, f);
    forall k | k in t.active ensures DrainedUpTo(f.rounds, k, t.now) == Drained(t.rounds, k) {
      NextOverruns(p, s, rates, next, k);
      forall x | x in s.startup ensures s.startup[x] >= next {
        NextOverruns(p, s, rates, next, x);
      }
      FlowBytes(p, s, f, next, rates, k);
      AdvancedBytes(s, rates, next, k);
    }
    BytesAre(t, f);
    AgreeWhole(p, t, f);
  }

  lemma BytesAre(t: Replay, f: Replay)
    requires forall k :: k in t.active ==> DrainedUpTo(f.rounds, k, t.now) == Drained(t.rounds, k)
    ensures AgreeBytes(t, f)
  {
    hide Drained, DrainedUpTo;
  }

  // ---------------------------------------------------------------- refused rates

  /** With nothing due, what is pending starts later. */
  lemma {:induction false} PendingLater(p: Plan, s: Replay, f: Replay, rank: map<nat, nat>, k: nat)
    requires ValidPlan(p) && G.Closed(Dependencies(p.ops)) && G.Ranks(Dependencies(p.ops), rank)
    requires Faithful(p, f) && Agree(p, s, f) && Phases(p, s) && Waits(p, s, {}) && Books(p, s) && Clock(s) && Busy(s)
    requires (forall x :: !DueAt(p, s, x)) && k in s.pending && k in rank
    ensures k in f.starts && f.starts[k] > s.now
    decreases rank[k]
  {
    hide *;
    PhaseKeys(p, s);
    FaithfulKeys(p, f, k);
    PendingStart(p, s, f, k);
    if f.starts[k] == s.now {
      var d := BlockerOf(p, s, f, k);
      BlockerStartsNow(p, s, f, k, d);
      DependencyKnown(p, k, d);
      RankFalls(p, rank, k, d);
      PendingLater(p, s, f, rank, d);
    }
  }

  /** The round of f in force now rates exactly the active operations. */
  lemma RoundNow(p: Plan, s: Replay, f: Replay, rank: map<nat, nat>, i: nat, k: nat)
    requires ValidPlan(p) && G.Closed(Dependencies(p.ops)) && G.Ranks(Dependencies(p.ops), rank)
    requires Faithful(p, f) && Agree(p, s, f) && Phases(p, s) && Waits(p, s, {}) && Books(p, s) && Clock(s) && Busy(s)
    requires (forall x :: !DueAt(p, s, x)) && (forall x :: x in s.startup ==> s.startup[x] > s.now)
    requires i < |f.rounds| && f.rounds[i].from <= s.now < f.rounds[i].until && k in p.available
    ensures k in f.rounds[i].rates <==> k in s.active
  {
    hide *;
    PhaseKeys(p, s);
    PhaseOf(p, s, k);
    FaithfulTimeline(p, f);
    if IsData(p, k) {
      ServedAt(p, f, k);
      InsideIs(f.rounds, k, f.begun[k], f.ends[k], i);
      if k in s.active {
        FlowBegun(p, s, f, k);
        EndsLater(p, s, f, k);
      } else if k in s.startup {
        StartupEnds(p, s, f, k);
      } else if k in s.pending {
        KnownRank(p, rank, k);
        PendingLater(p, s, f, rank, k);
      } else {
        AgreeParts(p, s, f);
        EndedAlike(s, f, k);
        EndedBefore(s, k);
      }
    } else {
      InstantIdles(p, f, k, i);
    }
  }

  lemma RoundMeetsNow(p: Plan, s: Replay, f: Replay, k: nat) returns (i: nat)
    requires ValidPlan(p) && Faithful(p, f) && Agree(p, s, f) && Phases(p, s) && Books(p, s) && Clock(s) && Busy(s)
    requires k in s.active
    ensures i < |f.rounds| && f.rounds[i].from <= s.now < f.rounds[i].until
  {
    hide *;
    PhaseKeys(p, s);
    ServedAt(p, f, k);
    FlowBegun(p, s, f, k);
    EndsLater(p, s, f, k);
    TilesCover(f.rounds, k, f.begun[k], f.ends[k], s.now);
    var x :| 0 <= x < |f.rounds| && k in f.rounds[x].rates && f.rounds[x].from <= s.now < f.rounds[x].until;
    i := x;
  }

  lemma RefusedKey(p: Plan, active: set<nat>, e: RateError) returns (k: nat)
    requires SomeGroupRefused(p.ops, p.model, Communicating(p.ops, active), e)
    ensures k in active
  {
    var g: seq<nat> :| C.Known(g, p.ops) && Distinct(g)
        && C.IsComponent(p.ops, Communicating(p.ops, active), Elements(g)) && Refused(p.ops, p.model, g, e);
    ComponentWithin(p.ops, Communicating(p.ops, active), Elements(g));
    var x :| x in Elements(g);
    k := x;
  }

  /** Refused rates refute every faithful replay. */
  lemma RefusedRatesRefute(p: Plan, s: Replay, f: Replay, e: RateError)
    requires ValidPlan(p) && Agree(p, s, f) && Phases(p, s) && Waits(p, s, {}) && Books(p, s) && Clock(s) && Busy(s)
    requires (forall x :: !DueAt(p, s, x)) && (forall x :: x in s.startup ==> s.startup[x] > s.now)
    requires SomeGroupRefused(p.ops, p.model, Communicating(p.ops, s.active), e)
    requires Costed(p.ops, p.costs, p.model, s.active) && ValidOperations(p.ops)
    ensures !Faithful(p, f)
  {
    hide *;
    if Faithful(p, f) {
      var k := RefusedKey(p, s.active, e);
      var rates := RatesInForce(p, s, f, k);
      RefusedIsUnrated(p.ops, p.costs, p.model, s.active, rates, e);
    }
  }

  /** While something is active, f has a round in force that rates exactly what is active. */
  lemma RatesInForce(p: Plan, s: Replay, f: Replay, k: nat) returns (rates: map<nat, real>)
    requires ValidPlan(p) && Faithful(p, f) && Agree(p, s, f)
    requires Phases(p, s) && Waits(p, s, {}) && Books(p, s) && Clock(s) && Busy(s) && k in s.active
    requires (forall x :: !DueAt(p, s, x)) && (forall x :: x in s.startup ==> s.startup[x] > s.now)
    ensures rates.Keys == s.active && Costed(p.ops, p.costs, p.model, s.active)
        && Rated(p.ops, p.costs, p.model, s.active, rates)
  {
    hide *;
    var i := RoundMeetsNow(p, s, f, k);
    DependenciesAcyclic(p);
    var rank :| G.Ranks(Dependencies(p.ops), rank);
    PhaseKeys(p, s);
    RoundKnown(p, f, i);
    rates := f.rounds[i].rates;
    forall x ensures x in rates <==> x in s.active {
      if x in p.available {
        RoundNow(p, s, f, rank, i, x);
      }
    }
    assert rates.Keys == s.active;
    RoundRated(p, f.rounds[i]);
  }

  lemma RoundRated(p: Plan, r: Round)
    requires RoundValid(p, r)
    ensures Costed(p.ops, p.costs, p.model, r.rates.Keys) && Rated(p.ops, p.costs, p.model, r.rates.Keys, r.rates)
  {
    hide Rated, Costed;
  }

  // ---------------------------------------------------------------- every faithful replay at once

  lemma ForcedBegin(p: Plan, s: Replay, k: nat)
    requires ValidPlan(p) && Forced(p, s) && Phases(p, s) && Books(p, s) && Clock(s) && k in s.startup
    requires s.startup[k] <= s.now
    ensures Forced(p, BeginFlow(s, k))
  {
    hide ValidPlan, Faithful, Agree, Phases, Books, Clock, BeginFlow;
    forall f: Replay | Faithful(p, f) ensures Agree(p, BeginFlow(s, k), f) {
      AgreeBegin(p, s, f, k);
    }
  }

  lemma ForcedLaunch(p: Plan, s: Replay, k: nat, present: set<nat>, alphas: map<nat, real>, batch: set<nat>)
    requires ValidPlan(p) && Forced(p, s) && Phases(p, s) && k in s.pending && IsData(p, k) && k in alphas && k in batch
    requires BatchForced(p, s.now, LastPass(s), batch, alphas)
    ensures Forced(p, Launch(p, s, k, present, alphas[k]))
  {
    hide ValidPlan, Faithful, Agree, Phases, Launch, LaunchesAlike;
    forall f: Replay | Faithful(p, f) ensures Agree(p, Launch(p, s, k, present, alphas[k]), f) {
      AgreeLaunch(p, s, f, k, present, alphas);
    }
  }

  lemma ForcedInstant(p: Plan, s: Replay, k: nat, alphas: map<nat, real>, batch: set<nat>)
    requires Forced(p, s) && Phases(p, s) && k in s.pending && !IsData(p, k) && k in batch
    requires BatchForced(p, s.now, LastPass(s), batch, alphas)
    ensures Forced(p, LaunchNop(p, s, k))
  {
    hide Faithful, Agree, Phases, LaunchNop, LaunchesAlike;
    forall f: Replay | Faithful(p, f) ensures Agree(p, LaunchNop(p, s, k), f) {
      AgreeInstant(p, s, f, k, alphas);
    }
  }

  lemma ForcedFinish(p: Plan, s: Replay, k: nat)
    requires ValidPlan(p) && Forced(p, s) && Phases(p, s) && Books(p, s) && k in s.active && k in s.remaining
    requires s.remaining[k] == 0.0
    ensures Forced(p, Finish(p, s, k))
  {
    hide ValidPlan, Faithful, Agree, Phases, Books, Finish;
    forall f: Replay | Faithful(p, f) ensures Agree(p, Finish(p, s, k), f) {
      AgreeFinish(p, s, f, k);
    }
  }

  lemma ForcedAdvance(p: Plan, s: Replay, rates: map<nat, real>, next: real)
    requires ValidPlan(p) && Forced(p, s) && Phases(p, s) && Waits(p, s, {}) && Books(p, s) && Clock(s)
    requires s.active <= rates.Keys && s.active <= s.remaining.Keys && NextEvent(p, s, rates, next)
    requires Costed(p.ops, p.costs, p.model, s.active) && Rated(p.ops, p.costs, p.model, s.active, rates)
    ensures Forced(p, Advance(s, rates, next))
  {
    hide ValidPlan, Faithful, Agree, Phases, Waits, Books, Clock, Advance, NextEvent, Costed, Rated;
    forall f: Replay | Faithful(p, f) ensures Agree(p, Advance(s, rates, next), f) {
      AgreeAdvance(p, s, f, rates, next);
    }
  }

  lemma ForcedRefusal(p: Plan, s: Replay, e: RateError)
    requires ValidPlan(p) && Forced(p, s) && Phases(p, s) && Waits(p, s, {}) && Books(p, s) && Clock(s) && Busy(s)
    requires (forall x :: !DueAt(p, s, x)) && (forall x :: x in s.startup ==> s.startup[x] > s.now)
    requires SomeGroupRefused(p.ops, p.model, Communicating(p.ops, s.active), e)
    requires Costed(p.ops, p.costs, p.model, s.active) && ValidOperations(p.ops)
    ensures forall f: Replay :: !Faithful(p, f)
  {
    hide ValidPlan, Faithful, Agree, Phases, Waits, Books, Clock, Busy, SomeGroupRefused, Costed, ValidOperations,
    DueAt;
    forall f: Replay ensures !Faithful(p, f) {
      if Faithful(p, f) {
        RefusedRatesRefute(p, s, f, e);
      }
    }
  }

  /** Popping leaves everything recorded as it was. */
  lemma ForcedPop(p: Plan, s: Replay, ready: set<nat>)
    requires Forced(p, s)
    ensures Forced(p, Pop(s, ready))
  {
    hide Faithful, Agree;
    forall f: Replay | Faithful(p, f) ensures Agree(p, Pop(s, ready), f) {
      AgreePop(p, s, f, ready);
    }
  }

  lemma AgreePop(p: Plan, s: Replay, f: Replay, ready: set<nat>)
    requires Agree(p, s, f)
    ensures Agree(p, Pop(s, ready), f)
  {
    hide Drained, DrainedUpTo;
    StartedStay(p, s, Pop(s, ready), f);
  }

  /** Before anything has happened every replay agrees. */
  lemma NothingForced(p: Plan, s: Replay)
    requires s.now == 0.0 && s.starts == map[] && s.ends == map[] && s.active == {} && s.startup == map[]
    requires s.pending <= p.available
    ensures Forced(p, s)
  {
    hide Faithful, Agree;
    forall f: Replay | Faithful(p, f) ensures Agree(p, s, f) {
      StartsInTime(p, f);
      NothingDiffers(p, s, f);
    }
  }

  lemma StartsInTime(p: Plan, f: Replay)
    requires Faithful(p, f)
    ensures forall k :: k in p.available ==> k in f.starts && 0.0 <= f.starts[k]
  {
    hide IsStart, IsWave, Idle, Served, Timeline, AlwaysDecided;
  }

  lemma NothingDiffers(p: Plan, s: Replay, f: Replay)
    requires s.now == 0.0 && s.starts == map[] && s.ends == map[] && s.active == {} && s.startup == map[]
    requires s.pending <= p.available
    requires forall k :: k in p.available ==> k in f.starts && 0.0 <= f.starts[k]
    ensures Agree(p, s, f)
  {
    hide SameLaunch, Drained, DrainedUpTo;
  }

  /** Starts and ends are the same, and so are startups. */
  ghost predicate SameTimes(p: Plan, a: Replay, b: Replay) {
    && a.starts == b.starts && a.ends == b.ends
    && forall k :: k in p.available && IsData(p, k) ==>
         k in a.begun && k in b.begun && k in a.alphas && k in b.alphas && a.begun[k] == b.begun[k]
           && a.alphas[k] == b.alphas[k]
  }

  lemma ForcedAt(p: Plan, s: Replay, f: Replay)
    requires Forced(p, s) && Faithful(p, f)
    ensures Agree(p, s, f)
  {
    hide Agree, Faithful;
  }

  lemma FaithfulDomains(p: Plan, f: Replay)
    requires Faithful(p, f)
    ensures f.starts.Keys == p.available && f.ends.Keys == p.available
  {
    hide IsStart, IsWave, Idle, Served, Timeline, AlwaysDecided;
  }

  /** A finished replay that was forced has the times of every faithful one. */
  lemma FinishedIsForced(p: Plan, s: Replay, f: Replay)
    requires ValidPlan(p) && Forced(p, s) && Faithful(p, s) && Faithful(p, f)
    ensures SameTimes(p, s, f)
  {
    hide *;
    ForcedAt(p, s, f);
    AgreeParts(p, s, f);
    FaithfulDomains(p, s);
    FaithfulDomains(p, f);
    forall k | k in p.available ensures s.starts[k] == f.starts[k] && s.ends[k] == f.ends[k] {
      LaunchedAlike(p, s, f, k);
      EndedAlike(s, f, k);
    }
    assert s.starts == f.starts && s.ends == f.ends;
    forall k | k in p.available && IsData(p, k)
      ensures k in s.begun && k in f.begun && k in s.alphas && k in f.alphas && s.begun[k] == f.begun[k]
          && s.alphas[k] == f.alphas[k]
    {
      ServedAt(p, s, k);
      ServedAt(p, f, k);
      LaunchedAlike(p, s, f, k);
    }
    TimesAre(p, s, f);
  }

  lemma TimesAre(p: Plan, a: Replay, b: Replay)
    requires a.starts == b.starts && a.ends == b.ends
    requires forall k :: k in p.available && IsData(p, k) ==>
               k in a.begun && k in b.begun && k in a.alphas && k in b.alphas && a.begun[k] == b.begun[k]
                 && a.alphas[k] == b.alphas[k]
    ensures SameTimes(p, a, b)
  {
  }
}
