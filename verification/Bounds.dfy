/** What every faithful replay guarantees: bandwidth and critical-path bounds
    (vericcl/performance/simulation.py, predict with exact=True). */
module Bounds {
  import opened Basics
  import opened CostModel
  import opened RealSums
  import opened Rates
  import opened RateChoice
  import opened Replaying
  import opened Faithfulness
  import opened Predictor

  // ---------------------------------------------------------------- instants

  /** The rates in force at time t. */
  ghost function RatesAt(rounds: seq<Round>, t: real): (r: map<nat, real>)
    ensures r == map[] || exists i :: 0 <= i < |rounds| && rounds[i].from <= t < rounds[i].until && r == rounds[i].rates
  {
    if i :| 0 <= i < |rounds| && rounds[i].from <= t < rounds[i].until then rounds[i].rates else map[]
  }

  /** Startup paid, bytes left. */
  ghost predicate InFlight(p: Plan, s: Replay, k: nat, t: real) {
    IsData(p, k) && k in s.begun && k in s.ends && s.begun[k] <= t < s.ends[k]
  }

  lemma OneRoundAt(rounds: seq<Round>, t: real, i: nat)
    requires Chronological(rounds) && i < |rounds| && rounds[i].from <= t < rounds[i].until
    ensures RatesAt(rounds, t) == rounds[i].rates
  {
  }

  /** At every instant exactly the operations in flight drain, and through every resource they fit its capacity. */
  lemma EveryInstantFits(p: Plan, s: Replay, t: real)
    requires ValidPlan(p) && Faithful(p, s)
    ensures forall k :: k in p.available ==> (k in RatesAt(s.rounds, t) <==> InFlight(p, s, k, t))
    ensures WithinCapacity(p.ops, p.model, RatesAt(s.rounds, t))
  {
    hide ValidPlan, WithinCapacity, RoundValid, Served, Tiles;
    FaithfulTimeline(p, s);
    forall k | k in p.available ensures k in RatesAt(s.rounds, t) <==> InFlight(p, s, k, t) {
      InFlightAt(p, s, t, k);
    }
    if RatesAt(s.rounds, t) == map[] {
      NothingFits(p);
    } else {
      var i :| 0 <= i < |s.rounds| && s.rounds[i].from <= t < s.rounds[i].until
          && RatesAt(s.rounds, t) == s.rounds[i].rates;
      RoundFits(p, s, i);
    }
  }

  lemma NothingFits(p: Plan)
    requires ValidPlan(p)
    ensures WithinCapacity(p.ops, p.model, map[])
  {
    var none: map<nat, real> := map[];
    forall r | r in p.model.resources ensures Total(none, Users(p.ops, none.Keys, r)) <= p.model.resources[r] {
      assert Users(p.ops, none.Keys, r) == {};
    }
  }

  lemma RoundFits(p: Plan, s: Replay, i: nat)
    requires Faithful(p, s) && i < |s.rounds|
    ensures WithinCapacity(p.ops, p.model, s.rounds[i].rates) && s.rounds[i].rates.Keys <= p.available
    ensures 0.0 <= s.rounds[i].from < s.rounds[i].until
  {
    assert RoundValid(p, s.rounds[i]);
  }

  lemma InFlightAt(p: Plan, s: Replay, t: real, k: nat)
    requires ValidPlan(p) && Faithful(p, s) && k in p.available
    ensures k in RatesAt(s.rounds, t) <==> InFlight(p, s, k, t)
  {
    hide *;
    FaithfulTimeline(p, s);
    if InFlight(p, s, k, t) {
      InFlightParts(p, s, k, t);
      ServedParts(p, s, k);
      TilesCover(s.rounds, k, s.begun[k], s.ends[k], t);
      var i :| 0 <= i < |s.rounds| && k in s.rounds[i].rates && s.rounds[i].from <= t < s.rounds[i].until;
      OneRoundAt(s.rounds, t, i);
    }
    if k in RatesAt(s.rounds, t) {
      var i :| 0 <= i < |s.rounds| && s.rounds[i].from <= t < s.rounds[i].until
          && RatesAt(s.rounds, t) == s.rounds[i].rates;
      RatedIsInFlight(p, s, k, i, t);
    }
  }

  lemma InFlightParts(p: Plan, s: Replay, k: nat, t: real)
    requires InFlight(p, s, k, t)
    ensures IsData(p, k) && k in s.begun && k in s.ends && s.begun[k] <= t < s.ends[k]
  {
  }

  lemma RatedIsInFlight(p: Plan, s: Replay, k: nat, i: nat, t: real)
    requires ValidPlan(p) && Faithful(p, s) && k in p.available && i < |s.rounds|
    requires k in s.rounds[i].rates && s.rounds[i].from <= t < s.rounds[i].until
    ensures InFlight(p, s, k, t)
  {
    RoundHoldsInFlight(p, s, i, k);
    ServedParts(p, s, k);
    hide ValidPlan, Faithful, Tiles, Drained, Served;
  }

  // ---------------------------------------------------------------- bandwidth

  ghost function DrainedBy(rounds: seq<Round>, users: set<nat>): map<nat, real> {
    map k | k in users :: Drained(rounds, k)
  }

  ghost function RateIn(r: Round, users: set<nat>): map<nat, real> {
    map k | k in users :: if k in r.rates then r.rates[k] else 0.0
  }

  /** Zeros outside a subset add nothing. */
  lemma {:induction false} TotalOfPart(all: map<nat, real>, s: set<nat>, part: map<nat, real>, u: set<nat>)
    requires s <= all.Keys && u <= s && u <= part.Keys
    requires forall k :: k in s ==> all[k] == if k in u then part[k] else 0.0
    ensures Total(all, s) == Total(part, u)
    decreases s
  {
    if s != {} {
      var x := Pick(s);
      TotalOfPart(all, s - {x}, part, u - {x});
      if x in u {
        TotalAdd(part, u - {x}, x);
        assert u - {x} + {x} == u;
      } else {
        assert u - {x} == u;
      }
    }
  }

  lemma {:induction false} TotalZero(m: map<nat, real>, s: set<nat>)
    requires s <= m.Keys && forall k :: k in s ==> m[k] == 0.0
    ensures Total(m, s) == 0.0
    decreases s
  {
    if s != {} {
      TotalZero(m, s - {Pick(s)});
    }
  }

  /** Rounds from time zero on, each within the capacity of r. */
  ghost predicate AllCarry(p: Plan, rounds: seq<Round>, users: set<nat>, r: nat)
    requires r in p.model.resources
  {
    forall i :: 0 <= i < |rounds| ==> rounds[i].from >= 0.0 && RoundCarries(p, rounds[i], users, r)
  }

  ghost predicate UsedUntil(rounds: seq<Round>, users: set<nat>, x: real) {
    forall i, k :: 0 <= i < |rounds| && k in users && k in rounds[i].rates ==> rounds[i].until <= x
  }

  lemma InitRounds(p: Plan, rounds: seq<Round>, users: set<nat>, r: nat, x: real)
    requires r in p.model.resources && rounds != []
    requires Chronological(rounds) && AllCarry(p, rounds, users, r) && UsedUntil(rounds, users, x)
    ensures var n := |rounds| - 1;
            Chronological(rounds[..n]) && AllCarry(p, rounds[..n], users, r) && UsedUntil(rounds[..n], users, x)
            && UsedUntil(rounds[..n], users, rounds[n].from)
            && 0.0 <= rounds[n].from < rounds[n].until && RoundCarries(p, rounds[n], users, r)
            && ((exists k :: k in users && k in rounds[n].rates) ==> rounds[n].until <= x)
  {
    hide RoundCarries;
  }

  /** Bytes drained through r by the first rounds, when those with users of r end by x. */
  lemma {:induction false} CarriedBy(p: Plan, rounds: seq<Round>, users: set<nat>, r: nat, x: real)
    requires r in p.model.resources && p.model.resources[r] > 0.0 && x >= 0.0
    requires Chronological(rounds) && AllCarry(p, rounds, users, r) && UsedUntil(rounds, users, x)
    ensures Total(DrainedBy(rounds, users), users) <= p.model.resources[r] * x
    decreases |rounds|
  {
    hide Chronological, AllCarry, UsedUntil, Drained, Total;
    if rounds == [] {
      NothingCarried(users);
    } else {
      var n := |rounds| - 1;
      var last, init := rounds[n], rounds[..n];
      var cap := p.model.resources[r];
      LastRound(rounds, users);
      InitRounds(p, rounds, users, r, x);
      if exists k :: k in users && k in last.rates {
        CarriedBy(p, init, users, r, last.from);
        Capped(cap, Total(RateIn(last, users), users), Total(DrainedBy(init, users), users), last.from, last.until, x);
      } else {
        CarriedBy(p, init, users, r, x);
        TotalZero(RateIn(last, users), users);
      }
    }
  }

  lemma NothingCarried(users: set<nat>)
    ensures Total(DrainedBy([], users), users) == 0.0
  {
    TotalZero(DrainedBy([], users), users);
  }

  ghost predicate RoundCarries(p: Plan, round: Round, users: set<nat>, r: nat)
    requires r in p.model.resources
  {
    Total(RateIn(round, users), users) <= p.model.resources[r]
  }

  lemma LastRound(rounds: seq<Round>, users: set<nat>)
    requires rounds != []
    ensures var n := |rounds| - 1;
            Total(DrainedBy(rounds, users), users)
            == Total(DrainedBy(rounds[..n], users), users)
            + Total(RateIn(rounds[n], users), users) * (rounds[n].until - rounds[n].from)
  {
    var n := |rounds| - 1;
    TotalLinear(DrainedBy(rounds[..n], users), RateIn(rounds[n], users), rounds[n].until - rounds[n].from,
                DrainedBy(rounds, users), users);
  }

  lemma Capped(cap: real, rate: real, before: real, from: real, until: real, x: real)
    requires cap > 0.0 && rate <= cap && from <= until <= x && before <= cap * from
    ensures before + rate * (until - from) <= cap * x
  {
    assert rate * (until - from) <= cap * (until - from);
    assert cap * from + cap * (until - from) == cap * until;
    assert cap * until <= cap * x;
  }

  lemma UsersRate(p: Plan, s: Replay, i: nat, r: nat)
    requires Faithful(p, s) && i < |s.rounds| && r in p.model.resources
    ensures RoundCarries(p, s.rounds[i], Users(p.ops, p.available, r), r)
  {
    RoundFits(p, s, i);
    var rates := s.rounds[i].rates;
    var users := Users(p.ops, p.available, r);
    TotalOfPart(RateIn(s.rounds[i], users), users, rates, Users(p.ops, rates.Keys, r));
  }

  ghost function Payloads(ops: Operations, keys: set<nat>): map<nat, real> {
    map k | k in keys && k in ops :: ops[k].payload as real
  }

  /** All bytes of available operations on a resource fit its capacity times any time by which they end. */
  lemma BandwidthBound(p: Plan, s: Replay, r: nat, t: real)
    requires ValidPlan(p) && Faithful(p, s) && r in p.model.resources && t >= 0.0
    requires forall k :: k in Users(p.ops, p.available, r) ==> s.ends[k] <= t
    ensures Total(Payloads(p.ops, p.available), Users(p.ops, p.available, r)) <= p.model.resources[r] * t
  {
    var users := Users(p.ops, p.available, r);
    FaithfulTimeline(p, s);
    hide Faithful, ValidPlan, RoundCarries, Total, Payloads, Chronological;
    CapacityPositive(p, r);
    forall i | 0 <= i < |s.rounds| ensures s.rounds[i].from >= 0.0 && RoundCarries(p, s.rounds[i], users, r) {
      RoundFits(p, s, i);
      UsersRate(p, s, i, r);
    }
    forall i, k | 0 <= i < |s.rounds| && k in users && k in s.rounds[i].rates ensures s.rounds[i].until <= t {
      UsedBefore(p, s, i, k);
    }
    CarriedBy(p, s.rounds, users, r, t);
    UsersPayloads(p, s, users);
  }

  lemma CapacityPositive(p: Plan, r: nat)
    requires ValidPlan(p) && r in p.model.resources
    ensures p.model.resources[r] > 0.0
  {
  }

  lemma UsedBefore(p: Plan, s: Replay, i: nat, k: nat)
    requires ValidPlan(p) && Faithful(p, s) && i < |s.rounds| && k in p.available && k in s.rounds[i].rates
    ensures k in s.ends && s.rounds[i].until <= s.ends[k]
  {
    RoundHoldsInFlight(p, s, i, k);
  }

  lemma DrainsPayload(p: Plan, s: Replay, k: nat)
    requires ValidPlan(p) && Faithful(p, s) && k in p.available
    ensures k in p.ops && Drained(s.rounds, k) == p.ops[k].payload as real
  {
    if !IsData(p, k) {
      assert p.ops[k].Valid();
      IdleDrainsNothing(s.rounds, k, 0.0);
    }
  }

  lemma UsersKeys(p: Plan, s: Replay, users: set<nat>)
    requires users <= p.available
    requires forall k :: k in users ==> k in p.ops && Drained(s.rounds, k) == p.ops[k].payload as real
    ensures users <= DrainedBy(s.rounds, users).Keys && users <= Payloads(p.ops, p.available).Keys
    ensures forall k :: k in users ==> DrainedBy(s.rounds, users)[k] == Payloads(p.ops, p.available)[k]
  {
    hide Drained;
  }

  lemma UsersPayloads(p: Plan, s: Replay, users: set<nat>)
    requires ValidPlan(p) && Faithful(p, s) && users <= p.available
    ensures Total(DrainedBy(s.rounds, users), users) == Total(Payloads(p.ops, p.available), users)
  {
    hide *;
    forall k | k in users ensures k in p.ops && Drained(s.rounds, k) == p.ops[k].payload as real {
      DrainsPayload(p, s, k);
    }
    UsersKeys(p, s, users);
    TotalSame(DrainedBy(s.rounds, users), Payloads(p.ops, p.available), users);
  }

  /** The predicted time leaves every resource enough time for all its bytes. */
  lemma PredictedBandwidth(ops: Operations, outputs: set<nat>, m: Model, x: Prediction, r: nat)
    requires ValidOperations(ops) && m.Valid() && Graphs.Acyclic(Dependencies(ops))
    requires IsPrediction(ops, outputs, m, x) && x.tPred.Some? && r in m.resources
    ensures Total(Payloads(ops, ops.Keys), Users(ops, ops.Keys, r)) <= m.resources[r] * x.tPred.value
  {
    hide *;
    var p := PlanFor(ops, m, x.unavailable);
    PredictedParts(ops, outputs, m, x);
    LatestBounds(x.replay.ends, ops.Keys, x.tPred.value);
    NotNegative(p, x.replay, x.tPred.value);
    UsersAmong(ops, ops.Keys, r);
    BandwidthBound(p, x.replay, r, x.tPred.value);
  }

  lemma PredictedParts(ops: Operations, outputs: set<nat>, m: Model, x: Prediction)
    requires ValidOperations(ops) && m.Valid() && Graphs.Acyclic(Dependencies(ops))
    requires IsPrediction(ops, outputs, m, x) && x.tPred.Some?
    ensures var p := PlanFor(ops, m, x.unavailable);
            ValidPlan(p) && Faithful(p, x.replay) && p.ops == ops && p.model == m && p.available == ops.Keys
    ensures x.replay.ends.Keys == ops.Keys && IsLatest(x.replay.ends, ops.Keys, x.tPred.value)
  {
    hide ValidPlan, Faithful, IsUnavailable, ValidOperations, IsLatest;
    PlanIsValid(ops, m, x.unavailable);
  }

  lemma UsersAmong(ops: Operations, keys: set<nat>, r: nat)
    ensures Users(ops, keys, r) <= keys
  {
  }

  lemma LatestBounds(ends: map<nat, real>, keys: set<nat>, t: real)
    requires keys <= ends.Keys && IsLatest(ends, keys, t)
    ensures forall k :: k in keys ==> ends[k] <= t
  {
  }

  lemma NotNegative(p: Plan, s: Replay, t: real)
    requires ValidPlan(p) && Faithful(p, s) && IsLatest(s.ends, p.available, t)
    ensures t >= 0.0
  {
    if p.available != {} {
      var k :| k in p.available && s.ends[k] == t;
      Lasts(p, s, k);
    }
  }

  lemma Lasts(p: Plan, s: Replay, k: nat)
    requires ValidPlan(p) && Faithful(p, s) && k in p.available
    ensures 0.0 <= s.starts[k] <= s.ends[k]
  {
    if IsData(p, k) {
      DrainsForAWhile(p, s, k);
      AlphaNonNegative(p, k, s.modes[k], s.alphas[k]);
    }
  }

  // ---------------------------------------------------------------- critical path

  lemma {:induction false} DrainBound(rounds: seq<Round>, k: nat, a: real, b: real, rate: real)
    requires Tiles(rounds, k, a, b)
    requires forall i :: 0 <= i < |rounds| && k in rounds[i].rates ==>
        rounds[i].from < rounds[i].until && rounds[i].rates[k] <= rate
    ensures Drained(rounds, k) <= rate * (b - a)
    decreases |rounds|
  {
    if rounds != [] {
      var n := |rounds| - 1;
      var last, init := rounds[n], rounds[..n];
      if k in last.rates {
        DrainBound(init, k, a, last.from, rate);
        assert last.rates[k] * (last.until - last.from) <= rate * (last.until - last.from);
        Distribute(rate, last.from - a, last.until - last.from);
      } else {
        DrainBound(init, k, a, b, rate);
      }
    }
  }

  /** Startup plus the bytes at the operation's own service rate. */
  ghost function ServiceTime(p: Plan, k: nat): real {
    if IsData(p, k) && k in p.costs then p.costs[k].alpha + p.costs[k].beta * (p.ops[k].payload as real) else 0.0
  }

  lemma OwnRateLimits(p: Plan, s: Replay, i: nat, k: nat)
    requires ValidPlan(p) && Faithful(p, s) && p.model.profiles == [] && i < |s.rounds| && k in s.rounds[i].rates
    ensures k in p.costs && s.rounds[i].rates[k] <= 1.0 / p.costs[k].beta && s.rounds[i].from < s.rounds[i].until
  {
    var r := s.rounds[i];
    assert RoundValid(p, r);
    RatesWithoutProfiles(p.ops, p.costs, p.model, r.rates.Keys, r.rates, k);
  }

  lemma OwnStartup(p: Plan, present: set<nat>, k: nat, alpha: real)
    requires k in p.ops && k in p.costs && p.model.profiles == [] && IsLaunchAlpha(p, present, k, alpha)
    ensures alpha == p.costs[k].alpha
  {
    if p.ops[k].Communicates() {
      var found :| DecidedFor(p.ops, p.model, present, k, found) && alpha == OfferedAlpha(p, k, found);
    }
  }

  lemma InstantEnds(p: Plan, s: Replay, k: nat)
    requires Faithful(p, s) && k in p.available
    ensures k in s.starts && k in s.ends && (!IsData(p, k) ==> s.ends[k] == s.starts[k])
  {
  }

  /** Without profiles no operation finishes faster than its own service. */
  lemma AtLeastServiceTime(p: Plan, s: Replay, k: nat)
    requires ValidPlan(p) && Faithful(p, s) && p.model.profiles == [] && k in p.available
    ensures s.ends[k] - s.starts[k] >= ServiceTime(p, k)
  {
    hide Faithful, IsLaunchAlpha, Tiles, Drained;
    InstantEnds(p, s, k);
    if IsData(p, k) {
      ServedParts(p, s, k);
      var cost := p.costs[k];
      assert cost.Valid();
      hide ValidPlan;
      forall i | 0 <= i < |s.rounds| && k in s.rounds[i].rates
        ensures s.rounds[i].from < s.rounds[i].until && s.rounds[i].rates[k] <= 1.0 / cost.beta
      {
        OwnRateLimits(p, s, i, k);
      }
      DrainBound(s.rounds, k, s.begun[k], s.ends[k], 1.0 / cost.beta);
      OwnStartup(p, s.modes[k], k, s.alphas[k]);
      ServedLength(cost.beta, p.ops[k].payload as real, s.ends[k] - s.begun[k]);
    }
  }

  lemma ServedLength(beta: real, bytes: real, length: real)
    requires beta > 0.0 && bytes <= (1.0 / beta) * length
    ensures beta * bytes <= length
  {
    assert beta * ((1.0 / beta) * length) == length;
  }

  /** Each operation depends on the one before it. */
  ghost predicate Chain(p: Plan, path: seq<nat>) {
    && (forall i :: 0 <= i < |path| ==> path[i] in p.available && path[i] in p.ops)
    && (forall i :: 0 <= i < |path| - 1 ==> path[i] in p.ops[path[i + 1]].dependencies)
  }

  ghost function ServiceSum(p: Plan, path: seq<nat>): real {
    if path == [] then 0.0 else ServiceSum(p, path[..|path| - 1]) + ServiceTime(p, path[|path| - 1])
  }

  /** No chain of dependencies ends before the sum of its services. */
  lemma {:induction false} CriticalPath(p: Plan, s: Replay, path: seq<nat>)
    requires ValidPlan(p) && Faithful(p, s) && p.model.profiles == [] && Chain(p, path) && path != []
    ensures ServiceSum(p, path) <= s.ends[path[|path| - 1]]
    decreases |path|
  {
    hide *;
    var n := |path| - 1;
    var init, last := path[..n], path[n];
    ChainLast(p, path);
    AtLeastServiceTime(p, s, last);
    StartsAfter(p, s, last);
    if n > 0 {
      CriticalPath(p, s, init);
    } else {
      NoService(p);
    }
  }

  /** A chain is one operation behind a shorter chain. */
  lemma ChainLast(p: Plan, path: seq<nat>)
    requires Chain(p, path) && path != []
    ensures var n := |path| - 1;
            && path[n] in p.available && path[n] in p.ops && Chain(p, path[..n])
            && (n > 0 ==> path[n - 1] in p.ops[path[n]].dependencies)
            && ServiceSum(p, path) == ServiceSum(p, path[..n]) + ServiceTime(p, path[n])
  {
    hide ServiceTime;
    var n := |path| - 1;
    if n > 0 {
      assert path[n - 1] in p.ops[path[n - 1 + 1]].dependencies;
    }
  }

  lemma NoService(p: Plan)
    ensures ServiceSum(p, []) == 0.0
  {
  }

  lemma StartsAfter(p: Plan, s: Replay, k: nat)
    requires Faithful(p, s) && k in p.available && k in p.ops
    ensures k in s.starts && s.starts[k] >= 0.0
    ensures forall d :: d in p.ops[k].dependencies ==> d in s.ends && s.starts[k] >= s.ends[d]
  {
    hide IsWave, Served, Timeline, AlwaysDecided, Idle;
    assert IsStart(p, s.ends, k, s.starts[k]);
  }

  lemma ChainEnds(p: Plan, path: seq<nat>)
    requires Chain(p, path) && path != []
    ensures path[|path| - 1] in p.available
  {
  }

  /** The predicted time is at least the service along any dependency chain. */
  lemma PredictedCriticalPath(ops: Operations, outputs: set<nat>, m: Model, x: Prediction, path: seq<nat>)
    requires ValidOperations(ops) && m.Valid() && Graphs.Acyclic(Dependencies(ops))
    requires IsPrediction(ops, outputs, m, x) && x.tPred.Some? && m.profiles == []
    requires Chain(PlanFor(ops, m, x.unavailable), path) && path != []
    ensures ServiceSum(PlanFor(ops, m, x.unavailable), path) <= x.tPred.value
  {
    hide *;
    var p := PlanFor(ops, m, x.unavailable);
    PredictedParts(ops, outputs, m, x);
    CriticalPath(p, x.replay, path);
    ChainEnds(p, path);
    LatestBounds(x.replay.ends, ops.Keys, x.tPred.value);
  }
}
