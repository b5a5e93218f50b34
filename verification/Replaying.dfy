/** The state of one exact replay and what every elementary step keeps
    (vericcl/performance/simulation.py, predict and its nested complete). */
module Replaying {
  import opened Basics
  import opened CostModel
  import opened Rates
  import opened RateChoice
  import C = Components
  import G = Graphs

  /** What is replayed: operations, their costs, the model, and the operations whose cost is known. */
  datatype Plan = Plan(ops: Operations, costs: map<nat, ServiceCost>, model: Model, available: set<nat>)

  ghost predicate ValidPlan(p: Plan) {
    && ValidOperations(p.ops) && p.model.Valid()
    && G.Acyclic(Dependencies(p.ops))
    && p.available <= p.ops.Keys
    && (forall k :: k in p.available ==> p.ops[k].dependencies <= p.available)
    && (forall k :: k in p.available && !p.ops[k].kind.Nop? ==> k in p.costs)
    && (forall k :: k in p.costs ==> p.costs[k].Valid())
    && (forall k :: k in p.available ==> p.ops[k].resources <= p.model.resources.Keys)
  }

  /** Rates in force between two neighbouring event times; each active operation drains at its rate. */
  datatype Round = Round(from: real, until: real, rates: map<nat, real>)

  datatype Replay = Replay(
    now: real,
    pending: set<nat>,
    releases: set<nat>,          // heap of operations without unfinished dependencies, keyed by hard release time
    degrees: map<nat, int>,
    startup: map<nat, real>,     // end of the startup being paid
    active: set<nat>,
    remaining: map<nat, real>,
    alphas: map<nat, real>,      // startup charged at launch
    modes: map<nat, set<nat>>,   // operations present when the startup was chosen
    waves: map<nat, nat>,        // in which launching pass of its instant an operation was launched
    wave: nat,                   // launching passes so far at this instant
    starts: map<nat, real>,
    begun: map<nat, real>,       // startup_complete events
    ends: map<nat, real>,
    rounds: seq<Round>)

  ghost predicate IsData(p: Plan, k: nat) {
    k in p.ops && !p.ops[k].kind.Nop?
  }

  // ---------------------------------------------------------------- what the rounds say about one operation

  /** Bytes drained by k. */
  ghost function Drained(rounds: seq<Round>, k: nat): real {
    if rounds == [] then 0.0
    else
      var last := rounds[|rounds| - 1];
      Drained(rounds[..|rounds| - 1], k) + (if k in last.rates then last.rates[k] * (last.until - last.from) else 0.0)
  }

  /** The rounds in which k drains follow one another without gap or overlap from `from` to `until`. */
  ghost predicate Tiles(rounds: seq<Round>, k: nat, from: real, until: real) {
    if rounds == [] then from == until
    else
      var last := rounds[|rounds| - 1];
      var init := rounds[..|rounds| - 1];
      if k in last.rates then last.until == until && Tiles(init, k, from, last.from)
      else Tiles(init, k, from, until)
  }

  ghost predicate Idle(rounds: seq<Round>, k: nat) {
    forall i :: 0 <= i < |rounds| ==> k !in rounds[i].rates
  }

  lemma {:induction false} IdleDrainsNothing(rounds: seq<Round>, k: nat, t: real)
    requires Idle(rounds, k)
    ensures Drained(rounds, k) == 0.0 && Tiles(rounds, k, t, t)
    decreases |rounds|
  {
    if rounds != [] {
      IdleDrainsNothing(rounds[..|rounds| - 1], k, t);
    }
  }

  lemma SnocRound(rounds: seq<Round>, r: Round, k: nat, from: real, until: real)
    ensures Drained(rounds + [r], k)
        == Drained(rounds, k) + (if k in r.rates then r.rates[k] * (r.until - r.from) else 0.0)
    ensures k !in r.rates ==> (Tiles(rounds + [r], k, from, until) <==> Tiles(rounds, k, from, until))
    ensures k in r.rates && Tiles(rounds, k, from, r.from) ==> Tiles(rounds + [r], k, from, r.until)
    ensures Idle(rounds, k) && k !in r.rates ==> Idle(rounds + [r], k)
  {
    assert (rounds + [r])[..|rounds|] == rounds;
  }

  // ---------------------------------------------------------------- invariants

  ghost predicate Phases(p: Plan, s: Replay) {
    && p.available == s.pending + s.startup.Keys + s.active + s.ends.Keys
    && s.pending !! s.startup.Keys && s.pending !! s.active && s.pending !! s.ends.Keys
    && s.startup.Keys !! s.active && s.startup.Keys !! s.ends.Keys && s.active !! s.ends.Keys
    && s.starts.Keys == p.available - s.pending
    && (forall k :: k in s.startup.Keys + s.active ==> IsData(p, k))
    && (forall k :: k in s.begun <==> k in s.active || (k in s.ends && IsData(p, k)))
    && s.startup.Keys + s.active <= s.remaining.Keys
    && (forall k :: k in s.starts && IsData(p, k) ==> k in s.alphas)
  }

  /** The earliest moment the recorded decisions allow. */
  ghost predicate IsStart(p: Plan, ends: map<nat, real>, k: nat, t: real)
    requires k in p.ops
  {
    && p.ops[k].dependencies <= ends.Keys
    && t >= 0.0 && t >= p.ops[k].notBefore
    && (forall d :: d in p.ops[k].dependencies ==> t >= ends[d])
    && (t == 0.0 || t == p.ops[k].notBefore || exists d :: d in p.ops[k].dependencies && t == ends[d])
  }

  ghost predicate Timely(p: Plan, s: Replay, k: nat)
    requires k in p.ops
  {
    s.now == 0.0 || s.now <= p.ops[k].notBefore
      || exists d :: d in p.ops[k].dependencies && d in s.ends && s.ends[d] == s.now
  }

  /** `popped` holds operations taken from the heap at this instant and not launched yet. */
  ghost predicate Waits(p: Plan, s: Replay, popped: set<nat>) {
    && s.pending <= p.ops.Keys && s.pending <= s.degrees.Keys
    && (forall k :: k in s.pending ==> s.degrees[k] == |p.ops[k].dependencies - s.ends.Keys|)
    && s.releases !! popped
    && (forall k :: k in s.releases || k in popped <==> k in s.pending && p.ops[k].dependencies <= s.ends.Keys)
  }

  ghost predicate Punctual(p: Plan, s: Replay, popped: set<nat>) {
    && (forall k :: k in s.releases + popped ==> k in p.ops && Timely(p, s, k))
    && (forall k :: k in popped ==> p.ops[k].notBefore <= s.now)
  }

  ghost predicate Clock(s: Replay) {
    && s.now >= 0.0
    && (forall k :: k in s.starts ==> 0.0 <= s.starts[k] <= s.now)
    && (forall k :: k in s.begun ==> s.begun[k] <= s.now)
    && (forall k :: k in s.ends ==> s.ends[k] <= s.now)
    && (forall k :: k in s.startup ==> s.startup[k] >= s.now)
  }

  ghost predicate Started(p: Plan, s: Replay) {
    forall k :: k in s.starts ==> k in p.ops && IsStart(p, s.ends, k, s.starts[k])
  }

  /** A profile's startup counts only for the flows it lists. */
  function OfferedAlpha(p: Plan, k: nat, found: Option<RateProfile>): real
    requires k in p.ops && k in p.costs
  {
    if found.Some? && p.ops[k].flow in found.value.startup then found.value.startup[p.ops[k].flow] else p.costs[k].alpha
  }

  /** The startup of k: the launch-time profile's if it lists the flow, else the service cost's. */
  ghost predicate IsLaunchAlpha(p: Plan, present: set<nat>, k: nat, alpha: real)
    requires k in p.ops && k in p.costs
  {
    if !p.ops[k].Communicates() then alpha == p.costs[k].alpha
    else exists found :: DecidedFor(p.ops, p.model, present, k, found) && alpha == OfferedAlpha(p, k, found)
  }

  /** Byte accounting of one operation. */
  ghost predicate Accounted(p: Plan, s: Replay, k: nat)
    requires Phases(p, s)
  {
    if k in s.pending then Idle(s.rounds, k)
    else if k in s.startup then
      && Idle(s.rounds, k) && s.remaining[k] == p.ops[k].payload as real
      && s.startup[k] == s.starts[k] + s.alphas[k]
    else if k in s.active then
      && s.begun[k] == s.starts[k] + s.alphas[k]
      && Tiles(s.rounds, k, s.begun[k], s.now)
      && Drained(s.rounds, k) + s.remaining[k] == p.ops[k].payload as real
    else if k in s.ends && IsData(p, k) then
      && s.begun[k] == s.starts[k] + s.alphas[k]
      && Tiles(s.rounds, k, s.begun[k], s.ends[k])
      && Drained(s.rounds, k) == p.ops[k].payload as real
    else if k in s.ends then s.ends[k] == s.starts[k] && Idle(s.rounds, k)
    else true
  }

  ghost predicate Books(p: Plan, s: Replay) {
    && Phases(p, s)
    && (forall k :: k in p.available ==> Accounted(p, s, k))
    && (forall k :: k in s.starts && IsData(p, k) ==> Charged(p, s, k))
  }

  /** Everything the accounting of x looks at is the same. */
  ghost predicate Alike(s: Replay, t: Replay, x: nat) {
    && t.rounds == s.rounds && t.now == s.now
    && (x in t.pending <==> x in s.pending) && (x in t.active <==> x in s.active)
    && (x in t.startup <==> x in s.startup) && (x in s.startup && x in t.startup ==> t.startup[x] == s.startup[x])
    && (x in t.ends <==> x in s.ends) && (x in s.ends && x in t.ends ==> t.ends[x] == s.ends[x])
    && (x in s.starts && x in t.starts ==> t.starts[x] == s.starts[x])
    && (x in s.remaining && x in t.remaining ==> t.remaining[x] == s.remaining[x])
    && (x in s.alphas && x in t.alphas ==> t.alphas[x] == s.alphas[x])
    && (x in s.begun && x in t.begun ==> t.begun[x] == s.begun[x])
  }

  /** One operation is in one phase, with the records of that phase. */
  ghost predicate PhaseAt(p: Plan, s: Replay, x: nat) {
    && (x in p.available <==> x in s.pending || x in s.startup || x in s.active || x in s.ends)
    && (x in s.starts <==> x in p.available && x !in s.pending)
    && !(x in s.pending && (x in s.startup || x in s.active || x in s.ends))
    && !(x in s.startup && (x in s.active || x in s.ends))
    && !(x in s.active && x in s.ends)
    && (x in s.startup || x in s.active ==> x in s.remaining && IsData(p, x))
    && (x in s.active || (x in s.ends && IsData(p, x)) <==> x in s.begun)
    && (x in s.starts && IsData(p, x) ==> x in s.alphas)
  }

  lemma PhasesAt(p: Plan, s: Replay, x: nat)
    requires Phases(p, s)
    ensures PhaseAt(p, s, x)
  {
  }

  lemma PhasesAre(p: Plan, s: Replay)
    requires forall x :: PhaseAt(p, s, x)
    ensures Phases(p, s)
  {
    forall x: nat
      ensures x in p.available <==> x in s.pending + s.startup.Keys + s.active + s.ends.Keys
      ensures x in s.starts <==> x in p.available - s.pending
      ensures !(x in s.pending && (x in s.startup || x in s.active || x in s.ends))
      ensures !(x in s.startup && (x in s.active || x in s.ends)) && !(x in s.active && x in s.ends)
      ensures x in s.startup.Keys + s.active ==> x in s.remaining && IsData(p, x)
      ensures x in s.begun <==> x in s.active || (x in s.ends && IsData(p, x))
      ensures x in s.starts && IsData(p, x) ==> x in s.alphas
    {
      assert PhaseAt(p, s, x);
    }
    hide PhaseAt;
  }

  lemma SameAccount(p: Plan, s: Replay, t: Replay, x: nat)
    requires Phases(p, s) && Phases(p, t) && Accounted(p, s, x) && Alike(s, t, x)
    ensures Accounted(p, t, x)
  {
    PhasesAt(p, s, x);
    PhasesAt(p, t, x);
    hide Phases, Idle, Tiles, Drained;
  }

  lemma AccountAt(p: Plan, s: Replay, x: nat)
    requires Books(p, s) && x in p.available
    ensures Phases(p, s) && Accounted(p, s, x)
  {
    hide Phases, Accounted, Charged;
  }

  lemma BooksPhases(p: Plan, s: Replay)
    requires Books(p, s)
    ensures Phases(p, s)
  {
    hide Phases, Accounted, Charged;
  }

  lemma BooksAre(p: Plan, s: Replay, t: Replay)
    requires Books(p, s) && Phases(p, t) && forall x :: x in p.available ==> Accounted(p, t, x)
    requires t.modes == s.modes && t.alphas == s.alphas
    requires forall x :: x in t.starts && IsData(p, x) ==> x in s.starts
    ensures Books(p, t)
  {
    hide Phases, Accounted, IsLaunchAlpha;
    forall x | x in t.starts && IsData(p, x) ensures Charged(p, t, x) {
      assert Charged(p, s, x);
    }
  }

  ghost predicate Charged(p: Plan, s: Replay, k: nat)
    requires k in p.ops
  {
    && k in p.costs && k in s.modes && k in s.alphas
    && IsLaunchAlpha(p, s.modes[k], k, s.alphas[k])
  }

  function DataOf(p: Plan, keys: set<nat>): set<nat> {
    set x | x in keys && x in p.ops && !p.ops[x].kind.Nop?
  }

  /** The data operations present after pass w at a time: launched before it or in a pass up to w, and not ended. */
  ghost function PresentAt(p: Plan, s: Replay, time: real, w: nat): set<nat> {
    set x | x in s.starts && IsData(p, x) && x in s.waves
            && ((s.starts[x] < time && (x in s.ends ==> s.ends[x] > time)) || (s.starts[x] == time && s.waves[x] <= w))
  }

  /** The same while a batch is being launched: `popped` belongs to the last pass of this instant. */
  ghost function PresentIn(p: Plan, s: Replay, popped: set<nat>, time: real, w: nat): set<nat> {
    PresentAt(p, s, time, w) + if time == s.now && s.wave <= w + 1 then DataOf(p, popped) else {}
  }

  /** A pass that has taken place. */
  ghost predicate Passed(s: Replay, time: real, w: nat) {
    time < s.now || (time == s.now && w < s.wave)
  }

  /** Each startup was chosen for what was present in its pass. */
  ghost predicate Modes(p: Plan, s: Replay, popped: set<nat>) {
    forall k :: k in s.modes ==>
      k in s.starts && k in s.waves && DataOf(p, s.modes[k]) == PresentIn(p, s, popped, s.starts[k], s.waves[k])
  }

  /** In every pass every component had its profile decided. */
  ghost predicate Clear(p: Plan, s: Replay, popped: set<nat>) {
    forall time: real, w: nat :: 0.0 <= time && Passed(s, time, w) ==>
        Decided(p.ops, p.model, PresentIn(p, s, popped, time, w))
  }

  /** d is an instant operation that k waited for up to the very moment of its launch. */
  ghost predicate Chains(p: Plan, starts: map<nat, real>, d: nat, k: nat) {
    k in p.ops && d in p.ops[k].dependencies && d in starts && k in starts && !IsData(p, d) && starts[d] == starts[k]
  }

  /** The pass of k: one after the last instant operation it waited for at that moment. */
  ghost predicate IsWave(p: Plan, starts: map<nat, real>, waves: map<nat, nat>, k: nat)
    requires k in waves
  {
    && (forall d :: Chains(p, starts, d, k) ==> d in waves && waves[d] < waves[k])
    && (waves[k] == 0 || exists d :: Chains(p, starts, d, k) && d in waves && waves[d] + 1 == waves[k])
  }

  /** k waited for an instant operation of pass w at this instant. */
  ghost predicate Follows(p: Plan, s: Replay, k: nat, w: nat) {
    k in p.ops && exists d ::
      d in p.ops[k].dependencies && !IsData(p, d) && d in s.starts && s.starts[d] == s.now && d in s.waves
        && s.waves[d] == w
  }

  /** Every launched operation is in its pass, those of this instant in one that has begun. */
  ghost predicate AllWaves(p: Plan, s: Replay) {
    && s.waves.Keys == s.starts.Keys
    && (forall k :: k in s.starts && s.starts[k] == s.now ==> s.waves[k] < s.wave)
    && (forall k :: k in s.starts ==> IsWave(p, s.starts, s.waves, k))
  }

  /** What is due has been released by the last pass. */
  ghost predicate DueFollows(p: Plan, s: Replay) {
    forall k :: k in s.releases && k in p.ops && p.ops[k].notBefore <= s.now ==>
        s.wave == 0 || Follows(p, s, k, s.wave - 1)
  }

  /** What is being launched was released by the pass before. */
  ghost predicate BatchFollows(p: Plan, s: Replay, popped: set<nat>) {
    && (popped != {} ==> s.wave >= 1)
    && (forall k :: k in popped ==> k in p.ops && (s.wave >= 2 ==> Follows(p, s, k, s.wave - 2)))
    && (forall k, w: nat :: k in popped && Follows(p, s, k, w) ==> w + 1 < s.wave)
  }

  /** Draining takes time. */
  ghost predicate TakesTime(p: Plan, s: Replay) {
    forall k :: k in s.ends && k in s.starts && IsData(p, k) ==> s.starts[k] < s.ends[k]
  }

  ghost predicate Waved(p: Plan, s: Replay, popped: set<nat>) {
    AllWaves(p, s) && DueFollows(p, s) && BatchFollows(p, s, popped) && TakesTime(p, s)
  }

  /** The operations present while this batch is launched. */
  ghost predicate PresentNow(p: Plan, s: Replay, present: set<nat>, popped: set<nat>) {
    s.wave >= 1 && DataOf(p, present) == PresentIn(p, s, popped, s.now, s.wave - 1)
  }

  /** Rounds are in time order, and each is rated as a whole. */
  ghost predicate Timeline(p: Plan, s: Replay) {
    && (forall i :: 0 <= i < |s.rounds| ==> RoundValid(p, s.rounds[i]) && s.rounds[i].until <= s.now)
    && (forall i, j :: 0 <= i < j < |s.rounds| ==> s.rounds[i].until <= s.rounds[j].from)
  }

  ghost predicate RoundValid(p: Plan, r: Round) {
    && 0.0 <= r.from < r.until
    && r.rates.Keys <= p.available
    && Costed(p.ops, p.costs, p.model, r.rates.Keys)
    && Rated(p.ops, p.costs, p.model, r.rates.Keys, r.rates)
  }

  ghost predicate Inv(p: Plan, s: Replay, popped: set<nat>) {
    && Phases(p, s) && Waits(p, s, popped) && Punctual(p, s, popped) && Clock(s) && Started(p, s)
    && Books(p, s) && Timeline(p, s) && Waved(p, s, popped) && Modes(p, s, popped) && Clear(p, s, popped)
  }

  ghost predicate Busy(s: Replay) {
    forall k :: k in s.active && k in s.remaining ==> s.remaining[k] > 0.0
  }

  // ---------------------------------------------------------------- elementary steps

  function BeginFlow(s: Replay, k: nat): Replay {
    s.(startup := s.startup - {k}, active := s.active + {k}, begun := s.begun[k := s.now])
  }

  function Launch(p: Plan, s: Replay, k: nat, present: set<nat>, alpha: real): Replay
    requires k in p.ops
  {
    s.(pending := s.pending - {k}, starts := s.starts[k := s.now],
       remaining := s.remaining[k := p.ops[k].payload as real],
       alphas := s.alphas[k := alpha], modes := s.modes[k := present], waves := s.waves[k := LastPass(s)],
       startup := s.startup[k := s.now + alpha])
  }

  function LastPass(s: Replay): nat {
    if s.wave == 0 then 0 else s.wave - 1
  }

  /** Taking a batch from the heap begins a pass. */
  function Pop(s: Replay, ready: set<nat>): Replay {
    s.(releases := s.releases - ready, wave := s.wave + 1)
  }

  function Complete(p: Plan, s: Replay, k: nat): Replay {
    s.(ends := s.ends[k := s.now],
       degrees := map f | f in s.degrees ::
         if f in s.pending && f in p.ops && k in p.ops[f].dependencies then s.degrees[f] - 1 else s.degrees[f],
       releases := s.releases
         + set f | f in s.pending && f in s.degrees && f in p.ops && k in p.ops[f].dependencies && s.degrees[f] == 1)
  }

  function LaunchNop(p: Plan, s: Replay, k: nat): Replay {
    Complete(p, Instant(s, k), k)
  }

  /** An instant operation at the moment of its launch. */
  function Instant(s: Replay, k: nat): Replay {
    s.(pending := s.pending - {k}, starts := s.starts[k := s.now], waves := s.waves[k := LastPass(s)])
  }

  function Finish(p: Plan, s: Replay, k: nat): Replay {
    Complete(p, s.(active := s.active - {k}), k)
  }

  function Drain(s: Replay, rates: map<nat, real>, next: real): map<nat, real>
    requires s.active <= rates.Keys
  {
    map k | k in s.remaining :: if k in s.active then s.remaining[k] - rates[k] * (next - s.now) else s.remaining[k]
  }

  function Advance(s: Replay, rates: map<nat, real>, next: real): Replay
    requires s.active <= rates.Keys
  {
    s.(now := next, wave := 0, remaining := Drain(s, rates, next), rounds := s.rounds + [Round(s.now, next, rates)])
  }

  // ---------------------------------------------------------------- completion

  lemma OneFewerWait(waits: set<nat>, done: set<nat>, k: nat)
    requires k !in done
    ensures |waits - (done + {k})| == if k in waits then |waits - done| - 1 else |waits - done|
    ensures waits <= done + {k} <==> waits <= done || (k in waits && |waits - done| == 1)
  {
    if k in waits {
      assert waits - done == (waits - (done + {k})) + {k};
      if |waits - done| == 1 {
        assert |waits - (done + {k})| == 0;
        assert waits - (done + {k}) == {};
      }
    } else {
      assert waits - done == waits - (done + {k});
    }
    if waits <= done + {k} {
      assert waits - (done + {k}) == {};
    }
  }

  /** What completing k does to one waiting operation. */
  lemma CompleteOne(p: Plan, s: Replay, k: nat, f: nat)
    requires f in s.pending && f in s.degrees && f in p.ops && k !in s.ends
    requires s.degrees[f] == |p.ops[f].dependencies - s.ends.Keys|
    ensures var t := Complete(p, s, k);
            f in t.degrees && t.degrees[f] == |p.ops[f].dependencies - t.ends.Keys|
            && (f in t.releases
              <==> f in s.releases || (k in p.ops[f].dependencies && p.ops[f].dependencies <= t.ends.Keys))
            && (k !in p.ops[f].dependencies ==>
              (p.ops[f].dependencies <= t.ends.Keys <==> p.ops[f].dependencies <= s.ends.Keys))
  {
    assert Complete(p, s, k).ends.Keys == s.ends.Keys + {k};
    OneFewerWait(p.ops[f].dependencies, s.ends.Keys, k);
  }

  lemma CompleteEach(p: Plan, s: Replay, k: nat, popped: set<nat>, f: nat)
    requires Waits(p, s, popped) && k !in s.ends && f in s.pending
    ensures var t := Complete(p, s, k);
            f in t.degrees && t.degrees[f] == |p.ops[f].dependencies - t.ends.Keys|
            && (f in t.releases || f in popped <==> p.ops[f].dependencies <= t.ends.Keys)
            && !(f in t.releases && f in popped)
  {
    CompleteOne(p, s, k, f);
    hide Complete;
    assert f in s.releases || f in popped <==> p.ops[f].dependencies <= s.ends.Keys;
    assert p.ops[f].dependencies <= s.ends.Keys ==> k !in p.ops[f].dependencies;
  }

  /** Completing k takes one wait off its followers and releases those that reach zero. */
  lemma CompleteWaits(p: Plan, s: Replay, k: nat, popped: set<nat>)
    requires Waits(p, s, popped) && k !in s.ends && k !in s.pending
    ensures Waits(p, Complete(p, s, k), popped)
  {
    WaitsKeys(p, s, popped);
    CompleteKeys(p, s, k);
    hide *;
    var t := Complete(p, s, k);
    forall f | f in s.pending
      ensures f in p.ops && f in t.degrees && t.degrees[f] == |p.ops[f].dependencies - t.ends.Keys|
      ensures f in t.releases || f in popped <==> p.ops[f].dependencies <= t.ends.Keys
      ensures !(f in t.releases && f in popped)
    {
      CompleteEach(p, s, k, popped, f);
    }
    WaitsAre(p, t, popped);
  }

  lemma WaitsKeys(p: Plan, s: Replay, popped: set<nat>)
    requires Waits(p, s, popped)
    ensures s.pending <= p.ops.Keys && s.pending <= s.degrees.Keys && s.releases <= s.pending && popped <= s.pending
  {
    forall k | k in s.releases ensures k in s.pending {
    }
    forall k | k in popped ensures k in s.pending {
    }
  }

  lemma WaitsAre(p: Plan, t: Replay, popped: set<nat>)
    requires t.releases <= t.pending && popped <= t.pending
    requires forall f :: f in t.pending ==>
               && f in p.ops && f in t.degrees && t.degrees[f] == |p.ops[f].dependencies - t.ends.Keys|
               && (f in t.releases || f in popped <==> p.ops[f].dependencies <= t.ends.Keys)
               && !(f in t.releases && f in popped)
    ensures Waits(p, t, popped)
  {
  }

  lemma CompleteKeys(p: Plan, s: Replay, k: nat)
    requires s.pending <= s.degrees.Keys
    ensures var t := Complete(p, s, k);
            t.pending == s.pending && t.ends.Keys == s.ends.Keys + {k} && t.degrees.Keys == s.degrees.Keys
              && t.releases - s.releases <= s.pending
  {
  }

  lemma CompletePunctual(p: Plan, s: Replay, k: nat, popped: set<nat>)
    requires Punctual(p, s, popped) && k !in s.ends
    ensures Punctual(p, Complete(p, s, k), popped)
  {
    var t := Complete(p, s, k);
    forall f | f in t.releases + popped ensures f in p.ops && Timely(p, t, f) {
      if f in s.releases + popped {
        assert Timely(p, s, f);
      } else {
        assert k in p.ops[f].dependencies && t.ends[k] == t.now;
      }
    }
  }

  lemma StartedKept(p: Plan, s: Replay, t: Replay)
    requires Started(p, s) && t.starts == s.starts
    requires s.ends.Keys <= t.ends.Keys && forall k :: k in s.ends ==> t.ends[k] == s.ends[k]
    ensures Started(p, t)
  {
    forall k | k in t.starts ensures k in p.ops && IsStart(p, t.ends, k, t.starts[k]) {
      assert IsStart(p, s.ends, k, s.starts[k]);
    }
  }

  /** A popped operation is launched exactly at its release moment. */
  lemma StartIsExact(p: Plan, s: Replay, popped: set<nat>, k: nat)
    requires Waits(p, s, popped) && Punctual(p, s, popped) && Clock(s) && k in popped
    ensures k in p.ops && IsStart(p, s.ends, k, s.now)
  {
    assert Timely(p, s, k);
  }

  /** Everything new in t happens at the present instant, and nothing recorded changes. */
  ghost predicate EventsNow(s: Replay, t: Replay) {
    && t.now == s.now && t.rounds == s.rounds
    && (forall k :: k in s.starts ==> k in t.starts && t.starts[k] == s.starts[k])
    && (forall k :: k in t.starts && k !in s.starts ==> t.starts[k] == s.now)
    && (forall k :: k in t.begun ==> t.begun[k] == s.now || (k in s.begun && t.begun[k] == s.begun[k]))
    && (forall k :: k in s.ends ==> k in t.ends && t.ends[k] == s.ends[k])
    && (forall k :: k in t.ends && k !in s.ends ==> t.ends[k] == s.now)
    && (forall k :: k in t.startup ==> t.startup[k] >= s.now || (k in s.startup && t.startup[k] == s.startup[k]))
  }

  lemma TimelineKept(p: Plan, s: Replay, t: Replay)
    requires Timeline(p, s) && EventsNow(s, t)
    ensures Timeline(p, t)
  {
    hide RoundValid;
  }

  lemma ClockKept(s: Replay, t: Replay)
    requires Clock(s) && EventsNow(s, t)
    ensures Clock(t)
  {
  }

  lemma InvParts(p: Plan, s: Replay, popped: set<nat>)
    requires Inv(p, s, popped)
    ensures Phases(p, s) && Waits(p, s, popped) && Punctual(p, s, popped) && Clock(s) && Started(p, s)
    ensures Books(p, s) && Timeline(p, s) && Waved(p, s, popped) && Modes(p, s, popped) && Clear(p, s, popped)
  {
    hide Phases, Waits, Punctual, Clock, Started, Books, Timeline, Waved, Modes, Clear;
  }

  lemma InvWhole(p: Plan, s: Replay, popped: set<nat>)
    requires Phases(p, s) && Waits(p, s, popped) && Punctual(p, s, popped) && Clock(s) && Started(p, s)
    requires Books(p, s) && Timeline(p, s) && Waved(p, s, popped) && Modes(p, s, popped) && Clear(p, s, popped)
    ensures Inv(p, s, popped)
  {
    hide Phases, Waits, Punctual, Clock, Started, Books, Timeline, Waved, Modes, Clear;
  }

  /** A start recorded at the present instant for a popped operation is exact. */
  lemma StartedNow(p: Plan, s: Replay, t: Replay, k: nat, popped: set<nat>)
    requires Waits(p, s, popped) && Punctual(p, s, popped) && Clock(s) && Started(p, s) && k in popped
    requires t.starts == s.starts[k := s.now] && EventsNow(s, t)
    ensures Started(p, t)
  {
    StartIsExact(p, s, popped, k);
    forall x | x in t.starts ensures x in p.ops && IsStart(p, t.ends, x, t.starts[x]) {
      if x == k {
        assert IsStart(p, s.ends, k, s.now);
      } else {
        assert IsStart(p, s.ends, x, s.starts[x]);
      }
    }
  }

  // ---------------------------------------------------------------- what was present

  /** The record of what was present in the passes so far does not change. */
  ghost predicate Kept(p: Plan, s: Replay, before: set<nat>, t: Replay, popped: set<nat>) {
    forall time: real, w: nat :: Passed(s, time, w) ==>
        PresentIn(p, t, popped, time, w) == PresentIn(p, s, before, time, w)
  }

  lemma ModesKept(p: Plan, s: Replay, before: set<nat>, t: Replay, popped: set<nat>)
    requires Modes(p, s, before) && Kept(p, s, before, t, popped) && Clock(s) && Waved(p, s, before)
    requires t.modes == s.modes
    requires forall k :: k in s.starts && k in s.waves ==>
        k in t.starts && k in t.waves && t.starts[k] == s.starts[k] && t.waves[k] == s.waves[k]
    ensures Modes(p, t, popped)
  {
    hide PresentIn, IsWave, Follows, DataOf;
    forall k | k in t.modes
      ensures k in t.starts && k in t.waves && DataOf(p, t.modes[k]) == PresentIn(p, t, popped, t.starts[k], t.waves[k])
    {
      assert Passed(s, s.starts[k], s.waves[k]);
    }
  }

  lemma ClearKept(p: Plan, s: Replay, before: set<nat>, t: Replay, popped: set<nat>)
    requires Clear(p, s, before) && Kept(p, s, before, t, popped) && t.now == s.now && t.wave == s.wave
    ensures Clear(p, t, popped)
  {
    hide PresentIn, Decided;
    forall time: real, w: nat | 0.0 <= time && Passed(t, time, w)
      ensures Decided(p.ops, p.model, PresentIn(p, t, popped, time, w))
    {
      assert Passed(s, time, w);
    }
  }

  lemma SameKept(p: Plan, s: Replay, t: Replay, popped: set<nat>)
    requires t.starts == s.starts && t.ends == s.ends && t.waves == s.waves && t.now == s.now && t.wave == s.wave
    ensures Kept(p, s, popped, t, popped)
  {
    hide DataOf;
  }

  lemma SameWaved(p: Plan, s: Replay, t: Replay)
    requires Waved(p, s, {}) && t.starts == s.starts && t.ends == s.ends && t.waves == s.waves && t.now == s.now
    requires t.wave == s.wave && t.releases == s.releases
    ensures Waved(p, t, {})
  {
    hide IsWave;
    forall k, w: nat ensures Follows(p, t, k, w) == Follows(p, s, k, w) {
    }
  }

  /** A batch member that has been launched counts as present through its record. */
  lemma LaunchKept(p: Plan, s: Replay, t: Replay, k: nat, popped: set<nat>)
    requires k in popped && IsData(p, k) && k !in s.starts && k !in s.ends && s.wave >= 1
    requires t.starts == s.starts[k := s.now] && t.waves == s.waves[k := s.wave - 1] && t.ends == s.ends
    requires t.now == s.now && t.wave == s.wave
    ensures Kept(p, s, popped, t, popped - {k})
  {
    forall time: real, w: nat | Passed(s, time, w)
      ensures PresentIn(p, t, popped - {k}, time, w) == PresentIn(p, s, popped, time, w)
    {
      forall x: nat ensures x in PresentIn(p, t, popped - {k}, time, w) <==> x in PresentIn(p, s, popped, time, w) {
      }
    }
  }

  lemma InstantKept(p: Plan, s: Replay, t: Replay, k: nat, popped: set<nat>)
    requires k in popped && !IsData(p, k)
    requires t.starts == s.starts[k := s.now] && t.waves == s.waves[k := LastPass(s)] && t.ends == s.ends[k := s.now]
    requires t.now == s.now && t.wave == s.wave
    ensures Kept(p, s, popped, t, popped - {k})
  {
    forall time: real, w: nat | Passed(s, time, w)
      ensures PresentIn(p, t, popped - {k}, time, w) == PresentIn(p, s, popped, time, w)
    {
      forall x: nat ensures x in PresentIn(p, t, popped - {k}, time, w) <==> x in PresentIn(p, s, popped, time, w) {
      }
    }
  }

  /** At a moment without launches an end changes no earlier record. */
  lemma FinishKept(p: Plan, s: Replay, t: Replay, k: nat)
    requires s.wave == 0 && k !in s.ends
    requires t.starts == s.starts && t.waves == s.waves && t.ends == s.ends[k := s.now] && t.now == s.now
    requires t.wave == s.wave
    ensures Kept(p, s, {}, t, {})
  {
    forall time: real, w: nat | Passed(s, time, w)
      ensures PresentIn(p, t, {}, time, w) == PresentIn(p, s, {}, time, w)
    {
      forall x: nat ensures x in PresentAt(p, t, time, w) <==> x in PresentAt(p, s, time, w) {
      }
    }
  }

  /** Waves of earlier launches do not change: what they waited for had been launched. */
  lemma WaveKept(p: Plan, s: Replay, starts: map<nat, real>, waves: map<nat, nat>, k: nat, x: nat)
    requires Phases(p, s) && Started(p, s) && x in s.starts && x in s.waves && k !in s.starts
    requires IsWave(p, s.starts, s.waves, x)
    requires starts == s.starts[k := s.now] && k !in s.waves && x in waves
    requires forall y :: y in s.waves ==> y in waves && waves[y] == s.waves[y]
    ensures IsWave(p, starts, waves, x)
  {
    assert IsStart(p, s.ends, x, s.starts[x]);
    forall d ensures Chains(p, starts, d, x) <==> Chains(p, s.starts, d, x) {
    }
  }

  /** A batch member is in the pass after those it waited for. */
  lemma WaveNow(p: Plan, s: Replay, starts: map<nat, real>, waves: map<nat, nat>, k: nat, popped: set<nat>)
    requires AllWaves(p, s) && BatchFollows(p, s, popped) && k in popped && k !in s.starts
    requires p.ops[k].dependencies <= s.starts.Keys
    requires starts == s.starts[k := s.now] && waves == s.waves[k := s.wave - 1]
    ensures IsWave(p, starts, waves, k)
  {
    hide IsWave;
    forall d | Chains(p, starts, d, k) ensures d in waves && waves[d] < waves[k] {
      assert Follows(p, s, k, s.waves[d]);
    }
    if s.wave >= 2 {
      assert Follows(p, s, k, s.wave - 2);
      var d :| d in p.ops[k].dependencies && !IsData(p, d) && d in s.starts && s.starts[d] == s.now && d in s.waves
          && s.waves[d] == s.wave - 2;
      assert Chains(p, starts, d, k);
    }
    WaveIs(p, starts, waves, k);
  }

  lemma WaveIs(p: Plan, starts: map<nat, real>, waves: map<nat, nat>, k: nat)
    requires k in waves && (forall d :: Chains(p, starts, d, k) ==> d in waves && waves[d] < waves[k])
    requires waves[k] == 0 || exists d :: Chains(p, starts, d, k) && d in waves && waves[d] + 1 == waves[k]
    ensures IsWave(p, starts, waves, k)
  {
    hide Chains;
  }

  /** What followed a pass still does, and nothing launched now is waited for by what was released before. */
  lemma FollowsKept(p: Plan, s: Replay, t: Replay, k: nat, x: nat, w: nat)
    requires s.waves.Keys == s.starts.Keys && k !in s.starts && x in p.ops
    requires t.starts == s.starts[k := s.now] && t.waves.Keys == t.starts.Keys && t.now == s.now
    requires forall y :: y in s.waves ==> t.waves[y] == s.waves[y]
    ensures Follows(p, s, x, w) ==> Follows(p, t, x, w)
    ensures k !in p.ops[x].dependencies && Follows(p, t, x, w) ==> Follows(p, s, x, w)
  {
    if Follows(p, s, x, w) {
      var d :| d in p.ops[x].dependencies && !IsData(p, d) && d in s.starts && s.starts[d] == s.now && d in s.waves
          && s.waves[d] == w;
      assert d in t.starts && t.starts[d] == t.now;
    }
  }

  lemma WaveAt(p: Plan, s: Replay, x: nat)
    requires AllWaves(p, s) && x in s.starts
    ensures x in s.waves && IsWave(p, s.starts, s.waves, x) && s.waves.Keys == s.starts.Keys
  {
    hide IsWave;
  }

  lemma WaveStays(p: Plan, s: Replay, t: Replay, k: nat, popped: set<nat>, x: nat)
    requires Phases(p, s) && Started(p, s) && Waits(p, s, popped) && AllWaves(p, s) && BatchFollows(p, s, popped)
    requires k in popped
    requires s.wave >= 1 && t.starts == s.starts[k := s.now] && t.waves == s.waves[k := s.wave - 1] && x in t.starts
    ensures x in t.waves && IsWave(p, t.starts, t.waves, x)
  {
    hide *;
    PoppedWaits(p, s, popped);
    if x == k {
      WaveNow(p, s, t.starts, t.waves, k, popped);
    } else {
      WaveAt(p, s, x);
      WaveKept(p, s, t.starts, t.waves, k, x);
    }
  }

  /** The launched operation and the earlier ones are in their passes. */
  lemma WavesExtended(p: Plan, s: Replay, t: Replay, k: nat, popped: set<nat>)
    requires Phases(p, s) && Started(p, s) && Waits(p, s, popped) && AllWaves(p, s) && BatchFollows(p, s, popped)
    requires k in popped
    requires s.wave >= 1 && t.starts == s.starts[k := s.now] && t.waves == s.waves[k := s.wave - 1] && t.now == s.now
    requires t.wave == s.wave
    ensures AllWaves(p, t)
  {
    hide IsWave, Phases, Started, Follows, Waits, BatchFollows;
    forall x | x in t.starts ensures x in t.waves && IsWave(p, t.starts, t.waves, x) {
      WaveStays(p, s, t, k, popped, x);
    }
    assert t.waves.Keys == t.starts.Keys;
  }

  lemma LaunchWaved(p: Plan, s: Replay, t: Replay, k: nat, popped: set<nat>)
    requires Phases(p, s) && Started(p, s) && Waits(p, s, popped) && Waved(p, s, popped) && k in popped && IsData(p, k)
    requires t.starts == s.starts[k := s.now] && t.waves == s.waves[k := s.wave - 1] && t.ends == s.ends
    requires t.now == s.now && t.wave == s.wave
    requires t.releases == s.releases
    ensures Waved(p, t, popped - {k})
  {
    PoppedWaits(p, s, popped);
    hide IsWave, Phases, Started, Follows, Waits, AllWaves, DueFollows, BatchFollows, TakesTime;
    AtLeastOnePass(p, s, popped, k);
    WavesExtended(p, s, t, k, popped);
    BatchShrinks(p, s, t, k, popped);
    LaunchTime(p, s, t, k);
    LaunchDueFollows(p, s, t, k, popped);
  }

  lemma LaunchTime(p: Plan, s: Replay, t: Replay, k: nat)
    requires TakesTime(p, s) && k !in s.ends && t.starts == s.starts[k := s.now]
    requires t.ends == s.ends || (!IsData(p, k) && t.ends == s.ends[k := s.now])
    ensures TakesTime(p, t)
  {
  }

  /** Popped and released operations wait only for what has ended. */
  lemma PoppedWaits(p: Plan, s: Replay, popped: set<nat>)
    requires Phases(p, s) && Waits(p, s, popped)
    ensures forall x :: x in popped || x in s.releases ==>
        x in p.ops && x in s.pending && p.ops[x].dependencies <= s.ends.Keys
    ensures s.ends.Keys <= s.starts.Keys && forall x :: x in popped ==> x !in s.starts && x !in s.ends
  {
  }

  lemma LaunchFollows(p: Plan, s: Replay, t: Replay, k: nat, x: nat, w: nat)
    requires s.waves.Keys == s.starts.Keys && k !in s.starts && k !in s.ends && x in p.ops
    requires p.ops[x].dependencies <= s.ends.Keys
    requires t.starts == s.starts[k := s.now] && s.wave >= 1 && t.waves == s.waves[k := s.wave - 1] && t.now == s.now
    requires t.wave == s.wave
    ensures Follows(p, t, x, w) <==> Follows(p, s, x, w)
  {
    FollowsKept(p, s, t, k, x, w);
  }

  lemma BatchShrinks(p: Plan, s: Replay, t: Replay, k: nat, popped: set<nat>)
    requires AllWaves(p, s) && BatchFollows(p, s, popped) && k in popped && k !in s.starts && k !in s.ends
    requires forall x :: x in popped || x in s.releases ==> x in p.ops && p.ops[x].dependencies <= s.ends.Keys
    requires t.starts == s.starts[k := s.now] && t.waves == s.waves[k := s.wave - 1] && t.now == s.now
    requires t.wave == s.wave
    ensures BatchFollows(p, t, popped - {k})
  {
    hide Follows, IsWave;
    forall x | x in popped ensures s.wave >= 2 ==> Follows(p, t, x, s.wave - 2) {
      if s.wave >= 2 {
        LaunchFollows(p, s, t, k, x, s.wave - 2);
      }
    }
    forall x, w: nat | x in popped && Follows(p, t, x, w) ensures w + 1 < s.wave {
      LaunchFollows(p, s, t, k, x, w);
    }
  }

  lemma LaunchDueFollows(p: Plan, s: Replay, t: Replay, k: nat, popped: set<nat>)
    requires AllWaves(p, s) && DueFollows(p, s) && k in popped && k !in s.starts && k !in s.ends && s.wave >= 1
    requires forall x :: x in popped || x in s.releases ==> x in p.ops && p.ops[x].dependencies <= s.ends.Keys
    requires t.starts == s.starts[k := s.now] && t.waves == s.waves[k := s.wave - 1] && t.now == s.now
    requires t.wave == s.wave
    requires forall x :: x in t.releases && x !in s.releases && x in p.ops ==> Follows(p, t, x, s.wave - 1)
    ensures DueFollows(p, t)
  {
    hide Follows, IsWave;
    forall x | x in s.releases && x in p.ops && p.ops[x].notBefore <= t.now ensures Follows(p, t, x, s.wave - 1) {
      LaunchFollows(p, s, t, k, x, s.wave - 1);
    }
  }

  lemma NewlyReleased(p: Plan, s: Replay, k: nat, x: nat)
    requires s.wave >= 1 && !IsData(p, k) && x in LaunchNop(p, s, k).releases && x !in s.releases && x in p.ops
    ensures Follows(p, LaunchNop(p, s, k), x, s.wave - 1)
  {
    var t := LaunchNop(p, s, k);
    assert k in p.ops[x].dependencies && k in t.starts && t.starts[k] == t.now && k in t.waves
        && t.waves[k] == s.wave - 1;
  }

  /** Completing an instant operation releases only what follows this pass. */
  lemma InstantWaved(p: Plan, s: Replay, t: Replay, k: nat, popped: set<nat>)
    requires Phases(p, s) && Started(p, s) && Waits(p, s, popped) && Waved(p, s, popped) && k in popped && !IsData(p, k)
    requires s.wave >= 1
    requires t == LaunchNop(p, s, k)
    requires t.starts == s.starts[k := s.now] && t.waves == s.waves[k := s.wave - 1] && t.ends == s.ends[k := s.now]
    requires t.now == s.now && t.wave == s.wave
    ensures Waved(p, t, popped - {k})
  {
    PoppedWaits(p, s, popped);
    hide IsWave, Phases, Started, Follows, Waits, AllWaves, DueFollows, BatchFollows, TakesTime, LaunchNop;
    AtLeastOnePass(p, s, popped, k);
    WavesExtended(p, s, t, k, popped);
    BatchShrinks(p, s, t, k, popped);
    LaunchTime(p, s, t, k);
    forall x | x in t.releases && x !in s.releases && x in p.ops ensures Follows(p, t, x, s.wave - 1) {
      NewlyReleased(p, s, k, x);
    }
    LaunchDueFollows(p, s, t, k, popped);
  }

  lemma FinishWaved(p: Plan, s: Replay, t: Replay, k: nat)
    requires Waved(p, s, {}) && Clock(s) && s.wave == 0 && k in s.starts
    requires t.starts == s.starts && t.waves == s.waves && t.ends == s.ends[k := s.now] && t.now == s.now && t.wave == 0
    ensures Waved(p, t, {})
  {
    hide IsWave;
    assert s.starts[k] < s.now;
  }

  // ---------------------------------------------------------------- startup complete

  lemma BeginFlowKeeps(p: Plan, s: Replay, k: nat)
    requires Inv(p, s, {}) && k in s.startup && s.startup[k] <= s.now
    ensures Inv(p, BeginFlow(s, k), {})
  {
    hide *;
    var t := BeginFlow(s, k);
    InvParts(p, s, {});
    BeginFlowEvents(p, s, k);
    BeginFlowPhases(p, s, k);
    StartedKept(p, s, t);
    ClockKept(s, t);
    TimelineKept(p, s, t);
    SameKept(p, s, t, {});
    SameWaved(p, s, t);
    ModesKept(p, s, {}, t, {});
    ClearKept(p, s, {}, t, {});
    WaitsKept(p, s, t);
    BeginFlowBooks(p, s, k);
    InvWhole(p, t, {});
  }

  lemma BeginFlowEvents(p: Plan, s: Replay, k: nat)
    requires Phases(p, s) && k in s.startup
    ensures var t := BeginFlow(s, k);
            EventsNow(s, t) && t.starts == s.starts && t.modes == s.modes && t.pending == s.pending
            && t.releases == s.releases && t.degrees == s.degrees && t.ends == s.ends && t.waves == s.waves
            && t.wave == s.wave
  {
  }

  /** Moving between startup, active and finished leaves the waiting operations as they were. */
  lemma WaitsKept(p: Plan, s: Replay, t: Replay)
    requires Waits(p, s, {}) && Punctual(p, s, {})
    requires t.pending == s.pending && t.releases == s.releases && t.degrees == s.degrees && t.ends == s.ends
    requires t.now == s.now
    ensures Waits(p, t, {}) && Punctual(p, t, {})
  {
    forall f | f in t.releases + {} ensures f in p.ops && Timely(p, t, f) {
      assert f in s.releases + {};
      assert Timely(p, s, f);
    }
  }

  lemma BeginFlowPhases(p: Plan, s: Replay, k: nat)
    requires Phases(p, s) && k in s.startup
    ensures Phases(p, BeginFlow(s, k))
  {
    var t := BeginFlow(s, k);
    hide Phases, BeginFlow, PhaseAt;
    forall x ensures PhaseAt(p, t, x) {
      PhasesAt(p, s, k);
      PhasesAt(p, s, x);
      BeginFlowPhaseAt(p, s, k, x);
    }
    PhasesAre(p, t);
  }

  lemma BeginFlowPhaseAt(p: Plan, s: Replay, k: nat, x: nat)
    requires k in s.startup && PhaseAt(p, s, k) && PhaseAt(p, s, x)
    ensures PhaseAt(p, BeginFlow(s, k), x)
  {
  }

  lemma BeginFlowBooks(p: Plan, s: Replay, k: nat)
    requires Books(p, s) && Clock(s) && k in s.startup && s.startup[k] <= s.now
    requires Phases(p, BeginFlow(s, k))
    ensures Books(p, BeginFlow(s, k))
  {
    hide *;
    var t := BeginFlow(s, k);
    BeginFlowFields(s, k);
    forall x | x in p.available ensures Accounted(p, t, x) {
      AccountAt(p, s, x);
      if x == k {
        BegunAccount(p, s, k);
      } else {
        BeginFlowAlike(s, k, x);
        SameAccount(p, s, t, x);
      }
    }
    BooksAre(p, s, t);
  }

  lemma BeginFlowFields(s: Replay, k: nat)
    ensures var t := BeginFlow(s, k); t.modes == s.modes && t.alphas == s.alphas && t.starts == s.starts
  {
  }

  lemma BeginFlowAlike(s: Replay, k: nat, x: nat)
    requires x != k
    ensures Alike(s, BeginFlow(s, k), x)
  {
  }

  lemma BegunAccount(p: Plan, s: Replay, k: nat)
    requires Phases(p, s) && Clock(s) && k in s.startup && s.startup[k] <= s.now && Accounted(p, s, k)
    requires Phases(p, BeginFlow(s, k))
    ensures Accounted(p, BeginFlow(s, k), k)
  {
    PhasesAt(p, s, k);
    hide Phases, Idle, Tiles, Drained;
    IdleDrainsNothing(s.rounds, k, s.now);
  }

  // ---------------------------------------------------------------- launch

  lemma LaunchKeeps(p: Plan, s: Replay, k: nat, present: set<nat>, alpha: real, popped: set<nat>)
    requires Inv(p, s, popped) && k in popped && IsData(p, k)
    requires ValidPlan(p) && PresentNow(p, s, present, popped)
    requires k in p.costs && IsLaunchAlpha(p, present, k, alpha)
    ensures Inv(p, Launch(p, s, k, present, alpha), popped - {k})
  {
    hide *;
    InvParts(p, s, popped);
    PoppedIsPending(p, s, popped, k);
    var t := Launch(p, s, k, present, alpha);
    AlphaNonNegative(p, k, present, alpha);
    LaunchEvents(p, s, k, present, alpha);
    LaunchPhases(p, s, k, present, alpha);
    LaunchWaits(p, s, t, k, popped);
    StartedNow(p, s, t, k, popped);
    ClockKept(s, t);
    TimelineKept(p, s, t);
    LaunchBooks(p, s, k, present, alpha);
    NotStarted(p, s, popped);
    AtLeastOnePass(p, s, popped, k);
    LaunchKept(p, s, t, k, popped);
    LaunchWaved(p, s, t, k, popped);
    LaunchModes(p, s, t, k, present, popped);
    ClearKept(p, s, popped, t, popped - {k});
    InvWhole(p, t, popped - {k});
  }

  lemma LaunchEvents(p: Plan, s: Replay, k: nat, present: set<nat>, alpha: real)
    requires Phases(p, s) && k in s.pending && k in p.ops && alpha >= 0.0
    ensures var t := Launch(p, s, k, present, alpha);
            EventsNow(s, t) && t.starts == s.starts[k := s.now] && t.modes == s.modes[k := present]
              && t.pending == s.pending - {k}
            && t.releases == s.releases && t.degrees == s.degrees && t.ends == s.ends
            && t.waves == s.waves[k := LastPass(s)] && t.wave == s.wave
  {
  }

  lemma AtLeastOnePass(p: Plan, s: Replay, popped: set<nat>, k: nat)
    requires Waved(p, s, popped) && k in popped
    ensures s.wave >= 1 && LastPass(s) == s.wave - 1
  {
    hide IsWave, Follows;
  }

  /** The mode recorded at a launch is what is present in its pass. */
  lemma LaunchModes(p: Plan, s: Replay, t: Replay, k: nat, present: set<nat>, popped: set<nat>)
    requires Modes(p, s, popped) && Clock(s) && Waved(p, s, popped) && PresentNow(p, s, present, popped) && k in popped
    requires k !in s.starts
    requires Kept(p, s, popped, t, popped - {k})
    requires t.modes == s.modes[k := present] && t.starts == s.starts[k := s.now] && t.waves == s.waves[k := s.wave - 1]
    ensures Modes(p, t, popped - {k})
  {
    hide PresentIn, IsWave, Follows, DataOf;
    forall x | x in t.modes
      ensures x in t.starts && x in t.waves
          && DataOf(p, t.modes[x]) == PresentIn(p, t, popped - {k}, t.starts[x], t.waves[x])
    {
      if x != k {
        assert Passed(s, s.starts[x], s.waves[x]);
      } else {
        assert Passed(s, s.now, s.wave - 1);
      }
    }
  }

  lemma PoppedIsPending(p: Plan, s: Replay, popped: set<nat>, k: nat)
    requires Waits(p, s, popped) && k in popped
    ensures k in s.pending && k in p.ops
  {
  }

  lemma AlphaNonNegative(p: Plan, k: nat, present: set<nat>, alpha: real)
    requires ValidPlan(p) && IsData(p, k) && k in p.costs && IsLaunchAlpha(p, present, k, alpha)
    ensures alpha >= 0.0
  {
    if p.ops[k].Communicates() {
      var found :| DecidedFor(p.ops, p.model, present, k, found) && alpha == OfferedAlpha(p, k, found);
      if found.Some? {
        ChosenIsListed(p, present, k, found);
      }
    }
  }

  lemma NotStarted(p: Plan, s: Replay, popped: set<nat>)
    requires Phases(p, s) && Waits(p, s, popped)
    ensures popped !! s.starts.Keys + s.ends.Keys
    ensures s.starts.Keys == s.active + s.startup.Keys + s.ends.Keys
  {
  }

  lemma ChosenIsListed(p: Plan, present: set<nat>, k: nat, found: Option<RateProfile>)
    requires p.model.Valid() && DecidedFor(p.ops, p.model, present, k, found) && found.Some?
    ensures found.value.Valid() && found.value in p.model.profiles
  {
    var group: seq<nat> :|
      && k in group && C.Known(group, p.ops) && Distinct(group)
      && C.IsComponent(p.ops, Communicating(p.ops, present), Elements(group))
      && IsProfileOf(p.model, group, p.ops, Result<Option<RateProfile>, RateError>.Ok(found));
    var i: nat :| Matches(p.model, group, p.ops, i) && found.value == p.model.profiles[i];
  }

  lemma LaunchPhases(p: Plan, s: Replay, k: nat, present: set<nat>, alpha: real)
    requires Phases(p, s) && k in s.pending && IsData(p, k)
    ensures Phases(p, Launch(p, s, k, present, alpha))
  {
    var t := Launch(p, s, k, present, alpha);
    hide Phases, Launch, PhaseAt;
    forall x ensures PhaseAt(p, t, x) {
      PhasesAt(p, s, k);
      PhasesAt(p, s, x);
      LaunchPhaseAt(p, s, k, present, alpha, x);
    }
    PhasesAre(p, t);
  }

  lemma LaunchPhaseAt(p: Plan, s: Replay, k: nat, present: set<nat>, alpha: real, x: nat)
    requires k in s.pending && IsData(p, k) && PhaseAt(p, s, k) && PhaseAt(p, s, x)
    ensures PhaseAt(p, Launch(p, s, k, present, alpha), x)
  {
  }

  /** Leaving the pending set takes the operation out of the popped ones. */
  lemma LaunchWaits(p: Plan, s: Replay, t: Replay, k: nat, popped: set<nat>)
    requires Waits(p, s, popped) && Punctual(p, s, popped) && k in popped
    requires t.pending == s.pending - {k} && t.releases == s.releases && t.degrees == s.degrees && t.ends == s.ends
    requires t.now == s.now
    ensures Waits(p, t, popped - {k}) && Punctual(p, t, popped - {k})
  {
    forall f | f in t.releases + (popped - {k}) ensures f in p.ops && Timely(p, t, f) {
      assert f in s.releases + popped;
      assert Timely(p, s, f);
    }
  }

  lemma LaunchBooks(p: Plan, s: Replay, k: nat, present: set<nat>, alpha: real)
    requires Books(p, s) && k in s.pending && IsData(p, k)
    requires k in p.costs && IsLaunchAlpha(p, present, k, alpha)
    requires Phases(p, Launch(p, s, k, present, alpha))
    ensures Books(p, Launch(p, s, k, present, alpha))
  {
    DataIsKnown(p, k);
    PendingIsKnown(p, s, k);
    hide *;
    var t := Launch(p, s, k, present, alpha);
    forall x | x in p.available ensures Accounted(p, t, x) {
      LaunchAccount(p, s, k, present, alpha, x);
    }
    forall x | x in t.starts && IsData(p, x) ensures Charged(p, t, x) {
      LaunchCharged(p, s, k, present, alpha, x);
    }
    BooksWhole(p, t);
  }

  lemma PendingIsKnown(p: Plan, s: Replay, k: nat)
    requires Books(p, s) && k in s.pending
    ensures k in p.available
  {
    BooksPhases(p, s);
    hide Books;
  }

  lemma LaunchCharged(p: Plan, s: Replay, k: nat, present: set<nat>, alpha: real, x: nat)
    requires Books(p, s) && k in p.ops && k in p.costs && IsLaunchAlpha(p, present, k, alpha)
    requires x in Launch(p, s, k, present, alpha).starts && IsData(p, x)
    ensures x in p.ops && Charged(p, Launch(p, s, k, present, alpha), x)
  {
    hide IsLaunchAlpha, Phases, Accounted;
    if x != k {
      assert Charged(p, s, x);
    }
  }

  lemma BooksWhole(p: Plan, s: Replay)
    requires Phases(p, s) && forall x :: x in p.available ==> Accounted(p, s, x)
    requires forall x :: x in s.starts && IsData(p, x) ==> x in p.ops && Charged(p, s, x)
    ensures Books(p, s)
  {
    hide Phases, Accounted, Charged;
  }

  lemma LaunchAccount(p: Plan, s: Replay, k: nat, present: set<nat>, alpha: real, x: nat)
    requires Books(p, s) && k in s.pending && IsData(p, k) && x in p.available
    requires Phases(p, Launch(p, s, k, present, alpha))
    ensures Accounted(p, Launch(p, s, k, present, alpha), x)
  {
    DataIsKnown(p, k);
    hide *;
    var t := Launch(p, s, k, present, alpha);
    AccountAt(p, s, x);
    if x == k {
      LaunchedAccount(p, s, k, present, alpha);
    } else {
      LaunchAlike(p, s, k, present, alpha, x);
      SameAccount(p, s, t, x);
    }
  }

  lemma DataIsKnown(p: Plan, k: nat)
    requires IsData(p, k)
    ensures k in p.ops
  {
  }

  lemma LaunchAlike(p: Plan, s: Replay, k: nat, present: set<nat>, alpha: real, x: nat)
    requires x != k && k in p.ops
    ensures Alike(s, Launch(p, s, k, present, alpha), x)
  {
  }

  lemma LaunchedAccount(p: Plan, s: Replay, k: nat, present: set<nat>, alpha: real)
    requires k in p.ops && Phases(p, s) && k in s.pending && IsData(p, k) && Accounted(p, s, k)
    requires Phases(p, Launch(p, s, k, present, alpha))
    ensures Accounted(p, Launch(p, s, k, present, alpha), k)
  {
    PhasesAt(p, s, k);
    hide Phases, Idle, Tiles, Drained;
  }

  // ---------------------------------------------------------------- instant operations

  lemma LaunchNopKeeps(p: Plan, s: Replay, k: nat, popped: set<nat>)
    requires Inv(p, s, popped) && k in popped && !IsData(p, k)
    ensures Inv(p, LaunchNop(p, s, k), popped - {k})
  {
    hide *;
    var mid := Instant(s, k);
    var t := LaunchNop(p, s, k);
    InvParts(p, s, popped);
    PoppedIsPending(p, s, popped, k);
    NopEvents(p, s, k);
    NopPhases(p, s, k);
    LaunchWaits(p, s, mid, k, popped);
    CompleteWaits(p, mid, k, popped - {k});
    CompletePunctual(p, mid, k, popped - {k});
    StartedNow(p, s, t, k, popped);
    ClockKept(s, t);
    TimelineKept(p, s, t);
    NotStarted(p, s, popped);
    InstantKept(p, s, t, k, popped);
    AtLeastOnePass(p, s, popped, k);
    InstantWaved(p, s, t, k, popped);
    ModesKept(p, s, popped, t, popped - {k});
    ClearKept(p, s, popped, t, popped - {k});
    NopBooks(p, s, k);
    InvWhole(p, t, popped - {k});
  }

  lemma NopEvents(p: Plan, s: Replay, k: nat)
    requires Phases(p, s) && k in s.pending
    ensures var t := LaunchNop(p, s, k);
            EventsNow(s, t) && t.starts == s.starts[k := s.now] && t.modes == s.modes
              && t == Complete(p, Instant(s, k), k)
            && t.waves == s.waves[k := LastPass(s)] && t.wave == s.wave && t.ends == s.ends[k := s.now]
    ensures var mid := Instant(s, k);
            mid.pending == s.pending - {k} && mid.releases == s.releases && mid.degrees == s.degrees
              && mid.ends == s.ends && mid.now == s.now
    ensures k !in s.ends && k !in s.starts
  {
  }

  lemma NopPhases(p: Plan, s: Replay, k: nat)
    requires Phases(p, s) && k in s.pending && !IsData(p, k)
    ensures Phases(p, LaunchNop(p, s, k))
  {
    var t := LaunchNop(p, s, k);
    hide Phases, LaunchNop, PhaseAt;
    forall x ensures PhaseAt(p, t, x) {
      PhasesAt(p, s, k);
      PhasesAt(p, s, x);
      NopPhaseAt(p, s, k, x);
    }
    PhasesAre(p, t);
  }

  lemma NopPhaseAt(p: Plan, s: Replay, k: nat, x: nat)
    requires k in s.pending && !IsData(p, k) && PhaseAt(p, s, k) && PhaseAt(p, s, x)
    ensures PhaseAt(p, LaunchNop(p, s, k), x)
  {
  }

  lemma NopBooks(p: Plan, s: Replay, k: nat)
    requires Books(p, s) && k in s.pending && !IsData(p, k)
    requires Phases(p, LaunchNop(p, s, k))
    ensures Books(p, LaunchNop(p, s, k))
  {
    hide *;
    var t := LaunchNop(p, s, k);
    NopFields(p, s, k);
    forall x | x in p.available ensures Accounted(p, t, x) {
      AccountAt(p, s, x);
      if x == k {
        NopAccount(p, s, k);
      } else {
        NopAlike(p, s, k, x);
        SameAccount(p, s, t, x);
      }
    }
    BooksAre(p, s, t);
  }

  lemma NopFields(p: Plan, s: Replay, k: nat)
    requires !IsData(p, k)
    ensures var t := LaunchNop(p, s, k);
            t.modes == s.modes && t.alphas == s.alphas && forall x :: x in t.starts && IsData(p, x) ==> x in s.starts
  {
  }

  lemma NopAlike(p: Plan, s: Replay, k: nat, x: nat)
    requires x != k
    ensures Alike(s, LaunchNop(p, s, k), x)
  {
  }

  lemma NopAccount(p: Plan, s: Replay, k: nat)
    requires Phases(p, s) && k in s.pending && !IsData(p, k) && Accounted(p, s, k)
    requires Phases(p, LaunchNop(p, s, k))
    ensures Accounted(p, LaunchNop(p, s, k), k)
  {
    PhasesAt(p, s, k);
    hide Phases, Idle, Tiles, Drained;
  }

  // ---------------------------------------------------------------- finish

  lemma FinishKeeps(p: Plan, s: Replay, k: nat)
    requires Inv(p, s, {}) && k in s.active && s.remaining[k] == 0.0 && s.wave == 0
    ensures Inv(p, Finish(p, s, k), {})
  {
    hide *;
    var mid := s.(active := s.active - {k});
    var t := Finish(p, s, k);
    InvParts(p, s, {});
    FinishEvents(p, s, k);
    FinishPhases(p, s, k);
    WaitsKept(p, s, mid);
    CompleteWaits(p, mid, k, {});
    CompletePunctual(p, mid, k, {});
    StartedKept(p, s, t);
    ClockKept(s, t);
    TimelineKept(p, s, t);
    FinishKept(p, s, t, k);
    FinishWaved(p, s, t, k);
    ModesKept(p, s, {}, t, {});
    ClearKept(p, s, {}, t, {});
    FinishBooks(p, s, k);
    InvWhole(p, t, {});
  }

  lemma FinishEvents(p: Plan, s: Replay, k: nat)
    requires Phases(p, s) && k in s.active
    ensures var t := Finish(p, s, k);
            EventsNow(s, t) && t.starts == s.starts && t.modes == s.modes
              && t == Complete(p, s.(active := s.active - {k}), k)
            && t.waves == s.waves && t.wave == s.wave && t.ends == s.ends[k := s.now]
    ensures k !in s.ends && k !in s.pending && k in s.starts
  {
  }

  lemma FinishPhases(p: Plan, s: Replay, k: nat)
    requires Phases(p, s) && k in s.active
    ensures Phases(p, Finish(p, s, k))
  {
    var t := Finish(p, s, k);
    assert t.ends.Keys == s.ends.Keys + {k};
  }

  lemma FinishBooks(p: Plan, s: Replay, k: nat)
    requires Books(p, s) && k in s.active && s.remaining[k] == 0.0
    requires Phases(p, Finish(p, s, k))
    ensures Books(p, Finish(p, s, k))
  {
    BooksPhases(p, s);
    PhasesAt(p, s, k);
    hide *;
    var t := Finish(p, s, k);
    FinishedFields(p, s, k);
    forall x | x in p.available ensures Accounted(p, t, x) {
      AccountAt(p, s, x);
      if x == k {
        FinishedAccount(p, s, k);
      } else {
        FinishAlike(p, s, k, x);
        SameAccount(p, s, t, x);
      }
    }
    BooksAre(p, s, t);
  }

  lemma FinishedFields(p: Plan, s: Replay, k: nat)
    ensures var t := Finish(p, s, k); t.modes == s.modes && t.alphas == s.alphas && t.starts == s.starts
  {
  }

  lemma FinishAlike(p: Plan, s: Replay, k: nat, x: nat)
    requires x != k
    ensures Alike(s, Finish(p, s, k), x)
  {
  }

  lemma FinishedAccount(p: Plan, s: Replay, k: nat)
    requires Phases(p, s) && k in s.active && k in s.remaining && s.remaining[k] == 0.0 && Accounted(p, s, k)
    requires Phases(p, Finish(p, s, k))
    ensures Accounted(p, Finish(p, s, k), k)
  {
    PhasesAt(p, s, k);
    hide Phases, Idle, Tiles, Drained;
  }

  // ---------------------------------------------------------------- advancing time

  /** Nothing is due before `next`, and no active operation would overrun its bytes. */
  ghost predicate NextEvent(p: Plan, s: Replay, rates: map<nat, real>, next: real)
    requires s.active <= rates.Keys && s.active <= s.remaining.Keys
  {
    && s.now < next
    && (forall k :: k in s.startup ==> next <= s.startup[k])
    && (forall k :: k in s.releases && k in p.ops ==> next <= p.ops[k].notBefore)
    && (forall k :: k in s.active ==> rates[k] * (next - s.now) <= s.remaining[k])
  }

  lemma AdvanceKeeps(p: Plan, s: Replay, rates: map<nat, real>, next: real)
    requires Inv(p, s, {}) && rates.Keys == s.active && p.available <= p.ops.Keys
    requires Costed(p.ops, p.costs, p.model, s.active) && Rated(p.ops, p.costs, p.model, s.active, rates)
    requires NextEvent(p, s, rates, next) && Decided(p.ops, p.model, s.active + s.startup.Keys)
    ensures Inv(p, Advance(s, rates, next), {})
    ensures forall k :: k in s.active ==> Advance(s, rates, next).remaining[k] >= 0.0
  {
    hide *;
    var t := Advance(s, rates, next);
    InvParts(p, s, {});
    ActiveRemain(p, s);
    AdvanceFields(p, s, rates, next);
    AdvancePhases(p, s, rates, next);
    AdvanceBooks(p, s, rates, next);
    AdvanceTimeline(p, s, rates, next);
    StartedKept(p, s, t);
    AdvanceWaits(p, s, rates, next);
    AdvanceKept(p, s, rates, next);
    AdvanceWaved(p, s, rates, next);
    ModesKept(p, s, {}, t, {});
    AdvanceClear(p, s, rates, next);
    InvWhole(p, t, {});
  }

  lemma ActiveRemain(p: Plan, s: Replay)
    requires Phases(p, s)
    ensures s.active <= s.remaining.Keys
  {
  }

  lemma AdvanceFields(p: Plan, s: Replay, rates: map<nat, real>, next: real)
    requires s.active <= rates.Keys && s.active <= s.remaining.Keys && NextEvent(p, s, rates, next)
    ensures s.now < next
    ensures var t := Advance(s, rates, next);
            t.starts == s.starts && t.ends == s.ends && t.waves == s.waves && t.modes == s.modes
              && t.remaining.Keys == s.remaining.Keys
            && forall k :: k in s.active ==> t.remaining[k] >= 0.0
  {
  }

  lemma AdvanceWaits(p: Plan, s: Replay, rates: map<nat, real>, next: real)
    requires Waits(p, s, {}) && Punctual(p, s, {}) && Clock(s)
    requires s.active <= rates.Keys && s.active <= s.remaining.Keys && NextEvent(p, s, rates, next)
    ensures var t := Advance(s, rates, next); Waits(p, t, {}) && Punctual(p, t, {}) && Clock(t)
  {
    var t := Advance(s, rates, next);
    forall k | k in t.releases + {} ensures k in p.ops && Timely(p, t, k) {
      assert k in s.releases + {};
      assert Timely(p, s, k);
    }
  }

  lemma AdvanceKept(p: Plan, s: Replay, rates: map<nat, real>, next: real)
    requires s.active <= rates.Keys && s.now < next
    ensures Kept(p, s, {}, Advance(s, rates, next), {})
  {
    var t := Advance(s, rates, next);
    forall time: real, w: nat | Passed(s, time, w)
      ensures PresentIn(p, t, {}, time, w) == PresentIn(p, s, {}, time, w)
    {
      assert DataOf(p, {}) == {};
    }
  }

  lemma AdvanceWaved(p: Plan, s: Replay, rates: map<nat, real>, next: real)
    requires Waved(p, s, {}) && Clock(s) && s.active <= rates.Keys && s.now < next
    ensures Waved(p, Advance(s, rates, next), {})
  {
    hide IsWave;
  }

  /** Between two events what is present is what was present after the last pass. */
  lemma PresentBetween(p: Plan, s: Replay, time: real, w: nat)
    requires Phases(p, s) && Waved(p, s, {}) && Clock(s) && (time > s.now || (time == s.now && w + 1 >= s.wave))
    requires p.available <= p.ops.Keys
    ensures PresentAt(p, s, time, w) == DataOf(p, s.active + s.startup.Keys)
  {
    hide IsWave, Follows;
    forall x: nat ensures x in PresentAt(p, s, time, w) <==> x in DataOf(p, s.active + s.startup.Keys) {
    }
  }

  lemma DataDecides(p: Plan, mode: set<nat>, other: set<nat>)
    requires Decided(p.ops, p.model, mode) && DataOf(p, mode) == DataOf(p, other)
    ensures Decided(p.ops, p.model, other)
  {
    hide Decided;
    forall x ensures x in Communicating(p.ops, mode) <==> x in Communicating(p.ops, other) {
      assert x in DataOf(p, mode) <==> x in DataOf(p, other);
    }
    DecidedSame(p.ops, p.model, mode, other);
  }

  lemma AdvanceClear(p: Plan, s: Replay, rates: map<nat, real>, next: real)
    requires Clear(p, s, {}) && Phases(p, s) && Waved(p, s, {}) && Clock(s) && p.available <= p.ops.Keys
    requires s.active <= rates.Keys && s.now < next
    requires Decided(p.ops, p.model, s.active + s.startup.Keys) && Kept(p, s, {}, Advance(s, rates, next), {})
    ensures Clear(p, Advance(s, rates, next), {})
  {
    var t := Advance(s, rates, next);
    hide Waved, Phases, Clock, Decided, Kept;
    forall time: real, w: nat | 0.0 <= time && Passed(t, time, w)
      ensures Decided(p.ops, p.model, PresentIn(p, t, {}, time, w))
    {
      BetweenDecided(p, s, t, time, w);
    }
  }

  lemma BetweenDecided(p: Plan, s: Replay, t: Replay, time: real, w: nat)
    requires Clear(p, s, {}) && Phases(p, s) && Waved(p, s, {}) && Clock(s) && p.available <= p.ops.Keys
    requires 0.0 <= time < t.now
    requires Decided(p.ops, p.model, s.active + s.startup.Keys) && Kept(p, s, {}, t, {})
    requires t.starts == s.starts && t.ends == s.ends && t.waves == s.waves
    ensures Decided(p.ops, p.model, PresentIn(p, t, {}, time, w))
  {
    hide Waved, Phases, Clock, Decided;
    if Passed(s, time, w) {
      assert Decided(p.ops, p.model, PresentIn(p, s, {}, time, w));
    } else {
      PresentBetween(p, s, time, w);
      assert DataOf(p, {}) == {};
      assert PresentIn(p, t, {}, time, w) == PresentAt(p, s, time, w);
      assert DataOf(p, DataOf(p, s.active + s.startup.Keys)) == DataOf(p, s.active + s.startup.Keys);
      DataDecides(p, s.active + s.startup.Keys, DataOf(p, s.active + s.startup.Keys));
    }
  }

  lemma AdvancePhases(p: Plan, s: Replay, rates: map<nat, real>, next: real)
    requires Phases(p, s) && rates.Keys == s.active
    ensures Phases(p, Advance(s, rates, next))
  {
    assert Advance(s, rates, next).remaining.Keys == s.remaining.Keys;
  }

  lemma AdvanceBooks(p: Plan, s: Replay, rates: map<nat, real>, next: real)
    requires Books(p, s) && rates.Keys == s.active
    requires Phases(p, Advance(s, rates, next))
    ensures Books(p, Advance(s, rates, next))
  {
    var t := Advance(s, rates, next);
    forall x | x in p.available ensures Accounted(p, t, x) {
      assert Accounted(p, s, x);
      AdvanceAccount(p, s, rates, next, x);
    }
  }

  lemma AdvanceAccount(p: Plan, s: Replay, rates: map<nat, real>, next: real, x: nat)
    requires Phases(p, s) && rates.Keys == s.active && Phases(p, Advance(s, rates, next))
    requires Accounted(p, s, x)
    ensures Accounted(p, Advance(s, rates, next), x)
  {
    hide Idle, Tiles, Drained;
    var from := if x in s.begun then s.begun[x] else 0.0;
    var until := if x in s.ends then s.ends[x] else s.now;
    SnocRound(s.rounds, Round(s.now, next, rates), x, from, until);
  }

  lemma AdvanceTimeline(p: Plan, s: Replay, rates: map<nat, real>, next: real)
    requires Timeline(p, s) && Clock(s) && Phases(p, s) && rates.Keys == s.active && s.now < next
    requires Costed(p.ops, p.costs, p.model, s.active) && Rated(p.ops, p.costs, p.model, s.active, rates)
    ensures Timeline(p, Advance(s, rates, next))
  {
    var t := Advance(s, rates, next);
    assert RoundValid(p, Round(s.now, next, rates));
  }
}
