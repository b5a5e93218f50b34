/** Recomputing the times of a schedule, greedily or in a fixed order (vericcl/composer/timing.py, _retime in both
    modes). */
module Timing {
  import opened Basics
  import opened ListScheduler
  import G = Graphs
  import GreedySchedule

  /** `ready` is the ready time of the symbols a transfer moves. */
  datatype Transfer = Transfer(
    src: nat, dst: nat, channel: nat,
    slots: map<nat, nat>,
    semantic: set<nat>,
    predecessors: set<nat>,
    st: real, ed: real, ready: real)
  {
    function Keys(): set<Key> {
      {Lane(src, dst, channel)} + set r | r in slots :: Slot(r, slots[r])
    }
  }

  type Schedule = map<nat, Transfer>

  datatype RetimeError = SemanticCycle | OrderIncomplete | OrderCycle | Overlap

  ghost predicate ValidSchedule(s: Schedule) {
    forall k :: k in s ==> s[k].semantic <= s.Keys && s[k].predecessors <= s.Keys && s[k].st <= s[k].ed
  }

  function ItemsOf(s: Schedule): (items: Items)
    ensures items.Keys == s.Keys
  {
    map k | k in s :: Item(s[k].semantic, s[k].Keys(), s[k].st, s[k].ed - s[k].st)
  }

  function Order(s: Schedule): G.Dependencies {
    map k | k in s :: s[k].predecessors
  }

  function Apply(s: Schedule, starts: map<nat, real>, ends: map<nat, real>, readies: map<nat, real>,
                 predecessors: map<nat, set<nat>>): Schedule
    requires s.Keys <= starts.Keys && s.Keys <= ends.Keys && s.Keys <= readies.Keys && s.Keys <= predecessors.Keys
  {
    map k | k in s :: s[k].(st := starts[k], ed := ends[k], ready := readies[k], predecessors := predecessors[k])
  }

  // ---------------------------------------------------------------- greedy mode

  ghost predicate IsGreedyRetiming(s: Schedule, g: Schedule) {
    exists t :: RetimedBy(s, g, t)
  }

  ghost predicate RetimedBy(s: Schedule, g: Schedule, t: Timetable) {
    && IsGreedy(ItemsOf(s), t) && t.starts.Keys == t.ends.Keys == t.readies.Keys == t.predecessors.Keys == s.Keys
    && g == Apply(s, t.starts, t.ends, t.readies, t.predecessors)
  }

  lemma ItemsValid(s: Schedule)
    requires ValidSchedule(s)
    ensures ValidItems(ItemsOf(s))
  {
  }

  lemma GreedyKeys(items: Items, t: Timetable)
    requires IsGreedy(items, t)
    ensures t.starts.Keys == t.ends.Keys == t.readies.Keys == t.predecessors.Keys == items.Keys
  {
    hide Placed, FirstChoice;
  }

  /** recompute_earliest_times: refused exactly when the semantic dependencies have a cycle. */
  method Recompute(s: Schedule) returns (r: Result<Schedule, RetimeError>)
    requires ValidSchedule(s)
    ensures G.Closed(Waits(ItemsOf(s)))
    ensures r.Err? <==> !G.Acyclic(Waits(ItemsOf(s)))
    ensures r.Err? ==> r.error == SemanticCycle
    ensures r.Ok? ==> IsGreedyRetiming(s, r.value)
  {
    hide *;
    ItemsValid(s);
    var t := GreedySchedule.ListSchedule(ItemsOf(s));
    if t.None? {
      return Err(SemanticCycle);
    }
    GreedyKeys(ItemsOf(s), t.value);
    var g := Apply(s, t.value.starts, t.value.ends, t.value.readies, t.value.predecessors);
    assert IsGreedyRetiming(s, g) by {
      Retimed(s, g, t.value);
    }
    return Ok(g);
  }

  lemma Retimed(s: Schedule, g: Schedule, t: Timetable)
    requires IsGreedy(ItemsOf(s), t) && t.starts.Keys == t.ends.Keys == t.readies.Keys == t.predecessors.Keys == s.Keys
    requires g == Apply(s, t.starts, t.ends, t.readies, t.predecessors)
    ensures IsGreedyRetiming(s, g)
  {
    assert RetimedBy(s, g, t);
  }

  // ---------------------------------------------------------------- exclusive intervals

  ghost predicate Apart(starts: map<nat, real>, ends: map<nat, real>, a: nat, b: nat)
    requires a in starts && a in ends && b in starts && b in ends
  {
    ends[a] <= starts[b] || ends[b] <= starts[a]
  }

  function PositiveUsers(items: Items, starts: map<nat, real>, ends: map<nat, real>, key: Key): set<nat> {
    set k | k in items && k in starts && k in ends && key in items[k].keys && starts[k] < ends[k]
  }

  ghost predicate ExclusiveKey(users: set<nat>, starts: map<nat, real>, ends: map<nat, real>)
    requires users <= starts.Keys && users <= ends.Keys
  {
    forall a, b :: a in users && b in users && a != b ==> Apart(starts, ends, a, b)
  }

  /** Transfers of positive length never overlap on a lane or slot. */
  ghost predicate Exclusive(items: Items, starts: map<nat, real>, ends: map<nat, real>) {
    forall key :: ExclusiveKey(PositiveUsers(items, starts, ends, key), starts, ends)
  }

  ghost predicate Sooner(starts: map<nat, real>, ends: map<nat, real>, a: nat, b: nat)
    requires a in starts && a in ends && b in starts && b in ends
  {
    starts[a] < starts[b] || (starts[a] == starts[b] && (ends[a] < ends[b] || (ends[a] == ends[b] && a <= b)))
  }

  method Soonest(users: set<nat>, starts: map<nat, real>, ends: map<nat, real>) returns (a: nat)
    requires users != {} && users <= starts.Keys && users <= ends.Keys
    ensures a in users && forall b :: b in users ==> Sooner(starts, ends, a, b)
  {
    HasMember(users);
    a :| a in users;
    ghost var seen: set<nat> := {a};
    var rest := users - {a};
    while rest != {}
      invariant seen + rest == users && a in seen
      invariant forall b :: b in seen ==> Sooner(starts, ends, a, b)
      decreases |rest|
    {
      HasMember(rest);
      var b :| b in rest;
      if starts[b] < starts[a] || (starts[b] == starts[a] && (ends[b] < ends[a] || (ends[b] == ends[a] && b < a))) {
        a := b;
      }
      seen, rest := seen + {b}, rest - {b};
    }
  }

  /** Scan the intervals of one key in start order. */
  method CheckKey(users: set<nat>, starts: map<nat, real>, ends: map<nat, real>) returns (ok: bool)
    requires users <= starts.Keys && users <= ends.Keys
    requires forall k :: k in users ==> 0.0 <= starts[k] < ends[k]
    ensures ok <==> ExclusiveKey(users, starts, ends)
  {
    var rest, previousEnd := users, 0.0;
    ghost var last := 0;
    while rest != {}
      invariant rest <= users
      invariant forall a, b :: a in users - rest && b in users - rest && a != b ==> Apart(starts, ends, a, b)
      invariant rest == users ==> previousEnd == 0.0
      invariant rest != users ==> last in users - rest && previousEnd == ends[last]
      invariant forall a, b :: a in users - rest && b in rest ==> starts[a] <= starts[b]
      invariant forall a :: a in users - rest ==> ends[a] <= previousEnd
      decreases |rest|
    {
      var k := Soonest(rest, starts, ends);
      if starts[k] < previousEnd {
        assert !Apart(starts, ends, last, k);
        return false;
      }
      previousEnd := ends[k];
      last := k;
      rest := rest - {k};
    }
    return true;
  }

  function UsedKeys(items: Items): set<Key> {
    set k, key | k in items && key in items[k].keys :: key
  }

  lemma UnusedKeyIsExclusive(items: Items, starts: map<nat, real>, ends: map<nat, real>, key: Key)
    requires key !in UsedKeys(items)
    ensures PositiveUsers(items, starts, ends, key) == {}
  {
  }

  method CheckIntervals(items: Items, starts: map<nat, real>, ends: map<nat, real>) returns (ok: bool)
    requires forall k :: k in starts ==> 0.0 <= starts[k]
    ensures ok <==> Exclusive(items, starts, ends)
  {
    hide ExclusiveKey;
    var rest := UsedKeys(items);
    ghost var all := rest;
    while rest != {}
      invariant rest <= all
      invariant forall key :: key in all && key !in rest ==>
          ExclusiveKey(PositiveUsers(items, starts, ends, key), starts, ends)
      decreases |rest|
    {
      var key :| key in rest;
      var fine := CheckKey(PositiveUsers(items, starts, ends, key), starts, ends);
      if !fine {
        return false;
      }
      rest := rest - {key};
    }
    forall key ensures ExclusiveKey(PositiveUsers(items, starts, ends, key), starts, ends) {
      if key !in all {
        UnusedKeyIsExclusive(items, starts, ends, key);
        NobodyOverlaps(starts, ends);
      }
    }
    return true;
  }

  lemma NobodyOverlaps(starts: map<nat, real>, ends: map<nat, real>)
    ensures ExclusiveKey({}, starts, ends)
  {
  }

  /** What greedy scheduling produces is exclusive. */
  lemma GreedyIsExclusive(items: Items, t: Timetable)
    requires Partial(items, t)
    ensures Exclusive(items, t.starts, t.ends)
  {
    hide Partial;
    forall key, a, b | a in PositiveUsers(items, t.starts, t.ends, key)
        && b in PositiveUsers(items, t.starts, t.ends, key) && a != b
      ensures Apart(t.starts, t.ends, a, b)
    {
      GreedyApart(items, t, key, a, b);
    }
    forall key ensures ExclusiveKey(PositiveUsers(items, t.starts, t.ends, key), t.starts, t.ends) {
    }
  }

  lemma GreedyApart(items: Items, t: Timetable, key: Key, a: nat, b: nat)
    requires Partial(items, t) && a in t.starts && b in t.starts && a in t.ends && b in t.ends && a != b
    requires a in items && b in items && key in items[a].keys && key in items[b].keys
    ensures Apart(t.starts, t.ends, a, b)
  {
    hide Placed, FirstChoice;
    assert a in Elements(t.order) && b in Elements(t.order);
    var i, j := Position(t.order, a), Position(t.order, b);
    assert key in items[a].keys * items[b].keys && key in items[b].keys * items[a].keys;
    if i < j {
      NoOverlap(items, t, i, j);
    } else {
      NoOverlap(items, t, j, i);
    }
  }

  // ---------------------------------------------------------------- fixed order

  ghost predicate OrderCovers(s: Schedule) {
    forall k :: k in s ==> s[k].semantic <= s[k].predecessors
  }

  ghost predicate SolvedBy(s: Schedule, starts: map<nat, real>, ends: map<nat, real>, readies: map<nat, real>) {
    Solves(ItemsOf(s), Order(s), starts, ends, readies)
  }

  /** What replaying the recorded order answers. */
  ghost predicate IsReplay(s: Schedule, r: Result<Schedule, RetimeError>)
    requires ValidSchedule(s)
  {
    OrderClosed(s);
    if !OrderCovers(s) then r == Err(OrderIncomplete)
    else if !G.Acyclic(Order(s)) then r == Err(OrderCycle)
    else exists starts, ends, readies ::
      && SolvedBy(s, starts, ends, readies) && s.Keys == starts.Keys == ends.Keys == readies.Keys
      && r == if Exclusive(ItemsOf(s), starts, ends) then Ok(Apply(s, starts, ends, readies, Order(s)))
        else Err(Overlap)
  }

  lemma OrderClosed(s: Schedule)
    requires ValidSchedule(s)
    ensures G.Closed(Order(s))
  {
  }

  ghost predicate TimedAt(s: Schedule, starts: map<nat, real>, ends: map<nat, real>, readies: map<nat, real>, k: nat)
    requires k in s && k in starts && k in ends && k in readies
  {
    && 0.0 <= starts[k] <= ends[k]
    && IsLatest(ends, s[k].predecessors, starts[k])
    && ends[k] == starts[k] + (s[k].ed - s[k].st)
    && IsLatest(ends, s[k].semantic, readies[k])
  }

  /** Times of the finished transfers, which are closed under predecessors. */
  ghost predicate Timed(s: Schedule, starts: map<nat, real>, ends: map<nat, real>, readies: map<nat, real>) {
    && starts.Keys == ends.Keys == readies.Keys <= s.Keys
    && forall k :: k in starts ==> TimedAt(s, starts, ends, readies, k)
  }

  lemma TimedKept(s: Schedule, starts: map<nat, real>, ends: map<nat, real>, readies: map<nat, real>, k: nat,
                  start: real, end: real, ready: real, x: nat)
    requires Timed(s, starts, ends, readies) && k !in starts && x in starts
    ensures TimedAt(s, starts[k := start], ends[k := end], readies[k := ready], x)
  {
    hide IsLatest;
    assert TimedAt(s, starts, ends, readies, x);
    LatestWithin(ends, s[x].predecessors, starts[x]);
    LatestWithin(ends, s[x].semantic, readies[x]);
    LatestKept(ends, ends[k := end], s[x].predecessors, starts[x]);
    LatestKept(ends, ends[k := end], s[x].semantic, readies[x]);
  }

  lemma LatestWithin(ends: map<nat, real>, keys: set<nat>, t: real)
    requires IsLatest(ends, keys, t)
    ensures keys <= ends.Keys
  {
  }

  lemma TimedNow(s: Schedule, starts: map<nat, real>, ends: map<nat, real>, readies: map<nat, real>, k: nat,
                 start: real, end: real, ready: real)
    requires ValidSchedule(s) && Timed(s, starts, ends, readies) && k in s && k !in starts
    requires IsLatest(ends, s[k].predecessors, start) && IsLatest(ends, s[k].semantic, ready)
    requires end == start + (s[k].ed - s[k].st)
    ensures TimedAt(s, starts[k := start], ends[k := end], readies[k := ready], k)
  {
    hide IsLatest;
    EndsNotNegative(s, starts, ends, readies);
    LatestNotNegative(ends, s[k].predecessors, start);
    LatestWithin(ends, s[k].predecessors, start);
    LatestWithin(ends, s[k].semantic, ready);
    LatestKept(ends, ends[k := end], s[k].predecessors, start);
    LatestKept(ends, ends[k := end], s[k].semantic, ready);
  }

  lemma EndsNotNegative(s: Schedule, starts: map<nat, real>, ends: map<nat, real>, readies: map<nat, real>)
    requires Timed(s, starts, ends, readies)
    ensures forall k :: k in ends ==> ends[k] >= 0.0
  {
    hide IsLatest;
    forall k | k in ends ensures ends[k] >= 0.0 {
      assert k in starts;
      assert TimedAt(s, starts, ends, readies, k);
    }
  }

  lemma LatestNotNegative(ends: map<nat, real>, keys: set<nat>, t: real)
    requires IsLatest(ends, keys, t) && forall k :: k in ends ==> ends[k] >= 0.0
    ensures t >= 0.0
  {
  }

  lemma TimedNext(s: Schedule, starts: map<nat, real>, ends: map<nat, real>, readies: map<nat, real>, k: nat,
                  start: real, end: real, ready: real)
    requires ValidSchedule(s) && Timed(s, starts, ends, readies) && k in s && k !in starts
    requires IsLatest(ends, s[k].predecessors, start) && IsLatest(ends, s[k].semantic, ready)
    requires end == start + (s[k].ed - s[k].st)
    ensures Timed(s, starts[k := start], ends[k := end], readies[k := ready])
  {
    hide IsLatest, TimedAt, ValidSchedule;
    var starts', ends', readies' := starts[k := start], ends[k := end], readies[k := ready];
    assert starts'.Keys == ends'.Keys == readies'.Keys == starts.Keys + {k};
    forall x | x in starts' ensures TimedAt(s, starts', ends', readies', x) {
      if x == k {
        TimedNow(s, starts, ends, readies, k, start, end, ready);
      } else {
        TimedKept(s, starts, ends, readies, k, start, end, ready, x);
      }
    }
  }

  lemma SemanticFinished(s: Schedule, ends: map<nat, real>, k: nat)
    requires OrderCovers(s) && k in s && s[k].predecessors <= ends.Keys
    ensures s[k].semantic <= ends.Keys
  {
  }

  lemma OrderStuck(s: Schedule, done: set<nat>, pending: set<nat>, ready: set<nat>)
    requires ValidSchedule(s) && pending == s.Keys - done && pending != {}
    requires ready == set k | k in pending && k in s && s[k].predecessors <= done
    requires ready == {}
    ensures G.Closed(Order(s)) && !G.Acyclic(Order(s))
  {
    forall k | k in pending ensures Order(s)[k] * pending != {} {
      assert k !in ready;
      var d :| d in s[k].predecessors && d !in done;
      assert d in Order(s)[k] * pending;
    }
    G.StuckProvesCyclic(Order(s), pending);
  }

  /** A finished run shows the order acyclic: nothing could have been timed on a cycle. */
  ghost predicate RankedBy(s: Schedule, rank: map<nat, nat>, n: nat, done: set<nat>)
    requires G.Closed(Order(s))
  {
    rank.Keys == done && G.PartialRanks(Order(s), rank, n)
  }

  datatype Times = Times(starts: map<nat, real>, ends: map<nat, real>, readies: map<nat, real>)

  ghost predicate Halfway(s: Schedule, t: Times, rank: map<nat, nat>, n: nat, pending: set<nat>)
    requires G.Closed(Order(s))
  {
    && Timed(s, t.starts, t.ends, t.readies) && pending == s.Keys - t.starts.Keys
    && RankedBy(s, rank, n, t.starts.Keys)
  }

  lemma HalfwayNext(s: Schedule, t: Times, rank: map<nat, nat>, n: nat, pending: set<nat>, k: nat, start: real,
                    end: real, ready: real)
    requires ValidSchedule(s) && G.Closed(Order(s)) && Halfway(s, t, rank, n, pending)
    requires k in pending && s[k].predecessors <= t.starts.Keys
    requires IsLatest(t.ends, s[k].predecessors, start) && IsLatest(t.ends, s[k].semantic, ready)
    requires end == start + (s[k].ed - s[k].st)
    ensures Halfway(s, Times(t.starts[k := start], t.ends[k := end], t.readies[k := ready]), rank[k := n], n
                    + 1, pending - {k})
  {
    hide Timed, RankedBy, IsLatest, ValidSchedule, G.Closed;
    TimedNext(s, t.starts, t.ends, t.readies, k, start, end, ready);
    RankedNext(s, rank, n, t.starts.Keys, k);
    KeyAdded(t.starts, k, start);
  }

  lemma HalfwayParts(s: Schedule, t: Times, rank: map<nat, nat>, n: nat, pending: set<nat>)
    requires G.Closed(Order(s)) && Halfway(s, t, rank, n, pending)
    ensures Timed(s, t.starts, t.ends, t.readies) && t.starts.Keys == t.ends.Keys <= s.Keys
    ensures pending == s.Keys - t.starts.Keys && RankedBy(s, rank, n, t.starts.Keys)
  {
    hide TimedAt, RankedBy;
  }

  /** Time one transfer whose recorded predecessors are all timed. */
  method TimeOne(s: Schedule, t: Times, ghost rank: map<nat, nat>, ghost n: nat, ghost pending: set<nat>, k: nat)
    returns (u: Times)
    requires ValidSchedule(s) && OrderCovers(s) && G.Closed(Order(s)) && Halfway(s, t, rank, n, pending)
    requires k in pending && k in s && s[k].predecessors <= t.starts.Keys
    ensures Halfway(s, u, rank[k := n], n + 1, pending - {k})
  {
    hide *;
    HalfwayParts(s, t, rank, n, pending);
    SemanticFinished(s, t.ends, k);
    var semanticReady := Latest(t.ends, s[k].semantic);
    var start := Latest(t.ends, s[k].predecessors);
    var end := start + (s[k].ed - s[k].st);
    HalfwayNext(s, t, rank, n, pending, k, start, end, semanticReady);
    u := Times(t.starts[k := start], t.ends[k := end], t.readies[k := semanticReady]);
  }

  method FixedTimes(s: Schedule) returns (times: Option<Times>)
    requires ValidSchedule(s) && OrderCovers(s)
    ensures G.Closed(Order(s)) && (times.None? <==> !G.Acyclic(Order(s)))
    ensures times.Some? ==>
        Timed(s, times.value.starts, times.value.ends, times.value.readies) && times.value.starts.Keys == s.Keys
  {
    hide *;
    OrderClosed(s);
    var t := Times(map[], map[], map[]);
    ghost var rank: map<nat, nat>, n: nat := map[], 0;
    var pending := s.Keys;
    NothingTimed(s, rank);
    while pending != {}
      invariant Halfway(s, t, rank, n, pending)
      decreases |pending|
    {
      HalfwayParts(s, t, rank, n, pending);
      var ready := set k | k in pending && k in s && s[k].predecessors <= t.starts.Keys;
      if ready == {} {
        OrderStuck(s, t.starts.Keys, pending, ready);
        return None;
      }
      var k := LeastId(ready);
      t := TimeOne(s, t, rank, n, pending, k);
      rank, n := rank[k := n], n + 1;
      pending := pending - {k};
    }
    HalfwayParts(s, t, rank, n, pending);
    AllRanked(s, rank, n, t.starts.Keys);
    return Some(t);
  }

  lemma KeyAdded(m: map<nat, real>, k: nat, v: real)
    ensures m[k := v].Keys == m.Keys + {k}
  {
  }

  lemma NothingTimed(s: Schedule, rank: map<nat, nat>)
    requires ValidSchedule(s) && rank == map[]
    ensures G.Closed(Order(s)) && Halfway(s, Times(map[], map[], map[]), rank, 0, s.Keys)
  {
  }

  lemma RankedNext(s: Schedule, rank: map<nat, nat>, n: nat, done: set<nat>, k: nat)
    requires ValidSchedule(s) && G.Closed(Order(s)) && RankedBy(s, rank, n, done)
    requires k in s && k !in done && s[k].predecessors <= done
    ensures RankedBy(s, rank[k := n], n + 1, done + {k})
  {
    G.RankNext(Order(s), rank, n, k);
  }

  lemma AllRanked(s: Schedule, rank: map<nat, nat>, n: nat, done: set<nat>)
    requires G.Closed(Order(s)) && RankedBy(s, rank, n, done) && s.Keys - done == {} && done <= s.Keys
    ensures G.Acyclic(Order(s)) && done == s.Keys
  {
    forall k | k in s ensures k in done {
      assert k !in s.Keys - done;
    }
    assert G.Ranks(Order(s), rank);
  }

  lemma TimedSolves(s: Schedule, starts: map<nat, real>, ends: map<nat, real>, readies: map<nat, real>)
    requires Timed(s, starts, ends, readies) && starts.Keys == s.Keys
    ensures SolvedBy(s, starts, ends, readies)
    ensures forall k :: k in starts ==> 0.0 <= starts[k]
    ensures s.Keys == starts.Keys == ends.Keys == readies.Keys
  {
    hide IsLatest;
    forall k | k in starts ensures TimedAt(s, starts, ends, readies, k) {
    }
    forall k | k in ItemsOf(s) ensures k in Order(s) && SolvedAt(ItemsOf(s), Order(s), starts, ends, readies, k) {
    }
  }

  method Covers(s: Schedule) returns (covered: bool)
    ensures covered <==> OrderCovers(s)
  {
    covered := forall k :: k in s ==> s[k].semantic <= s[k].predecessors;
  }

  /** _retime with preserve_predecessor_order=True. */
  method Replay(s: Schedule) returns (r: Result<Schedule, RetimeError>)
    requires ValidSchedule(s)
    ensures IsReplay(s, r)
  {
    hide *;
    OrderClosed(s);
    var covered := Covers(s);
    if !covered {
      assert IsReplay(s, Err(OrderIncomplete)) by {
        RefusedIncomplete(s);
      }
      return Err(OrderIncomplete);
    }
    var times := FixedTimes(s);
    if times.None? {
      assert IsReplay(s, Err(OrderCycle)) by {
        RefusedCycle(s);
      }
      return Err(OrderCycle);
    }
    var Times(starts, ends, readies) := times.value;
    TimedSolves(s, starts, ends, readies);
    var ok := CheckIntervals(ItemsOf(s), starts, ends);
    OrderKeys(s);
    r := if ok then Ok(Apply(s, starts, ends, readies, Order(s))) else Err(Overlap);
    Replayed(s, starts, ends, readies, r);
  }

  lemma OrderKeys(s: Schedule)
    ensures Order(s).Keys == s.Keys
  {
  }

  lemma RefusedIncomplete(s: Schedule)
    requires ValidSchedule(s) && !OrderCovers(s)
    ensures IsReplay(s, Err(OrderIncomplete))
  {
  }

  lemma RefusedCycle(s: Schedule)
    requires ValidSchedule(s) && OrderCovers(s) && G.Closed(Order(s)) && !G.Acyclic(Order(s))
    ensures IsReplay(s, Err(OrderCycle))
  {
  }

  lemma Replayed(s: Schedule, starts: map<nat, real>, ends: map<nat, real>, readies: map<nat, real>,
                 r: Result<Schedule, RetimeError>)
    requires ValidSchedule(s) && OrderCovers(s) && G.Closed(Order(s)) && G.Acyclic(Order(s))
    requires SolvedBy(s, starts, ends, readies) && s.Keys == starts.Keys == ends.Keys == readies.Keys
    requires s.Keys == Order(s).Keys
    requires r
        == if Exclusive(ItemsOf(s), starts, ends) then Ok(Apply(s, starts, ends, readies, Order(s))) else Err(Overlap)
    ensures IsReplay(s, r)
  {
    hide OrderCovers, G.Acyclic, Solves, Exclusive, ValidSchedule;
  }

  // ---------------------------------------------------------------- greedy, then fixed

  /** The replay's answer is determined by any solution of its order. */
  lemma ReplayIs(s: Schedule, starts: map<nat, real>, ends: map<nat, real>, readies: map<nat, real>,
                 r: Result<Schedule, RetimeError>)
    requires ValidSchedule(s) && OrderCovers(s) && G.Closed(Order(s)) && G.Acyclic(Order(s))
    requires SolvedBy(s, starts, ends, readies) && s.Keys == starts.Keys == ends.Keys == readies.Keys
    requires Exclusive(ItemsOf(s), starts, ends) && IsReplay(s, r)
    ensures r == Ok(Apply(s, starts, ends, readies, Order(s)))
  {
    hide OrderCovers, G.Acyclic, Solves, Exclusive, ValidSchedule;
    var starts', ends', readies' :|
      && SolvedBy(s, starts', ends', readies') && s.Keys == starts'.Keys == ends'.Keys == readies'.Keys
      && r == if Exclusive(ItemsOf(s), starts', ends') then Ok(Apply(s, starts', ends', readies', Order(s)))
        else Err(Overlap);
    UniqueTimes(ItemsOf(s), Order(s), starts, ends, readies, starts', ends', readies');
  }

  ghost predicate SameWork(a: Items, b: Items) {
    && a.Keys == b.Keys
    && forall k :: k in a ==> a[k].waits == b[k].waits && a[k].keys == b[k].keys && a[k].duration == b[k].duration
  }

  lemma SolvesSameWork(a: Items, b: Items, predecessors: map<nat, set<nat>>, starts: map<nat, real>,
                       ends: map<nat, real>, readies: map<nat, real>)
    requires SameWork(a, b) && Solves(a, predecessors, starts, ends, readies)
    ensures Solves(b, predecessors, starts, ends, readies)
  {
    forall k | k in b ensures SolvedAt(b, predecessors, starts, ends, readies, k) {
      assert SolvedAt(a, predecessors, starts, ends, readies, k);
    }
  }

  lemma ExclusiveSameWork(a: Items, b: Items, starts: map<nat, real>, ends: map<nat, real>)
    requires SameWork(a, b) && Exclusive(a, starts, ends)
    ensures Exclusive(b, starts, ends)
  {
    forall key ensures ExclusiveKey(PositiveUsers(b, starts, ends, key), starts, ends) {
      assert PositiveUsers(b, starts, ends, key) == PositiveUsers(a, starts, ends, key);
      assert ExclusiveKey(PositiveUsers(a, starts, ends, key), starts, ends);
    }
  }

  /** Retiming keeps what each transfer waits for, occupies and lasts. */
  lemma SolvedWork(s: Schedule, predecessors: map<nat, set<nat>>, starts: map<nat, real>, ends: map<nat, real>,
                   readies: map<nat, real>)
    requires Solves(ItemsOf(s), predecessors, starts, ends, readies)
    ensures s.Keys == starts.Keys == ends.Keys == readies.Keys == predecessors.Keys
    ensures SameWork(ItemsOf(s), ItemsOf(Apply(s, starts, ends, readies, predecessors)))
  {
    SolvedKeys(s, predecessors, starts, ends, readies);
    hide *;
    var t := Apply(s, starts, ends, readies, predecessors);
    forall k | k in s ensures k in ItemsOf(s) && k in ItemsOf(t) && SameItem(ItemsOf(s)[k], ItemsOf(t)[k]) {
      SolvedItem(s, predecessors, starts, ends, readies, k);
    }
    SameItems(s, t);
  }

  ghost predicate SameItem(a: Item, b: Item) {
    a.waits == b.waits && a.keys == b.keys && a.duration == b.duration
  }

  lemma SolvedKeys(s: Schedule, predecessors: map<nat, set<nat>>, starts: map<nat, real>, ends: map<nat, real>,
                   readies: map<nat, real>)
    requires Solves(ItemsOf(s), predecessors, starts, ends, readies)
    ensures s.Keys == starts.Keys == ends.Keys == readies.Keys == predecessors.Keys
    ensures Apply(s, starts, ends, readies, predecessors).Keys == s.Keys
  {
    hide SolvedAt;
  }

  lemma SolvedItem(s: Schedule, predecessors: map<nat, set<nat>>, starts: map<nat, real>, ends: map<nat, real>,
                   readies: map<nat, real>, k: nat)
    requires Solves(ItemsOf(s), predecessors, starts, ends, readies) && k in s
    requires s.Keys == starts.Keys == ends.Keys == readies.Keys == predecessors.Keys
    ensures var t := Apply(s, starts, ends, readies, predecessors);
            k in ItemsOf(s) && k in ItemsOf(t) && SameItem(ItemsOf(s)[k], ItemsOf(t)[k])
  {
    hide IsLatest;
    assert SolvedAt(ItemsOf(s), predecessors, starts, ends, readies, k);
    hide Solves;
    AppliedItem(s, starts, ends, readies, predecessors, k);
    hide ItemsOf, Apply;
  }

  lemma AppliedItem(s: Schedule, starts: map<nat, real>, ends: map<nat, real>, readies: map<nat, real>,
                    predecessors: map<nat, set<nat>>, k: nat)
    requires s.Keys == starts.Keys == ends.Keys == readies.Keys == predecessors.Keys && k in s
    ensures var a, b := ItemsOf(s)[k], ItemsOf(Apply(s, starts, ends, readies, predecessors))[k];
            b.waits == a.waits && b.keys == a.keys && b.duration == ends[k] - starts[k]
  {
  }

  lemma SameItems(s: Schedule, t: Schedule)
    requires s.Keys == t.Keys
    requires forall k :: k in s ==> k in ItemsOf(s) && k in ItemsOf(t) && SameItem(ItemsOf(s)[k], ItemsOf(t)[k])
    ensures SameWork(ItemsOf(s), ItemsOf(t))
  {
    hide ItemsOf;
  }

  lemma ApplyTwice(s: Schedule, starts: map<nat, real>, ends: map<nat, real>, readies: map<nat, real>,
                   predecessors: map<nat, set<nat>>)
    requires s.Keys == starts.Keys == ends.Keys == readies.Keys == predecessors.Keys
    ensures var g := Apply(s, starts, ends, readies, predecessors);
            g.Keys == s.Keys && Order(g) == predecessors && Apply(g, starts, ends, readies, predecessors) == g
  {
  }

  lemma RetimedIsValid(s: Schedule, g: Schedule, t: Timetable)
    requires ValidSchedule(s) && RetimedBy(s, g, t)
    ensures ValidSchedule(g) && OrderCovers(g) && g.Keys == s.Keys && Order(g) == t.predecessors
    ensures G.Closed(Order(g)) && G.Acyclic(Order(g))
  {
    hide *;
    RetimedParts(s, g, t);
    ItemsValid(s);
    GreedyIsAcyclic(ItemsOf(s), t);
    ApplyTwice(s, t.starts, t.ends, t.readies, t.predecessors);
    GreedyEnds(ItemsOf(s), t);
    forall k | k in s ensures s[k].semantic <= t.predecessors[k] {
      SemanticItem(s, k);
    }
    AppliedIsValid(s, g, t);
  }

  lemma GreedyEnds(items: Items, t: Timetable)
    requires IsGreedy(items, t)
    ensures forall k :: k in t.starts ==> k in t.ends && t.starts[k] <= t.ends[k]
  {
    hide Placed, FirstChoice;
  }

  lemma SemanticItem(s: Schedule, k: nat)
    requires k in s
    ensures k in ItemsOf(s) && ItemsOf(s)[k].waits == s[k].semantic
  {
  }

  lemma AppliedIsValid(s: Schedule, g: Schedule, t: Timetable)
    requires ValidSchedule(s) && t.starts.Keys == t.ends.Keys == t.readies.Keys == t.predecessors.Keys == s.Keys
    requires g == Apply(s, t.starts, t.ends, t.readies, t.predecessors) && G.Closed(t.predecessors)
    requires forall k :: k in s ==> s[k].semantic <= t.predecessors[k] && t.starts[k] <= t.ends[k]
    ensures ValidSchedule(g) && OrderCovers(g)
  {
  }

  /** Greedy retiming replayed in its own order reproduces itself: same starts, ends and ready times, no overlap found.
      */
  lemma ReplayOfGreedy(s: Schedule, g: Schedule, r: Result<Schedule, RetimeError>)
    requires ValidSchedule(s) && IsGreedyRetiming(s, g)
    ensures ValidSchedule(g)
    ensures IsReplay(g, r) ==> r == Ok(g)
  {
    hide *;
    var t := TableOf(s, g);
    RetimedIsValid(s, g, t);
    if IsReplay(g, r) {
      RetimedParts(s, g, t);
      GreedySolves(ItemsOf(s), t);
      SolvedWork(s, t.predecessors, t.starts, t.ends, t.readies);
      ApplyTwice(s, t.starts, t.ends, t.readies, t.predecessors);
      SolvesSameWork(ItemsOf(s), ItemsOf(g), t.predecessors, t.starts, t.ends, t.readies);
      GreedyIsExclusive(ItemsOf(s), t);
      ExclusiveSameWork(ItemsOf(s), ItemsOf(g), t.starts, t.ends);
      SolvedByIs(g, t.predecessors, t.starts, t.ends, t.readies);
      ReplayIs(g, t.starts, t.ends, t.readies, r);
    }
  }

  lemma TableOf(s: Schedule, g: Schedule) returns (t: Timetable)
    requires IsGreedyRetiming(s, g)
    ensures RetimedBy(s, g, t)
  {
    t :| RetimedBy(s, g, t);
  }

  lemma RetimedParts(s: Schedule, g: Schedule, t: Timetable)
    requires RetimedBy(s, g, t)
    ensures IsGreedy(ItemsOf(s), t) && Partial(ItemsOf(s), t)
    ensures s.Keys == t.starts.Keys == t.ends.Keys == t.readies.Keys == t.predecessors.Keys
    ensures g == Apply(s, t.starts, t.ends, t.readies, t.predecessors)
  {
    hide Placed, FirstChoice;
  }

  lemma SolvedByIs(g: Schedule, predecessors: map<nat, set<nat>>, starts: map<nat, real>, ends: map<nat, real>,
                   readies: map<nat, real>)
    requires Order(g) == predecessors && Solves(ItemsOf(g), predecessors, starts, ends, readies)
    ensures SolvedBy(g, starts, ends, readies)
  {
  }

  /** Both runs of _retime. */
  method RecomputeThenReplay(s: Schedule)
    returns (g: Result<Schedule, RetimeError>, again: Result<Schedule, RetimeError>)
    requires ValidSchedule(s)
    ensures G.Closed(Waits(ItemsOf(s))) && (g.Ok? <==> G.Acyclic(Waits(ItemsOf(s))))
    ensures again == g
  {
    g := Recompute(s);
    again := g;
    if g.Ok? {
      hide *;
      ReplayOfGreedy(s, g.value, g);
      again := Replay(g.value);
      ReplayOfGreedy(s, g.value, again);
    }
  }
}
