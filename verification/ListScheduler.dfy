/** Greedy list scheduling onto exclusive lanes and resource slots, and replay of a fixed order: the loops shared by
    vericcl/composer/timing.py (_retime) and vericcl/composer/dual.py (_schedule_drafts).

    Transfer identities are numbers; times are exact.  Candidates are scanned as a set: the least of
    (start, tie, id) does not depend on the scan order. */
module ListScheduler {
  import opened Basics
  import G = Graphs

  /** What a transfer occupies exclusively while it runs. */
  datatype Key = Lane(src: nat, dst: nat, channel: nat) | Slot(resource: nat, slot: nat)

  datatype Item = Item(waits: set<nat>, keys: set<Key>, tie: real, duration: real)

  type Items = map<nat, Item>

  datatype Timetable = Timetable(
    order: seq<nat>,
    starts: map<nat, real>,
    ends: map<nat, real>,
    readies: map<nat, real>,
    predecessors: map<nat, set<nat>>)

  ghost predicate ValidItems(items: Items) {
    forall k :: k in items ==> items[k].waits <= items.Keys && items[k].duration >= 0.0
  }

  ghost function Waits(items: Items): G.Dependencies {
    map k | k in items :: items[k].waits
  }

  // ---------------------------------------------------------------- what greedy scheduling means

  /** Scheduled transfers that occupy something k occupies. */
  ghost function Sharers(items: Items, done: set<nat>, keys: set<Key>): set<nat> {
    set x | x in done && x in items && items[x].keys * keys != {}
  }

  /** x was the last to occupy some key of k. */
  ghost predicate IsLastUser(items: Items, order: seq<nat>, keys: set<Key>, x: nat) {
    exists i, key :: 0 <= i < |order| && order[i] == x && key in keys && LastUse(items, order, key, i)
  }

  ghost predicate LastUse(items: Items, order: seq<nat>, key: Key, i: nat)
    requires i < |order|
  {
    && order[i] in items && key in items[order[i]].keys
    && forall l :: i < l < |order| && order[l] in items ==> key !in items[order[l]].keys
  }

  ghost predicate NotAfter(a: real, tieA: real, idA: nat, b: real, tieB: real, idB: nat) {
    a < b || (a == b && (tieA < tieB || (tieA == tieB && idA <= idB)))
  }

  /** The earliest start of c once `done` is scheduled. */
  ghost predicate CanStart(items: Items, ends: map<nat, real>, done: set<nat>, c: nat, t: real)
    requires c in items
  {
    items[c].waits <= done && IsLatest(ends, items[c].waits + Sharers(items, done, items[c].keys), t)
  }

  /** k, scheduled after `before`, starts as early as it can, and no candidate goes first. */
  ghost predicate Placed(items: Items, t: Timetable, before: seq<nat>, k: nat) {
    && k in items && k in t.starts && k in t.ends && k in t.readies && k in t.predecessors
    && CanStart(items, t.ends, Elements(before), k, t.starts[k])
    && t.ends[k] == t.starts[k] + items[k].duration
    && IsLatest(t.ends, items[k].waits, t.readies[k])
    && (forall x :: x in t.predecessors[k] <==> x in items[k].waits || IsLastUser(items, before, items[k].keys, x))
    && IsLatest(t.ends, t.predecessors[k], t.starts[k])
    && t.predecessors[k] <= Elements(before)
  }

  ghost predicate FirstChoice(items: Items, t: Timetable, before: seq<nat>, k: nat) {
    && k in items && k in t.starts
    && forall c, u :: c in items && c !in before && CanStart(items, t.ends, Elements(before), c, u)
                      ==> NotAfter(t.starts[k], items[k].tie, k, u, items[c].tie, c)
  }

  ghost predicate Partial(items: Items, t: Timetable) {
    && Distinct(t.order)
    && Elements(t.order) == t.starts.Keys == t.ends.Keys == t.readies.Keys == t.predecessors.Keys
    && t.starts.Keys <= items.Keys
    && (forall k :: k in t.starts ==> 0.0 <= t.starts[k] <= t.ends[k])
    && forall j :: 0 <= j < |t.order| ==>
      Placed(items, t, t.order[..j], t.order[j]) && FirstChoice(items, t, t.order[..j], t.order[j])
  }

  ghost predicate IsGreedy(items: Items, t: Timetable) {
    Partial(items, t) && t.starts.Keys == items.Keys
  }

  // ---------------------------------------------------------------- consequences

  lemma PrefixMembers(order: seq<nat>, i: nat, j: nat)
    requires i < j <= |order|
    ensures order[i] in Elements(order[..j])
  {
    assert order[..j][i] == order[i];
  }

  /** No two transfers overlap on a lane or slot: whoever is scheduled first ends before the other starts. */
  lemma NoOverlap(items: Items, t: Timetable, i: nat, j: nat)
    requires Partial(items, t) && i < j < |t.order|
    requires t.order[i] in items && t.order[j] in items && items[t.order[i]].keys * items[t.order[j]].keys != {}
    ensures t.order[i] in t.ends && t.order[j] in t.starts && t.ends[t.order[i]] <= t.starts[t.order[j]]
  {
    var a, b := t.order[i], t.order[j];
    PrefixMembers(t.order, i, j);
    assert Placed(items, t, t.order[..j], b);
    assert a in items[b].waits + Sharers(items, Elements(t.order[..j]), items[b].keys);
  }

  lemma WaitsEndFirst(items: Items, t: Timetable, k: nat, d: nat)
    requires Partial(items, t) && k in t.starts && d in items[k].waits
    ensures d in t.ends && t.ends[d] <= t.readies[k] <= t.starts[k]
  {
    assert k in Elements(t.order);
    var j :| 0 <= j < |t.order| && t.order[j] == k;
    assert Placed(items, t, t.order[..j], k);
    LatestGrows(t.ends, items[k].waits, items[k].waits
                + Sharers(items, Elements(t.order[..j]), items[k].keys), t.readies[k], t.starts[k]);
  }

  lemma PlacedAt(items: Items, t: Timetable, j: nat)
    requires Partial(items, t) && j < |t.order|
    ensures Placed(items, t, t.order[..j], t.order[j]) && FirstChoice(items, t, t.order[..j], t.order[j])
    ensures t.order[j] in t.starts && t.order[j] in t.ends && 0.0 <= t.starts[t.order[j]] <= t.ends[t.order[j]]
    ensures t.order[j] in items && t.order[j] !in t.order[..j]
    ensures forall k :: k in t.ends ==> t.ends[k] >= 0.0
  {
    hide Placed, FirstChoice;
    assert t.order[j] in Elements(t.order);
  }

  /** A transfer that could have gone first starts no earlier than the one that did. */
  lemma CandidateStartsLater(items: Items, t: Timetable, before: seq<nat>, a: nat, b: nat)
    requires FirstChoice(items, t, before, a) && Placed(items, t, before + [a], b)
    requires b !in before && items[b].waits <= Elements(before) && Elements(before) <= t.ends.Keys
    requires forall k :: k in t.ends ==> t.ends[k] >= 0.0
    ensures t.starts[a] <= t.starts[b]
  {
    var sharers := Sharers(items, Elements(before), items[b].keys);
    var u := LatestExists(t.ends, items[b].waits + sharers);
    assert CanStart(items, t.ends, Elements(before), b, u);
    assert sharers <= Sharers(items, Elements(before + [a]), items[b].keys);
    LatestGrows(t.ends, items[b].waits + sharers, items[b].waits
                + Sharers(items, Elements(before + [a]), items[b].keys), u, t.starts[b]);
  }

  /** Picks come in nondecreasing start order. */
  lemma NextStartsLater(items: Items, t: Timetable, j: nat)
    requires ValidItems(items) && Partial(items, t) && j + 1 < |t.order|
    ensures t.order[j] in t.starts && t.order[j + 1] in t.starts && t.starts[t.order[j]] <= t.starts[t.order[j + 1]]
  {
    hide *;
    var a, b := t.order[j], t.order[j + 1];
    PlacedAt(items, t, j);
    PlacedAt(items, t, j + 1);
    assert t.order[..j + 1] == t.order[..j] + [a];
    if a in items[b].waits {
      WaitsEndFirst(items, t, b, a);
    } else {
      WaitsAmong(items, t, t.order[..j], a, b);
      OrderTimed(items, t, j);
      CandidateStartsLater(items, t, t.order[..j], a, b);
    }
  }

  lemma WaitsAmong(items: Items, t: Timetable, before: seq<nat>, a: nat, b: nat)
    requires Placed(items, t, before + [a], b) && a !in items[b].waits
    ensures items[b].waits <= Elements(before)
  {
  }

  lemma OrderTimed(items: Items, t: Timetable, j: nat)
    requires Partial(items, t) && j <= |t.order|
    ensures Elements(t.order[..j]) <= t.ends.Keys
  {
    forall k | k in Elements(t.order[..j]) ensures k in Elements(t.order) {
      var i :| 0 <= i < j && t.order[..j][i] == k;
      assert t.order[i] == k;
    }
  }

  lemma {:induction false} StartsAscend(items: Items, t: Timetable, i: nat, j: nat)
    requires ValidItems(items) && Partial(items, t) && i <= j < |t.order|
    ensures t.order[i] in t.starts && t.order[j] in t.starts && t.starts[t.order[i]] <= t.starts[t.order[j]]
    decreases j - i
  {
    hide *;
    PlacedAt(items, t, i);
    if i < j {
      StartsAscend(items, t, i, j - 1);
      NextStartsLater(items, t, j - 1);
    }
  }

  // ---------------------------------------------------------------- acyclicity

  ghost function Positions(order: seq<nat>): map<nat, nat> {
    map k | k in order :: Position(order, k)
  }

  ghost function Position(order: seq<nat>, k: nat): (i: nat)
    requires k in order
    ensures i < |order| && order[i] == k
  {
    var i :| 0 <= i < |order| && order[i] == k; i
  }

  lemma PositionIs(order: seq<nat>, i: nat)
    requires Distinct(order) && i < |order|
    ensures order[i] in order && Position(order, order[i]) == i
  {
    assert order[Position(order, order[i])] == order[i];
  }

  /** The recorded predecessors point backwards in the order. */
  lemma PredecessorsBefore(items: Items, t: Timetable, k: nat, x: nat)
    requires Partial(items, t) && k in t.order && k in t.predecessors && x in t.predecessors[k]
    ensures x in t.order && Position(t.order, x) < Position(t.order, k)
  {
    var j := Position(t.order, k);
    assert Placed(items, t, t.order[..j], t.order[j]);
    assert x in Elements(t.order[..j]);
    var i :| 0 <= i < j && t.order[..j][i] == x;
    assert t.order[i] == x;
    PositionIs(t.order, i);
  }

  lemma GreedyIsAcyclic(items: Items, t: Timetable)
    requires ValidItems(items) && IsGreedy(items, t)
    ensures G.Closed(t.predecessors) && G.Acyclic(t.predecessors)
    ensures forall k :: k in items ==> items[k].waits <= t.predecessors[k]
  {
    forall k | k in items
      ensures items[k].waits <= t.predecessors[k] <= items.Keys
    {
      assert k in Elements(t.order);
      var j := Position(t.order, k);
      assert Placed(items, t, t.order[..j], t.order[j]);
      forall x | x in t.predecessors[k] ensures x in items {
        PredecessorsBefore(items, t, k, x);
        assert x in Elements(t.order);
      }
    }
    var rank := Positions(t.order);
    forall k, x | k in t.predecessors && x in t.predecessors[k] ensures rank[x] < rank[k] {
      assert k in Elements(t.order);
      PredecessorsBefore(items, t, k, x);
    }
    assert t.predecessors.Keys <= rank.Keys by {
      forall k | k in t.predecessors ensures k in rank {
        assert k in Elements(t.order);
      }
    }
    assert G.Ranks(t.predecessors, rank);
  }

  lemma FewerEdges(small: G.Dependencies, big: G.Dependencies)
    requires G.Closed(small) && G.Closed(big) && G.Acyclic(big)
    requires small.Keys == big.Keys && forall k :: k in small ==> small[k] <= big[k]
    ensures G.Acyclic(small)
  {
    var rank :| G.Ranks(big, rank);
    assert G.Ranks(small, rank);
  }

  // ---------------------------------------------------------------- times are determined by predecessors

  /** Starts are the latest ends of the given predecessors. */
  ghost predicate Solves(items: Items, predecessors: map<nat, set<nat>>, starts: map<nat, real>, ends: map<nat, real>,
                         readies: map<nat, real>) {
    && starts.Keys == ends.Keys == readies.Keys == items.Keys == predecessors.Keys
    && forall k :: k in items ==> SolvedAt(items, predecessors, starts, ends, readies, k)
  }

  ghost predicate SolvedAt(items: Items, predecessors: map<nat, set<nat>>, starts: map<nat, real>, ends: map<nat, real>,
                           readies: map<nat, real>, k: nat)
    requires k in items && k in predecessors && k in starts && k in ends && k in readies
  {
    && IsLatest(ends, predecessors[k], starts[k])
    && ends[k] == starts[k] + items[k].duration
    && IsLatest(ends, items[k].waits, readies[k])
  }

  lemma GreedySolves(items: Items, t: Timetable)
    requires IsGreedy(items, t)
    ensures Solves(items, t.predecessors, t.starts, t.ends, t.readies)
  {
    forall k | k in items ensures SolvedAt(items, t.predecessors, t.starts, t.ends, t.readies, k) {
      assert k in Elements(t.order);
      var j := Position(t.order, k);
      assert Placed(items, t, t.order[..j], t.order[j]);
    }
  }

  /** Over acyclic predecessors the times are unique. */
  lemma {:induction false} SameEnd(items: Items, predecessors: map<nat, set<nat>>, rank: map<nat, nat>,
                                   starts: map<nat, real>, ends: map<nat, real>, readies: map<nat, real>,
                                   starts': map<nat, real>, ends': map<nat, real>, readies': map<nat, real>, k: nat)
    requires G.Closed(predecessors) && G.Ranks(predecessors, rank) && k in items
    requires Solves(items, predecessors, starts, ends, readies) && Solves(items, predecessors, starts', ends', readies')
    ensures starts[k] == starts'[k] && ends[k] == ends'[k]
    decreases rank[k]
  {
    forall x | x in predecessors[k] ensures ends[x] == ends'[x] {
      SameEnd(items, predecessors, rank, starts, ends, readies, starts', ends', readies', x);
    }
    assert SolvedAt(items, predecessors, starts, ends, readies, k)
        && SolvedAt(items, predecessors, starts', ends', readies', k);
    LatestKept(ends, ends', predecessors[k], starts[k]);
    LatestUnique(ends', predecessors[k], starts[k], starts'[k]);
  }

  lemma SameReady(items: Items, predecessors: map<nat, set<nat>>, starts: map<nat, real>, ends: map<nat, real>,
                  readies: map<nat, real>,
                  starts': map<nat, real>, readies': map<nat, real>, k: nat)
    requires Solves(items, predecessors, starts, ends, readies) && Solves(items, predecessors, starts', ends, readies')
    requires k in items
    ensures readies[k] == readies'[k]
  {
    assert SolvedAt(items, predecessors, starts, ends, readies, k)
        && SolvedAt(items, predecessors, starts', ends, readies', k);
    LatestUnique(ends, items[k].waits, readies[k], readies'[k]);
  }

  lemma SameTimes(items: Items, predecessors: map<nat, set<nat>>, rank: map<nat, nat>,
                  starts: map<nat, real>, ends: map<nat, real>, readies: map<nat, real>,
                  starts': map<nat, real>, ends': map<nat, real>, readies': map<nat, real>)
    requires G.Closed(predecessors) && G.Ranks(predecessors, rank)
    requires Solves(items, predecessors, starts, ends, readies) && Solves(items, predecessors, starts', ends', readies')
    ensures starts == starts' && ends == ends'
  {
    hide *;
    SolvedKeys(items, predecessors, starts, ends, readies);
    SolvedKeys(items, predecessors, starts', ends', readies');
    forall k | k in items ensures starts[k] == starts'[k] && ends[k] == ends'[k] {
      SameEnd(items, predecessors, rank, starts, ends, readies, starts', ends', readies', k);
    }
  }

  lemma UniqueTimes(items: Items, predecessors: map<nat, set<nat>>,
                    starts: map<nat, real>, ends: map<nat, real>, readies: map<nat, real>,
                    starts': map<nat, real>, ends': map<nat, real>, readies': map<nat, real>)
    requires G.Closed(predecessors) && G.Acyclic(predecessors)
    requires Solves(items, predecessors, starts, ends, readies) && Solves(items, predecessors, starts', ends', readies')
    ensures starts == starts' && ends == ends' && readies == readies'
  {
    hide Solves, G.Ranks;
    var rank :| G.Ranks(predecessors, rank);
    SameTimes(items, predecessors, rank, starts, ends, readies, starts', ends', readies');
    SameReadies(items, predecessors, starts, ends, readies, readies');
  }

  lemma SameReadies(items: Items, predecessors: map<nat, set<nat>>, starts: map<nat, real>, ends: map<nat, real>,
                    readies: map<nat, real>,
                    readies': map<nat, real>)
    requires Solves(items, predecessors, starts, ends, readies) && Solves(items, predecessors, starts, ends, readies')
    ensures readies == readies'
  {
    hide *;
    SolvedKeys(items, predecessors, starts, ends, readies);
    SolvedKeys(items, predecessors, starts, ends, readies');
    forall k | k in items ensures readies[k] == readies'[k] {
      SameReady(items, predecessors, starts, ends, readies, starts, readies', k);
    }
  }

  lemma SolvedKeys(items: Items, predecessors: map<nat, set<nat>>, starts: map<nat, real>, ends: map<nat, real>,
                   readies: map<nat, real>)
    requires Solves(items, predecessors, starts, ends, readies)
    ensures starts.Keys == ends.Keys == readies.Keys == items.Keys
  {
  }
}
