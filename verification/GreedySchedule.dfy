/** The greedy list-scheduling loop (vericcl/composer/timing.py, _retime; vericcl/composer/dual.py, _schedule_drafts).
    */
module GreedySchedule {
  import opened Basics
  import opened ListScheduler
  import G = Graphs

  /** Last occupant of each key, and when it leaves. */
  ghost predicate Book(items: Items, t: Timetable, ready: map<Key, real>, last: map<Key, nat>) {
    && ready.Keys == last.Keys
    && (forall x, key :: x in t.order && x in items && key in items[x].keys ==> key in last)
    && forall key :: key in last ==> BookedAt(items, t, ready, last, key)
  }

  ghost predicate BookedAt(items: Items, t: Timetable, ready: map<Key, real>, last: map<Key, nat>, key: Key)
    requires key in ready && key in last
  {
    && last[key] in t.ends && ready[key] == t.ends[last[key]]
    && exists i :: 0 <= i < |t.order| && t.order[i] == last[key] && LastUse(items, t.order, key, i)
  }

  /** The last occupant leaves last. */
  lemma LastLeavesLast(items: Items, t: Timetable, ready: map<Key, real>, last: map<Key, nat>, key: Key, x: nat)
    requires Partial(items, t) && Book(items, t, ready, last)
    requires x in t.order && x in items && key in items[x].keys
    ensures key in last && key in ready && x in t.ends && last[key] in t.ends && last[key] in items
    ensures key in items[last[key]].keys && last[key] in t.order
    ensures t.ends[x] <= ready[key] == t.ends[last[key]]
  {
    hide Partial, Placed, FirstChoice;
    var j :| 0 <= j < |t.order| && t.order[j] == x;
    PlacedAt(items, t, j);
    assert BookedAt(items, t, ready, last, key);
    var i :| 0 <= i < |t.order| && t.order[i] == last[key] && LastUse(items, t.order, key, i);
    if j < i {
      assert key in items[t.order[j]].keys * items[t.order[i]].keys;
      NoOverlap(items, t, j, i);
      PlacedAt(items, t, i);
    }
  }

  // ---------------------------------------------------------------- the start of one candidate

  /** The latest moment at which a key of the candidate is vacated, or the given time if later. */
  method LatestOf(keys: set<Key>, ready: map<Key, real>, semanticReady: real) returns (start: real)
    ensures start >= semanticReady
    ensures forall key :: key in keys && key in ready ==> ready[key] <= start
    ensures start == semanticReady || exists key :: key in keys && key in ready && ready[key] == start
  {
    start := semanticReady;
    var rest := keys;
    while rest != {}
      invariant rest <= keys
      invariant start >= semanticReady
      invariant forall key :: key in keys && key !in rest && key in ready ==> ready[key] <= start
      invariant start == semanticReady || exists key :: key in keys && key in ready && ready[key] == start
      decreases |rest|
    {
      var key :| key in rest;
      if key in ready && start < ready[key] {
        start := ready[key];
      }
      rest := rest - {key};
    }
  }

  ghost function LastUsersOf(keys: set<Key>, last: map<Key, nat>): set<nat> {
    set key | key in keys && key in last :: last[key]
  }

  lemma LastUserIs(items: Items, t: Timetable, ready: map<Key, real>, last: map<Key, nat>, keys: set<Key>, x: nat)
    requires Book(items, t, ready, last)
    ensures x in LastUsersOf(keys, last) <==> IsLastUser(items, t.order, keys, x)
  {
    if x in LastUsersOf(keys, last) {
      var key :| key in keys && key in last && last[key] == x;
      assert BookedAt(items, t, ready, last, key);
    }
    if IsLastUser(items, t.order, keys, x) {
      var i, key :| 0 <= i < |t.order| && t.order[i] == x && key in keys && LastUse(items, t.order, key, i);
      assert BookedAt(items, t, ready, last, key);
      var l :| 0 <= l < |t.order| && t.order[l] == last[key] && LastUse(items, t.order, key, l);
      assert l == i;
    }
  }

  /** The computed start is the latest end of what k waits for and of everything that shares a key with it. */
  lemma StartIsEarliest(items: Items, t: Timetable, ready: map<Key, real>, last: map<Key, nat>, k: nat,
                        semanticReady: real, start: real)
    requires Partial(items, t) && Book(items, t, ready, last) && k in items && items[k].waits <= t.ends.Keys
    requires IsLatest(t.ends, items[k].waits, semanticReady) && start >= semanticReady
    requires forall key :: key in items[k].keys && key in ready ==> ready[key] <= start
    requires start == semanticReady || exists key :: key in items[k].keys && key in ready && ready[key] == start
    ensures start >= 0.0
    ensures IsLatest(t.ends, items[k].waits + LastUsersOf(items[k].keys, last), start)
    ensures CanStart(items, t.ends, Elements(t.order), k, start)
  {
    hide Partial, Book;
    var sharers := Sharers(items, Elements(t.order), items[k].keys);
    var users := LastUsersOf(items[k].keys, last);
    EndsNotNegative(items, t);
    BookKeys(items, t, ready, last);
    forall x | x in sharers ensures x in t.ends && t.ends[x] <= start && users != {} {
      SharerLeaves(items, t, ready, last, k, x);
    }
    forall x | x in users ensures x in sharers {
      UserShares(items, t, ready, last, k, x);
    }
    assert items[k].waits <= Elements(t.order);
    Attained(t.ends, items[k].waits, users, sharers, semanticReady, start, items[k].keys, ready, last);
  }

  lemma Attained(ends: map<nat, real>, waits: set<nat>, users: set<nat>, sharers: set<nat>, semanticReady: real,
                 start: real,
                 keys: set<Key>, ready: map<Key, real>, last: map<Key, nat>)
    requires IsLatest(ends, waits, semanticReady) && semanticReady <= start
    requires users == LastUsersOf(keys, last) && users <= sharers <= ends.Keys
    requires forall x :: x in sharers ==> ends[x] <= start && users != {}
    requires forall k :: k in ends ==> ends[k] >= 0.0
    requires ready.Keys == last.Keys && forall key :: key in last ==> last[key] in ends && ready[key] == ends[last[key]]
    requires start == semanticReady || exists key :: key in keys && key in ready && ready[key] == start
    ensures start >= 0.0
    ensures IsLatest(ends, waits + users, start) && IsLatest(ends, waits + sharers, start)
  {
    if waits + users == {} {
      assert sharers == {};
    } else if key :| key in keys && key in ready && ready[key] == start {
      assert last[key] in users;
    }
  }

  lemma EndsNotNegative(items: Items, t: Timetable)
    requires Partial(items, t)
    ensures forall k :: k in t.ends ==> t.ends[k] >= 0.0
    ensures Elements(t.order) == t.ends.Keys
  {
    hide Placed, FirstChoice;
  }

  lemma BookKeys(items: Items, t: Timetable, ready: map<Key, real>, last: map<Key, nat>)
    requires Book(items, t, ready, last)
    ensures ready.Keys == last.Keys
        && forall key :: key in last ==> last[key] in t.ends && ready[key] == t.ends[last[key]]
  {
    assert forall key :: key in last ==> BookedAt(items, t, ready, last, key);
  }

  lemma SharerLeaves(items: Items, t: Timetable, ready: map<Key, real>, last: map<Key, nat>, k: nat, x: nat)
    requires Partial(items, t) && Book(items, t, ready, last) && k in items
    requires x in Sharers(items, Elements(t.order), items[k].keys)
    ensures x in t.ends && exists key :: key in items[k].keys && key in ready && t.ends[x] <= ready[key]
    ensures LastUsersOf(items[k].keys, last) != {}
  {
    hide Partial, Book;
    var key :| key in items[x].keys * items[k].keys;
    LastLeavesLast(items, t, ready, last, key, x);
    assert last[key] in LastUsersOf(items[k].keys, last);
  }

  lemma UserShares(items: Items, t: Timetable, ready: map<Key, real>, last: map<Key, nat>, k: nat, x: nat)
    requires Book(items, t, ready, last) && k in items && x in LastUsersOf(items[k].keys, last)
    ensures x in Sharers(items, Elements(t.order), items[k].keys)
  {
    var key :| key in items[k].keys && key in last && last[key] == x;
    assert BookedAt(items, t, ready, last, key);
    assert key in items[x].keys * items[k].keys;
  }

  // ---------------------------------------------------------------- choosing

  datatype Choice = Choice(id: nat, start: real, semanticReady: real)

  ghost predicate IsChoice(items: Items, t: Timetable, ready: map<Key, real>, last: map<Key, nat>, c: Choice) {
    && c.id in items && items[c.id].waits <= t.ends.Keys
    && IsLatest(t.ends, items[c.id].waits, c.semanticReady)
    && c.start >= 0.0
    && IsLatest(t.ends, items[c.id].waits + LastUsersOf(items[c.id].keys, last), c.start)
    && CanStart(items, t.ends, Elements(t.order), c.id, c.start)
  }

  method Candidate(items: Items, t: Timetable, ready: map<Key, real>, ghost last: map<Key, nat>, k: nat)
    returns (c: Choice)
    requires Partial(items, t) && Book(items, t, ready, last) && k in items && items[k].waits <= t.ends.Keys
    ensures c.id == k && IsChoice(items, t, ready, last, c)
  {
    var semanticReady := Latest(t.ends, items[k].waits);
    hide Partial, Book, IsLatest;
    var start := LatestOf(items[k].keys, ready, semanticReady);
    StartIsEarliest(items, t, ready, last, k, semanticReady, start);
    c := Choice(k, start, semanticReady);
  }

  ghost predicate Precedes(items: Items, a: Choice, b: Choice)
    requires a.id in items && b.id in items
  {
    NotAfter(a.start, items[a.id].tie, a.id, b.start, items[b.id].tie, b.id)
  }

  method Better(items: Items, a: Choice, b: Choice) returns (best: Choice)
    requires a.id in items && b.id in items
    ensures best == a || best == b
    ensures Precedes(items, best, a) && Precedes(items, best, b)
  {
    var tieA, tieB := items[a.id].tie, items[b.id].tie;
    if b.start < a.start || (b.start == a.start && (tieB < tieA || (tieB == tieA && b.id < a.id))) {
      best := b;
    } else {
      best := a;
    }
  }

  lemma StillFirst(items: Items, a: Choice, b: Choice, c: Choice)
    requires a.id in items && b.id in items && c.id in items && Precedes(items, a, b) && Precedes(items, b, c)
    ensures Precedes(items, a, c)
  {
  }

  /** The least candidate by (start, tie, id). */
  ghost predicate Least(items: Items, t: Timetable, ready: map<Key, real>, last: map<Key, nat>, candidates: set<nat>,
                        best: Choice) {
    && IsChoice(items, t, ready, last, best)
    && forall c: Choice :: c.id in candidates && IsChoice(items, t, ready, last, c) ==> Precedes(items, best, c)
  }

  lemma ChoiceUnique(items: Items, t: Timetable, ready: map<Key, real>, last: map<Key, nat>, a: Choice, b: Choice)
    requires IsChoice(items, t, ready, last, a) && IsChoice(items, t, ready, last, b) && a.id == b.id
    ensures a == b
  {
    hide IsLatest;
    LatestUnique(t.ends, items[a.id].waits, a.semanticReady, b.semanticReady);
    LatestUnique(t.ends, items[a.id].waits + LastUsersOf(items[a.id].keys, last), a.start, b.start);
  }

  lemma LeastNext(items: Items, t: Timetable, ready: map<Key, real>, last: map<Key, nat>, seen: set<nat>, old_: Choice,
                  c: Choice, best: Choice)
    requires Least(items, t, ready, last, seen, old_) && IsChoice(items, t, ready, last, c)
    requires best == old_ || best == c
    requires c.id in items && old_.id in items && Precedes(items, best, old_) && Precedes(items, best, c)
    ensures Least(items, t, ready, last, seen + {c.id}, best)
  {
    hide IsChoice, Precedes;
    ChoiceKnown(items, t, ready, last, old_);
    forall d: Choice | d.id in seen + {c.id} && IsChoice(items, t, ready, last, d)
      ensures best.id in items && d.id in items && Precedes(items, best, d)
    {
      ChoiceKnown(items, t, ready, last, d);
      if d.id == c.id {
        ChoiceUnique(items, t, ready, last, c, d);
      } else {
        StillFirst(items, best, old_, d);
      }
    }
  }

  lemma ChoiceKnown(items: Items, t: Timetable, ready: map<Key, real>, last: map<Key, nat>, c: Choice)
    requires IsChoice(items, t, ready, last, c)
    ensures c.id in items
  {
  }

  method Choose(items: Items, t: Timetable, ready: map<Key, real>, ghost last: map<Key, nat>, candidates: set<nat>)
    returns (best: Choice)
    requires Partial(items, t) && Book(items, t, ready, last) && candidates != {}
    requires forall k :: k in candidates ==> k in items && items[k].waits <= t.ends.Keys
    ensures best.id in candidates && Least(items, t, ready, last, candidates, best)
  {
    hide Partial, Book, Least, IsChoice, Precedes;
    HasMember(candidates);
    var first :| first in candidates;
    best := Candidate(items, t, ready, last, first);
    OnlyOne(items, t, ready, last, best);
    ghost var seen: set<nat> := {first};
    var rest := candidates - {first};
    while rest != {}
      invariant seen + rest == candidates && best.id in seen
      invariant Least(items, t, ready, last, seen, best)
      decreases |rest|
    {
      HasMember(rest);
      var k :| k in rest;
      var c := Candidate(items, t, ready, last, k);
      LeastKnown(items, t, ready, last, seen, best);
      var better := Better(items, best, c);
      LeastNext(items, t, ready, last, seen, best, c, better);
      best := better;
      seen, rest := seen + {k}, rest - {k};
    }
    assert seen == candidates;
  }

  lemma OnlyOne(items: Items, t: Timetable, ready: map<Key, real>, last: map<Key, nat>, c: Choice)
    requires IsChoice(items, t, ready, last, c)
    ensures Least(items, t, ready, last, {c.id}, c)
  {
    hide IsChoice;
    ChoiceKnown(items, t, ready, last, c);
    forall d: Choice | d.id in {c.id} && IsChoice(items, t, ready, last, d)
      ensures d.id in items && Precedes(items, c, d)
    {
      ChoiceUnique(items, t, ready, last, c, d);
    }
  }

  lemma LeastKnown(items: Items, t: Timetable, ready: map<Key, real>, last: map<Key, nat>, seen: set<nat>, best: Choice)
    requires Least(items, t, ready, last, seen, best)
    ensures best.id in items && IsChoice(items, t, ready, last, best)
  {
  }

  // ---------------------------------------------------------------- extending the timetable

  function Extended(items: Items, t: Timetable, last: map<Key, nat>, c: Choice): Timetable
    requires c.id in items
  {
    Timetable(t.order + [c.id], t.starts[c.id := c.start], t.ends[c.id := c.start + items[c.id].duration],
              t.readies[c.id := c.semanticReady],
              t.predecessors[c.id := items[c.id].waits + set key | key in items[c.id].keys && key in last :: last[key]])
  }

  lemma PlacedKept(items: Items, t: Timetable, u: Timetable, before: seq<nat>, k: nat)
    requires Placed(items, t, before, k) && Elements(before) <= t.ends.Keys <= u.ends.Keys
    requires forall x :: x in t.ends ==> u.ends[x] == t.ends[x]
    requires k in u.starts && k in u.readies && k in u.predecessors
    requires k in t.starts && k in t.readies && k in t.predecessors
    requires u.starts[k] == t.starts[k] && u.readies[k] == t.readies[k] && u.predecessors[k] == t.predecessors[k]
    ensures Placed(items, u, before, k)
  {
    hide IsLatest, IsLastUser;
    LatestKept(t.ends, u.ends, items[k].waits + Sharers(items, Elements(before), items[k].keys), t.starts[k]);
    LatestKept(t.ends, u.ends, items[k].waits, t.readies[k]);
    LatestKept(t.ends, u.ends, t.predecessors[k], t.starts[k]);
  }

  lemma FirstKept(items: Items, t: Timetable, u: Timetable, before: seq<nat>, k: nat)
    requires FirstChoice(items, t, before, k) && Elements(before) <= t.ends.Keys <= u.ends.Keys
    requires forall x :: x in t.ends ==> u.ends[x] == t.ends[x]
    requires k in t.starts && k in u.starts && u.starts[k] == t.starts[k]
    ensures FirstChoice(items, u, before, k)
  {
    hide IsLatest;
    forall c, v | c in items && c !in before && CanStart(items, u.ends, Elements(before), c, v)
      ensures NotAfter(u.starts[k], items[k].tie, k, v, items[c].tie, c)
    {
      LatestKept(t.ends, u.ends, items[c].waits + Sharers(items, Elements(before), items[c].keys), v);
      assert CanStart(items, t.ends, Elements(before), c, v);
    }
  }

  lemma NewPlaced(items: Items, t: Timetable, ready: map<Key, real>, last: map<Key, nat>, c: Choice)
    requires Partial(items, t) && Book(items, t, ready, last) && IsChoice(items, t, ready, last, c) && c.id !in t.ends
    ensures Placed(items, Extended(items, t, last, c), t.order, c.id)
  {
    hide Partial, Book, IsLatest, IsLastUser;
    var u := Extended(items, t, last, c);
    var users := LastUsersOf(items[c.id].keys, last);
    EndsNotNegative(items, t);
    LatestKept(t.ends, u.ends, items[c.id].waits + Sharers(items, Elements(t.order), items[c.id].keys), c.start);
    LatestKept(t.ends, u.ends, items[c.id].waits, c.semanticReady);
    forall x | x in users ensures x in Elements(t.order) {
      UserShares(items, t, ready, last, c.id, x);
    }
    LatestKept(t.ends, u.ends, items[c.id].waits + users, c.start);
    assert u.predecessors[c.id] == items[c.id].waits + users;
    forall x ensures x in users <==> IsLastUser(items, t.order, items[c.id].keys, x) {
      LastUserIs(items, t, ready, last, items[c.id].keys, x);
    }
  }

  lemma NewFirst(items: Items, t: Timetable, ready: map<Key, real>, last: map<Key, nat>, candidates: set<nat>,
                 c: Choice)
    requires Partial(items, t) && Book(items, t, ready, last) && Least(items, t, ready, last, candidates, c)
    requires c.id !in t.ends
    requires forall k :: k in items && k !in t.ends && items[k].waits <= t.ends.Keys ==> k in candidates
    ensures FirstChoice(items, Extended(items, t, last, c), t.order, c.id)
  {
    hide Partial, Book, IsLatest, Precedes, IsChoice;
    ChoiceKnown(items, t, ready, last, c);
    var u := Extended(items, t, last, c);
    forall d, v | d in items && d !in t.order && CanStart(items, u.ends, Elements(t.order), d, v)
      ensures NotAfter(u.starts[c.id], items[c.id].tie, c.id, v, items[d].tie, d)
    {
      EndsNotNegative(items, t);
      LatestKept(t.ends, u.ends, items[d].waits + Sharers(items, Elements(t.order), items[d].keys), v);
      assert CanStart(items, t.ends, Elements(t.order), d, v);
      var choice := ChoiceOf(items, t, ready, last, d, v);
      assert d !in Elements(t.order);
      LeastBefore(items, t, ready, last, candidates, c, choice);
    }
  }

  lemma LeastBefore(items: Items, t: Timetable, ready: map<Key, real>, last: map<Key, nat>, candidates: set<nat>,
                    c: Choice, d: Choice)
    requires Least(items, t, ready, last, candidates, c) && d.id in candidates && IsChoice(items, t, ready, last, d)
    ensures c.id in items && d.id in items && NotAfter(c.start, items[c.id].tie, c.id, d.start, items[d.id].tie, d.id)
  {
    hide IsChoice;
    ChoiceKnown(items, t, ready, last, c);
    ChoiceKnown(items, t, ready, last, d);
    assert Precedes(items, c, d);
  }

  /** Whatever can start is a choice with that start. */
  lemma ChoiceOf(items: Items, t: Timetable, ready: map<Key, real>, last: map<Key, nat>, d: nat, v: real)
    returns (c: Choice)
    requires Partial(items, t) && Book(items, t, ready, last) && d in items
    requires CanStart(items, t.ends, Elements(t.order), d, v)
    ensures c.id == d && c.start == v && IsChoice(items, t, ready, last, c)
  {
    hide Partial, Book, IsLatest;
    EndsNotNegative(items, t);
    var semanticReady := LatestExists(t.ends, items[d].waits);
    var start := KeyStart(items[d].keys, ready, semanticReady);
    StartIsEarliest(items, t, ready, last, d, semanticReady, start);
    LatestUnique(t.ends, items[d].waits + Sharers(items, Elements(t.order), items[d].keys), start, v);
    c := Choice(d, v, semanticReady);
  }

  lemma {:induction false} KeyStart(keys: set<Key>, ready: map<Key, real>, semanticReady: real) returns (start: real)
    ensures start >= semanticReady
    ensures forall key :: key in keys && key in ready ==> ready[key] <= start
    ensures start == semanticReady || exists key :: key in keys && key in ready && ready[key] == start
    decreases keys
  {
    start := semanticReady;
    if keys != {} {
      var key :| key in keys;
      start := KeyStart(keys - {key}, ready, semanticReady);
      if key in ready && start < ready[key] {
        start := ready[key];
      }
    }
  }

  lemma ExtendedIsPartial(items: Items, t: Timetable, ready: map<Key, real>, last: map<Key, nat>, candidates: set<nat>,
                          c: Choice)
    requires ValidItems(items) && Partial(items, t) && Book(items, t, ready, last)
    requires Least(items, t, ready, last, candidates, c) && c.id in items && c.id !in t.ends
    requires forall k :: k in items && k !in t.ends && items[k].waits <= t.ends.Keys ==> k in candidates
    ensures Partial(items, Extended(items, t, last, c))
  {
    hide Book, Least, IsChoice, Placed, FirstChoice;
    var u := Extended(items, t, last, c);
    LeastKnown(items, t, ready, last, candidates, c);
    StartNotNegative(items, t, ready, last, c);
    ExtendedShape(items, t, last, c);
    forall j | 0 <= j < |u.order|
      ensures Placed(items, u, u.order[..j], u.order[j]) && FirstChoice(items, u, u.order[..j], u.order[j])
    {
      if j < |t.order| {
        assert u.order[..j] == t.order[..j];
        OldKept(items, t, last, c, j);
      } else {
        assert u.order[..j] == t.order;
        NewPlaced(items, t, ready, last, c);
        NewFirst(items, t, ready, last, candidates, c);
      }
    }
  }

  lemma StartNotNegative(items: Items, t: Timetable, ready: map<Key, real>, last: map<Key, nat>, c: Choice)
    requires IsChoice(items, t, ready, last, c)
    ensures c.start >= 0.0
  {
  }

  lemma ExtendedShape(items: Items, t: Timetable, last: map<Key, nat>, c: Choice)
    requires ValidItems(items) && Partial(items, t) && c.id in items && c.id !in t.ends && c.start >= 0.0
    ensures var u := Extended(items, t, last, c);
            Distinct(u.order)
            && Elements(u.order) == u.starts.Keys == u.ends.Keys == u.readies.Keys == u.predecessors.Keys
            && u.starts.Keys <= items.Keys
            && (forall k :: k in u.starts ==> 0.0 <= u.starts[k] <= u.ends[k])
  {
    hide *;
    PartialShape(items, t);
    SnocDistinct(t.order, c.id);
    ExtendedKeys(items, t, last, c);
    ExtendedTimes(items, t, last, c);
  }

  lemma ExtendedKeys(items: Items, t: Timetable, last: map<Key, nat>, c: Choice)
    requires c.id in items
    ensures var u := Extended(items, t, last, c);
            u.order == t.order + [c.id]
            && u.starts.Keys == t.starts.Keys + {c.id} && u.ends.Keys == t.ends.Keys + {c.id}
            && u.readies.Keys == t.readies.Keys + {c.id} && u.predecessors.Keys == t.predecessors.Keys + {c.id}
  {
  }

  lemma ExtendedTimes(items: Items, t: Timetable, last: map<Key, nat>, c: Choice)
    requires ValidItems(items) && c.id in items && c.start >= 0.0 && t.starts.Keys == t.ends.Keys
    requires forall k :: k in t.starts ==> 0.0 <= t.starts[k] <= t.ends[k]
    ensures var u := Extended(items, t, last, c);
            u.starts.Keys == u.ends.Keys && forall k :: k in u.starts ==> 0.0 <= u.starts[k] <= u.ends[k]
  {
    assert items[c.id].duration >= 0.0;
  }

  lemma PartialShape(items: Items, t: Timetable)
    requires Partial(items, t)
    ensures Distinct(t.order)
    ensures Elements(t.order) == t.starts.Keys == t.ends.Keys == t.readies.Keys == t.predecessors.Keys
    ensures t.starts.Keys <= items.Keys && forall k :: k in t.starts ==> 0.0 <= t.starts[k] <= t.ends[k]
  {
    hide Placed, FirstChoice;
  }

  lemma SnocDistinct(order: seq<nat>, k: nat)
    requires Distinct(order) && k !in Elements(order)
    ensures Distinct(order + [k]) && Elements(order + [k]) == Elements(order) + {k}
  {
  }

  lemma OldKept(items: Items, t: Timetable, last: map<Key, nat>, c: Choice, j: nat)
    requires Partial(items, t) && c.id in items && c.id !in t.ends && j < |t.order|
    ensures Placed(items, Extended(items, t, last, c), t.order[..j], t.order[j])
    ensures FirstChoice(items, Extended(items, t, last, c), t.order[..j], t.order[j])
  {
    hide Partial, Placed, FirstChoice;
    var u := Extended(items, t, last, c);
    PlacedAt(items, t, j);
    OrderTimed(items, t, j);
    TimedTogether(items, t, t.order[j]);
    PlacedKept(items, t, u, t.order[..j], t.order[j]);
    FirstKept(items, t, u, t.order[..j], t.order[j]);
  }

  lemma TimedTogether(items: Items, t: Timetable, k: nat)
    requires Partial(items, t) && k in t.ends
    ensures k in t.readies && k in t.predecessors && k in t.starts
  {
    hide Placed, FirstChoice;
  }

  // ---------------------------------------------------------------- booking

  lemma ExtendedBook(items: Items, t: Timetable, ready: map<Key, real>, last: map<Key, nat>, c: Choice,
                     ready': map<Key, real>, last': map<Key, nat>)
    requires Book(items, t, ready, last) && c.id in items && c.id !in t.ends && c.id !in t.order
    requires ready' == ready + map key | key in items[c.id].keys :: c.start + items[c.id].duration
    requires last' == last + map key | key in items[c.id].keys :: c.id
    ensures Book(items, Extended(items, t, last, c), ready', last')
  {
    hide BookedAt;
    forall key | key in last' ensures BookedAt(items, Extended(items, t, last, c), ready', last', key) {
      if key in items[c.id].keys {
        NewBooking(items, t, last, c, ready', last', key);
      } else {
        OldBooking(items, t, ready, last, c, ready', last', key);
      }
    }
  }

  lemma NewBooking(items: Items, t: Timetable, last: map<Key, nat>, c: Choice, ready': map<Key, real>,
                   last': map<Key, nat>, key: Key)
    requires c.id in items && key in items[c.id].keys && key in ready' && key in last'
    requires ready'[key] == c.start + items[c.id].duration && last'[key] == c.id
    ensures BookedAt(items, Extended(items, t, last, c), ready', last', key)
  {
    var u := Extended(items, t, last, c);
    assert u.order[|t.order|] == c.id && LastUse(items, u.order, key, |t.order|);
  }

  lemma OldBooking(items: Items, t: Timetable, ready: map<Key, real>, last: map<Key, nat>, c: Choice,
                   ready': map<Key, real>, last': map<Key, nat>, key: Key)
    requires c.id in items && c.id !in t.ends && key !in items[c.id].keys
    requires key in ready && key in last && BookedAt(items, t, ready, last, key)
    requires key in ready' && key in last' && ready'[key] == ready[key] && last'[key] == last[key]
    ensures BookedAt(items, Extended(items, t, last, c), ready', last', key)
  {
    var u := Extended(items, t, last, c);
    var i :| 0 <= i < |t.order| && t.order[i] == last[key] && LastUse(items, t.order, key, i);
    assert u.order[i] == last[key] && LastUse(items, u.order, key, i);
  }

  // ---------------------------------------------------------------- the loop

  ghost predicate Going(items: Items, t: Timetable, ready: map<Key, real>, last: map<Key, nat>, pending: set<nat>) {
    && Partial(items, t) && Book(items, t, ready, last)
    && pending == items.Keys - t.ends.Keys && t.ends.Keys <= items.Keys
  }

  lemma StartGoing(items: Items)
    ensures Going(items, Timetable([], map[], map[], map[], map[]), map[], map[], items.Keys)
  {
  }

  lemma StepGoing(items: Items, t: Timetable, ready: map<Key, real>, last: map<Key, nat>, pending: set<nat>,
                  candidates: set<nat>, c: Choice,
                  ready': map<Key, real>, last': map<Key, nat>)
    requires ValidItems(items) && Going(items, t, ready, last, pending)
    requires candidates == set k | k in pending && k in items && items[k].waits <= t.ends.Keys
    requires c.id in candidates && Least(items, t, ready, last, candidates, c)
    requires ready' == ready + map key | key in items[c.id].keys :: c.start + items[c.id].duration
    requires last' == last + map key | key in items[c.id].keys :: c.id
    ensures Going(items, Extended(items, t, last, c), ready', last', pending - {c.id})
  {
    hide Partial, Book, Least, Placed, FirstChoice, IsChoice;
    EndsNotNegative(items, t);
    assert c.id !in t.order by {
      assert c.id !in Elements(t.order);
    }
    ExtendedIsPartial(items, t, ready, last, candidates, c);
    ExtendedBook(items, t, ready, last, c, ready', last');
    assert Extended(items, t, last, c).ends.Keys == t.ends.Keys + {c.id};
  }

  lemma GoingParts(items: Items, t: Timetable, ready: map<Key, real>, last: map<Key, nat>, pending: set<nat>)
    requires Going(items, t, ready, last, pending)
    ensures Partial(items, t) && Book(items, t, ready, last) && pending <= items.Keys
  {
    hide Partial, Book;
  }

  lemma StuckIsCyclic(items: Items, t: Timetable, ready: map<Key, real>, last: map<Key, nat>, pending: set<nat>)
    requires ValidItems(items) && Going(items, t, ready, last, pending) && pending != {}
    requires forall k :: k in pending ==> !(items[k].waits <= t.ends.Keys)
    ensures G.Closed(Waits(items)) && !G.Acyclic(Waits(items))
  {
    hide Partial, Book, G.Acyclic;
    forall k | k in pending ensures Waits(items)[k] * pending != {} {
      var d :| d in items[k].waits && d !in t.ends.Keys;
      assert d in items[k].waits * pending;
    }
    G.StuckProvesCyclic(Waits(items), pending);
  }

  lemma DoneIsGreedy(items: Items, t: Timetable, ready: map<Key, real>, last: map<Key, nat>)
    requires ValidItems(items) && Going(items, t, ready, last, {})
    ensures IsGreedy(items, t) && G.Closed(Waits(items)) && G.Acyclic(Waits(items))
  {
    hide Book, Placed, FirstChoice, G.Acyclic;
    assert t.starts.Keys == items.Keys by {
      forall k | k in items ensures k in t.ends {
        assert k !in items.Keys - t.ends.Keys;
      }
    }
    GreedyIsAcyclic(items, t);
    assert t.predecessors.Keys == items.Keys;
    FewerEdges(Waits(items), t.predecessors);
  }

  /** Occupy the keys of the chosen transfer and record its times and predecessors. */
  method Record(items: Items, t: Timetable, ready: map<Key, real>, last: map<Key, nat>, ghost pending: set<nat>,
                ghost candidates: set<nat>, c: Choice)
    returns (u: Timetable, ready': map<Key, real>, last': map<Key, nat>)
    requires ValidItems(items) && Going(items, t, ready, last, pending)
    requires candidates == set k | k in pending && k in items && items[k].waits <= t.ends.Keys
    requires c.id in candidates && Least(items, t, ready, last, candidates, c)
    ensures Going(items, u, ready', last', pending - {c.id})
  {
    hide ValidItems, Going, Least;
    var end := c.start + items[c.id].duration;
    ready' := ready + map key | key in items[c.id].keys :: end;
    last' := last + map key | key in items[c.id].keys :: c.id;
    StepGoing(items, t, ready, last, pending, candidates, c, ready', last');
    u := Extended(items, t, last, c);
  }

  /** List scheduling: the least candidate by (start, tie, id) at every turn; None exactly for cyclic waits. */
  method ListSchedule(items: Items) returns (r: Option<Timetable>)
    requires ValidItems(items)
    ensures G.Closed(Waits(items))
    ensures r.None? <==> !G.Acyclic(Waits(items))
    ensures r.Some? ==> IsGreedy(items, r.value)
  {
    hide *;
    WaitsClosed(items);
    var pending := items.Keys;
    var t := Timetable([], map[], map[], map[], map[]);
    var ready: map<Key, real>, last: map<Key, nat> := map[], map[];
    StartGoing(items);
    while pending != {}
      invariant Going(items, t, ready, last, pending)
      decreases |pending|
    {
      GoingParts(items, t, ready, last, pending);
      var candidates := set k | k in pending && k in items && items[k].waits <= t.ends.Keys;
      if candidates == {} {
        NoneReady(items, t, pending, candidates);
        StuckIsCyclic(items, t, ready, last, pending);
        return None;
      }
      var c := Choose(items, t, ready, last, candidates);
      t, ready, last := Record(items, t, ready, last, pending, candidates, c);
      pending := pending - {c.id};
    }
    DoneIsGreedy(items, t, ready, last);
    return Some(t);
  }

  lemma WaitsClosed(items: Items)
    requires ValidItems(items)
    ensures G.Closed(Waits(items))
  {
  }

  lemma NoneReady(items: Items, t: Timetable, pending: set<nat>, candidates: set<nat>)
    requires pending <= items.Keys && candidates == {}
    requires candidates == set k | k in pending && k in items && items[k].waits <= t.ends.Keys
    ensures forall k :: k in pending ==> !(items[k].waits <= t.ends.Keys)
  {
    forall k | k in pending ensures !(items[k].waits <= t.ends.Keys) {
      assert k !in candidates;
    }
  }
}
