/** The reversed schedule as a whole (vericcl/composer/dual.py, reverse_allgather_schedule and _member_symbols). */
module ReduceSchedule {
  import opened Basics
  import opened DualTrees
  import opened Reversal
  import A = Aggregates
  import L = ListScheduler
  import G = Graphs
  import GreedySchedule

  // ---------------------------------------------------------------- scheduling drafts

  /** Lanes and slots of each transfer, ignored when only the routing matters. */
  function ItemsFor(drafts: Drafts, durations: map<nat, real>, keys: map<nat, set<L.Key>>, routingOnly: bool): L.Items
    requires drafts.Keys <= durations.Keys && drafts.Keys <= keys.Keys
  {
    map id | id in drafts :: L.Item(drafts[id].waits, if routingOnly then {} else keys[id], 0.0, durations[id])
  }

  ghost predicate Durations(drafts: Drafts, durations: map<nat, real>) {
    drafts.Keys <= durations.Keys && forall id :: id in drafts ==> durations[id] >= 0.0
  }

  /** The reversed trees are always scheduled: the cycle error cannot arise. */
  method ScheduleDrafts(trees: Trees, drafts: Drafts, durations: map<nat, real>, keys: map<nat, set<L.Key>>,
                        routingOnly: bool)
    returns (t: L.Timetable)
    requires ValidTrees(trees) && AreDrafts(trees, drafts) && WaitsAreLocal(trees, drafts)
    requires Durations(drafts, durations) && drafts.Keys <= keys.Keys
    ensures L.IsGreedy(ItemsFor(drafts, durations, keys, routingOnly), t) && t.starts.Keys == drafts.Keys
  {
    DurationKeys(drafts, durations);
    hide *;
    DraftsAcyclic(trees, drafts);
    var items := ItemsFor(drafts, durations, keys, routingOnly);
    ItemsAreValid(drafts, durations, keys, routingOnly);
    var result := GreedySchedule.ListSchedule(items);
    if result.None? {
      assert false;
    }
    t := result.value;
    GreedyTimes(items, t);
  }

  lemma DurationKeys(drafts: Drafts, durations: map<nat, real>)
    requires Durations(drafts, durations)
    ensures drafts.Keys <= durations.Keys
  {
  }

  lemma ItemsAreValid(drafts: Drafts, durations: map<nat, real>, keys: map<nat, set<L.Key>>, routingOnly: bool)
    requires Durations(drafts, durations) && drafts.Keys <= keys.Keys && G.Closed(WaitsOf(drafts))
    ensures var items := ItemsFor(drafts, durations, keys, routingOnly);
            L.ValidItems(items) && items.Keys == drafts.Keys && L.Waits(items) == WaitsOf(drafts)
  {
    var items := ItemsFor(drafts, durations, keys, routingOnly);
    forall id | id in items ensures items[id].waits <= items.Keys {
      assert WaitsOf(drafts)[id] == drafts[id].waits;
    }
  }

  lemma GreedyTimes(items: L.Items, t: L.Timetable)
    requires L.IsGreedy(items, t)
    ensures t.starts.Keys == items.Keys
  {
  }

  // ---------------------------------------------------------------- the whole reversal

  /** Aggregate states are kept only when nothing but the routing matters. */
  datatype Reversed = Reversed(drafts: Drafts, times: L.Timetable, aggregation: Option<A.Aggregation>)

  ghost predicate AsDrafted(trees: Trees, plain: Drafts, drafts: Drafts, routingOnly: bool) {
    Unchained(trees, plain) && if routingOnly then Chained(plain, drafts) else drafts == plain
  }

  ghost predicate IsAggregated(trees: Trees, drafts: Drafts, sliceCount: nat, routingOnly: bool,
                               a: Option<A.Aggregation>)
    requires sliceCount > 0
  {
    if routingOnly then a.Some? && A.IsAggregation(trees, drafts, sliceCount, a.value) else a.None?
  }

  /** Drafts and times of a set of trees; with routing only, also accumulator chains and linear aggregate states. */
  ghost predicate IsReversal(trees: Trees, durations: map<nat, real>, keys: map<nat, set<L.Key>>, sliceCount: nat,
                             routingOnly: bool, r: Reversed)
    requires sliceCount > 0
  {
    && AreDrafts(trees, r.drafts) && WaitsAreLocal(trees, r.drafts)
    && (exists plain :: AsDrafted(trees, plain, r.drafts, routingOnly))
    && r.drafts.Keys <= durations.Keys && r.drafts.Keys <= keys.Keys
    && L.IsGreedy(ItemsFor(r.drafts, durations, keys, routingOnly), r.times)
    && IsAggregated(trees, r.drafts, sliceCount, routingOnly, r.aggregation)
  }

  /** Durations and keys are known for every transfer of the trees. */
  ghost predicate Covered(trees: Trees, durations: map<nat, real>, keys: map<nat, set<L.Key>>) {
    forall k, r :: k in trees && r in trees[k].ids ==>
      trees[k].ids[r] in durations && durations[trees[k].ids[r]] >= 0.0 && trees[k].ids[r] in keys
  }

  /** Reversing well-formed trees fails only with routing only, for a rank without data of its own or contributors at
      several
      positions. */
  method ReverseTrees(trees: Trees, durations: map<nat, real>, keys: map<nat, set<L.Key>>, sliceCount: nat,
                      routingOnly: bool)
    returns (r: Result<Reversed, A.AggregateError>)
    requires sliceCount > 0 && ValidTrees(trees) && Covered(trees, durations, keys)
    ensures r.Ok? <==> !routingOnly || A.AllGrounded(trees, sliceCount)
    ensures r.Ok? ==> IsReversal(trees, durations, keys, sliceCount, routingOnly, r.value)
    ensures r.Err? ==> A.TreeFault(trees, sliceCount, r.error)
  {
    hide *;
    var plain := MakeDrafts(trees);
    var drafts := plain;
    if routingOnly {
      drafts := Chain(plain);
      ChainedIsLocal(trees, plain, drafts);
    } else {
      UnchainedIsLocal(trees, drafts);
    }
    Drafted(trees, plain, drafts, routingOnly);
    DraftsCovered(trees, drafts, durations, keys);
    var times := ScheduleDrafts(trees, drafts, durations, keys, routingOnly);
    var aggregation := None;
    if routingOnly {
      var aggregates := A.RoutingAggregates(trees, drafts, times.starts, sliceCount);
      if aggregates.Err? {
        return Err(aggregates.error);
      }
      aggregation := Some(aggregates.value);
    }
    Aggregated(trees, drafts, sliceCount, routingOnly, aggregation);
    r := Ok(Reversed(drafts, times, aggregation));
    Whole(trees, durations, keys, sliceCount, routingOnly, r.value, plain);
  }

  lemma Drafted(trees: Trees, plain: Drafts, drafts: Drafts, routingOnly: bool)
    requires Unchained(trees, plain) && (routingOnly ==> Chained(plain, drafts)) && (!routingOnly ==> drafts == plain)
    ensures AsDrafted(trees, plain, drafts, routingOnly)
  {
    hide Unchained, Chained;
  }

  lemma Aggregated(trees: Trees, drafts: Drafts, sliceCount: nat, routingOnly: bool, a: Option<A.Aggregation>)
    requires sliceCount > 0 && (routingOnly <==> a.Some?)
    requires (a.Some? ==> A.IsAggregation(trees, drafts, sliceCount, a.value))
    ensures IsAggregated(trees, drafts, sliceCount, routingOnly, a)
  {
    hide A.IsAggregation;
  }

  lemma DraftsCovered(trees: Trees, drafts: Drafts, durations: map<nat, real>, keys: map<nat, set<L.Key>>)
    requires AreDrafts(trees, drafts) && Covered(trees, durations, keys)
    ensures Durations(drafts, durations) && drafts.Keys <= keys.Keys && drafts.Keys <= durations.Keys
  {
    hide ChildIds;
    forall id | id in drafts ensures id in durations && durations[id] >= 0.0 && id in keys {
      assert DraftReady(trees, id, drafts[id]);
    }
  }

  lemma Whole(trees: Trees, durations: map<nat, real>, keys: map<nat, set<L.Key>>, sliceCount: nat, routingOnly: bool,
              r: Reversed, plain: Drafts)
    requires sliceCount > 0 && AreDrafts(trees, r.drafts) && WaitsAreLocal(trees, r.drafts)
    requires AsDrafted(trees, plain, r.drafts, routingOnly)
    requires r.drafts.Keys <= durations.Keys && r.drafts.Keys <= keys.Keys
    requires L.IsGreedy(ItemsFor(r.drafts, durations, keys, routingOnly), r.times)
    requires IsAggregated(trees, r.drafts, sliceCount, routingOnly, r.aggregation)
    ensures IsReversal(trees, durations, keys, sliceCount, routingOnly, r)
  {
    hide AreDrafts, WaitsAreLocal, AsDrafted, L.IsGreedy, IsAggregated;
  }

  // ---------------------------------------------------------------- member paths

  datatype Symbol = Symbol(src: nat, dst: nat, ready: real)

  lemma AscentTail(t: Tree, p: seq<nat>)
    requires Ascent(t, p) && |p| > 1
    ensures Ascent(t, p[1..]) && p[0] in t.parent && t.parent[p[0]] == p[1]
  {
    var q := p[1..];
    assert t.parent[p[0]] == p[0 + 1];
    forall i | 0 <= i < |q| - 1 ensures q[i] in t.parent && t.parent[q[i]] == q[i + 1] {
      assert p[i + 1] in t.parent && t.parent[p[i + 1]] == p[i + 1 + 1];
    }
  }

  lemma BelowStep(t: Tree, low: nat, high: nat)
    requires Below(t, low, high) && low != high
    ensures low in t.parent && Below(t, t.parent[low], high)
  {
    var p :| Ascent(t, p) && p[0] == low && p[|p| - 1] == high;
    AscentTail(t, p);
    assert p[1..][|p[1..]| - 1] == high;
  }

  /** A connected path of the member's hops with ready times that never go back. */
  ghost predicate IsMemberPath(t: Tree, readies: map<nat, real>, path: seq<Symbol>, owner: nat, end: nat) {
    && (path == [] ==> owner == end)
    && (path != [] ==> path[0].src == owner && path[|path| - 1].dst == end)
    && (forall i :: 0 <= i < |path| ==> IsHop(t, readies, path[i]))
    && (forall i :: 0 <= i < |path| - 1 ==> path[i].dst == path[i + 1].src && path[i].ready <= path[i + 1].ready)
  }

  ghost predicate IsHop(t: Tree, readies: map<nat, real>, s: Symbol) {
    && s.src in t.parent && t.parent[s.src] == s.dst
    && s.src in t.ids && t.ids[s.src] in readies && s.ready == readies[t.ids[s.src]]
  }

  /** The hops of one member from the rank that holds it to the draft's destination. */
  method MemberSymbols(t: Tree, readies: map<nat, real>, owner: nat, dst: nat) returns (path: seq<Symbol>)
    requires ValidTree(t) && Below(t, owner, dst)
    requires forall r :: r in t.ids ==> t.ids[r] in readies
    requires forall r, c :: r in t.ids && c in Children(t, r) && c in t.ids ==> readies[t.ids[c]] <= readies[t.ids[r]]
    ensures IsMemberPath(t, readies, path, owner, dst)
  {
    path := [];
    TreeRanks(t);
    var rank := owner;
    ghost var depth := SomeDepths(t);
    StartsInTree(t, owner, dst);
    while rank != dst
      invariant Below(t, rank, dst) && rank in Ranks(t)
      invariant IsMemberPath(t, readies, path, owner, rank)
      decreases if rank in depth then depth[rank] else 0
    {
      BelowStep(t, rank, dst);
      ParentIsHigher(t, depth, rank);
      var parent := t.parent[rank];
      var next := Symbol(rank, parent, readies[t.ids[rank]]);
      PathNext(t, readies, path, owner, rank, next);
      path := path + [next];
      rank := parent;
    }
  }

  lemma StartsInTree(t: Tree, low: nat, high: nat)
    requires Below(t, low, high)
    ensures low in Ranks(t)
  {
    var p :| Ascent(t, p) && p[0] == low && p[|p| - 1] == high;
  }

  lemma PathNext(t: Tree, readies: map<nat, real>, path: seq<Symbol>, owner: nat, rank: nat, next: Symbol)
    requires IsMemberPath(t, readies, path, owner, rank) && IsHop(t, readies, next) && next.src == rank
    requires forall r, c ::
        r in t.ids && c in Children(t, r) && c in t.ids && t.ids[c] in readies && t.ids[r] in readies ==>
          readies[t.ids[c]] <= readies[t.ids[r]]
    ensures IsMemberPath(t, readies, path + [next], owner, next.dst)
  {
    var q := path + [next];
    if path != [] {
      var last := path[|path| - 1];
      assert IsHop(t, readies, last);
      assert last.src in Children(t, rank);
    }
    forall i | 0 <= i < |q| - 1 ensures q[i].dst == q[i + 1].src && q[i].ready <= q[i + 1].ready {
      assert i < |path| - 1 ==> q[i] == path[i] && q[i + 1] == path[i + 1];
    }
  }

  lemma ReadyBeforeStart(items: L.Items, t: L.Timetable, k: nat)
    requires L.Partial(items, t) && k in t.starts
    ensures k in t.readies && k in t.ends && t.readies[k] <= t.starts[k] <= t.ends[k]
  {
    assert k in Elements(t.order);
    var j := L.Position(t.order, k);
    assert L.Placed(items, t, t.order[..j], k);
    LatestGrows(t.ends, items[k].waits, items[k].waits
                + L.Sharers(items, Elements(t.order[..j]), items[k].keys), t.readies[k], t.starts[k]);
  }

  /** A child's draft is ready no later than its parent's: the parent waits for its end. */
  lemma ReadyAscends(trees: Trees, drafts: Drafts, items: L.Items, times: L.Timetable, k: nat, r: nat, c: nat)
    requires ValidTrees(trees) && AreDrafts(trees, drafts) && L.Partial(items, times) && k in trees
    requires items.Keys == drafts.Keys == times.starts.Keys
    requires forall id :: id in drafts ==> items[id].waits == drafts[id].waits
    requires r in trees[k].ids && c in Children(trees[k], r) && c in trees[k].ids
    ensures trees[k].ids[c] in times.readies && trees[k].ids[r] in times.readies
    ensures times.readies[trees[k].ids[c]] <= times.readies[trees[k].ids[r]]
  {
    hide ValidTrees, AreDrafts, L.Partial, Children;
    DraftAtBoth(trees, drafts, k, r, c);
    var parent, child := trees[k].ids[r], trees[k].ids[c];
    L.WaitsEndFirst(items, times, parent, child);
    ReadyBeforeStart(items, times, child);
    ReadyBeforeStart(items, times, parent);
  }

  lemma DraftAtBoth(trees: Trees, drafts: Drafts, k: nat, r: nat, c: nat)
    requires ValidTrees(trees) && AreDrafts(trees, drafts) && k in trees && r in trees[k].ids
    requires c in Children(trees[k], r) && c in trees[k].ids
    ensures trees[k].ids[r] in drafts && trees[k].ids[c] in drafts && trees[k].ids[c] in drafts[trees[k].ids[r]].waits
  {
    hide ValidTrees, AreDrafts;
    A.DraftAt(trees, drafts, k, r);
    A.DraftAt(trees, drafts, k, c);
    assert trees[k].ids[c] in ChildIds(trees[k], r);
  }

  /** Every member a draft carries has a path from its only source to the draft's destination: the path error cannot
      arise. */
  lemma MemberReaches(trees: Trees, drafts: Drafts, id: nat, m: nat) returns (owner: nat)
    requires ValidTrees(trees) && AreDrafts(trees, drafts) && id in drafts && m in drafts[id].members
    ensures drafts[id].tree in trees
    ensures var t := trees[drafts[id].tree];
            owner in t.local && m in t.local[owner] && Below(t, owner, drafts[id].dst)
            && forall x :: x in t.local && m in t.local[x] ==> x == owner
  {
    DraftKnown(trees, drafts, id);
    hide ValidTrees, AreDrafts;
    var d := drafts[id];
    var t := trees[d.tree];
    OneTree(trees, d.tree);
    TreeRanks(t);
    SubtreeOfSource(t, d.src);
    owner := OwnerExists(t, d.src, m);
    BelowParent(t, owner, d.src);
  }

  lemma SubtreeOfSource(t: Tree, r: nat)
    requires ValidTree(t) && r in t.parent
    ensures r in t.members && Subtree(t, r) == t.members[r]
  {
  }

  lemma ReadyInTree(trees: Trees, durations: map<nat, real>, keys: map<nat, set<L.Key>>, sliceCount: nat,
                    routingOnly: bool, r: Reversed, k: nat)
    requires sliceCount > 0 && ValidTrees(trees) && IsReversal(trees, durations, keys, sliceCount, routingOnly, r)
    requires k in trees
    ensures forall x :: x in trees[k].ids ==> trees[k].ids[x] in r.times.readies
    ensures forall x, c :: x in trees[k].ids && c in Children(trees[k], x) && c in trees[k].ids ==>
              r.times.readies[trees[k].ids[c]] <= r.times.readies[trees[k].ids[x]]
  {
    hide *;
    ReversalParts(trees, durations, keys, sliceCount, routingOnly, r);
    var items := ItemsFor(r.drafts, durations, keys, routingOnly);
    forall x | x in trees[k].ids ensures trees[k].ids[x] in r.times.readies {
      A.DraftAt(trees, r.drafts, k, x);
      ReadyBeforeStart(items, r.times, trees[k].ids[x]);
    }
    forall x, c | x in trees[k].ids && c in Children(trees[k], x) && c in trees[k].ids
      ensures r.times.readies[trees[k].ids[c]] <= r.times.readies[trees[k].ids[x]]
    {
      ReadyAscends(trees, r.drafts, items, r.times, k, x, c);
    }
  }

  lemma ReversalParts(trees: Trees, durations: map<nat, real>, keys: map<nat, set<L.Key>>, sliceCount: nat,
                      routingOnly: bool, r: Reversed)
    requires sliceCount > 0 && IsReversal(trees, durations, keys, sliceCount, routingOnly, r)
    ensures AreDrafts(trees, r.drafts) && r.drafts.Keys <= durations.Keys && r.drafts.Keys <= keys.Keys
    ensures var items := ItemsFor(r.drafts, durations, keys, routingOnly);
            L.Partial(items, r.times) && items.Keys == r.drafts.Keys == r.times.starts.Keys
            && forall id :: id in r.drafts ==> items[id].waits == r.drafts[id].waits
  {
    hide AreDrafts, WaitsAreLocal, AsDrafted, L.Partial, IsAggregated;
  }

  lemma InOrder(items: L.Items, t: L.Timetable, k: nat) returns (i: nat)
    requires L.Partial(items, t) && k in t.starts
    ensures i < |t.order| && t.order[i] == k
  {
    assert k in Elements(t.order);
    i := L.Position(t.order, k);
  }

  /** Unless only the routing matters, reversed transfers on one lane or slot run one after the other. */
  lemma SlotsTakeTurns(trees: Trees, durations: map<nat, real>, keys: map<nat, set<L.Key>>, sliceCount: nat,
                       r: Reversed, a: nat, b: nat)
    requires sliceCount > 0 && IsReversal(trees, durations, keys, sliceCount, false, r)
    requires a in r.drafts && b in r.drafts && a != b && a in keys && b in keys && keys[a] * keys[b] != {}
    ensures a in r.times.starts && a in r.times.ends && b in r.times.starts && b in r.times.ends
    ensures r.times.ends[a] <= r.times.starts[b] || r.times.ends[b] <= r.times.starts[a]
  {
    ReversalParts(trees, durations, keys, sliceCount, false, r);
    hide IsReversal, L.Partial, L.IsGreedy;
    var items := ItemsFor(r.drafts, durations, keys, false);
    ReadyBeforeStart(items, r.times, a);
    ReadyBeforeStart(items, r.times, b);
    var i := InOrder(items, r.times, a);
    var j := InOrder(items, r.times, b);
    if i < j {
      L.NoOverlap(items, r.times, i, j);
    } else {
      L.NoOverlap(items, r.times, j, i);
    }
  }

  /** The atom path of one member of one draft. */
  method MemberPath(trees: Trees, durations: map<nat, real>, keys: map<nat, set<L.Key>>, sliceCount: nat,
                    routingOnly: bool, r: Reversed, id: nat, m: nat)
    returns (path: seq<Symbol>, owner: nat)
    requires sliceCount > 0 && ValidTrees(trees) && IsReversal(trees, durations, keys, sliceCount, routingOnly, r)
    requires id in r.drafts && m in r.drafts[id].members
    ensures r.drafts[id].tree in trees
    ensures var t := trees[r.drafts[id].tree];
            owner in t.local && m in t.local[owner] && (forall x :: x in t.local && m in t.local[x] ==> x == owner)
            && IsMemberPath(t, r.times.readies, path, owner, r.drafts[id].dst)
  {
    hide *;
    ReversalParts(trees, durations, keys, sliceCount, routingOnly, r);
    ghost var source := MemberReaches(trees, r.drafts, id, m);
    var t := trees[r.drafts[id].tree];
    OneTree(trees, r.drafts[id].tree);
    ReadyInTree(trees, durations, keys, sliceCount, routingOnly, r, r.drafts[id].tree);
    owner :| owner in t.local && m in t.local[owner];
    path := MemberSymbols(t, r.times.readies, owner, r.drafts[id].dst);
  }
}
