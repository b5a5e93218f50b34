/** Turning all-gather trees into a reduction schedule: drafts, accumulator chains and scheduling
    (vericcl/composer/dual.py, _drafts, _chain_routing_accumulators, _schedule_drafts). */
module Reversal {
  import opened Basics
  import opened DualTrees
  import G = Graphs

  type Trees = map<nat, Tree>

  /** One reversed transfer: src sends its subtree's aggregate to its parent. */
  datatype Draft = Draft(tree: nat, src: nat, dst: nat, members: set<nat>, waits: set<nat>)

  type Drafts = map<nat, Draft>

  /** Trees are told apart by root and contributors, and transfers by their ids. */
  ghost predicate ValidTrees(trees: Trees) {
    && (forall k :: k in trees ==> ValidTree(trees[k]))
    && (forall k, l :: k in trees && l in trees && k != l ==>
          trees[k].root != trees[l].root || trees[k].contributors != trees[l].contributors)
    && (forall k, l, a, b ::
          k in trees && l in trees && a in trees[k].ids && b in trees[l].ids && trees[k].ids[a] == trees[l].ids[b] ==>
            k == l && a == b)
  }

  // ---------------------------------------------------------------- drafts

  ghost predicate DraftOf(trees: Trees, id: nat, d: Draft) {
    && d.tree in trees && d.src in trees[d.tree].ids && trees[d.tree].ids[d.src] == id
    && d.src in trees[d.tree].parent && d.dst == trees[d.tree].parent[d.src]
    && d.src in trees[d.tree].members && d.members == trees[d.tree].members[d.src]
  }

  ghost function ChildIds(t: Tree, r: nat): set<nat> {
    set c | c in Children(t, r) && c in t.ids :: t.ids[c]
  }

  ghost predicate DraftReady(trees: Trees, id: nat, d: Draft) {
    DraftOf(trees, id, d) && ChildIds(trees[d.tree], d.src) <= d.waits
  }

  /** One draft per transfer, waiting for at least the drafts of its source's children. */
  ghost predicate AreDrafts(trees: Trees, drafts: Drafts) {
    && (forall id :: id in drafts ==> DraftReady(trees, id, drafts[id]))
    && (forall k, r :: k in trees && r in trees[k].ids ==> trees[k].ids[r] in drafts)
  }

  ghost predicate Unchained(trees: Trees, drafts: Drafts) {
    && AreDrafts(trees, drafts)
    && forall id :: id in drafts ==> FreshDraft(trees, id, drafts[id])
  }

  function ChildIdsOf(t: Tree, r: nat): set<nat> {
    set c | c in t.parent && t.parent[c] == r && c in t.ids :: t.ids[c]
  }

  lemma SameChildIds(t: Tree, r: nat)
    ensures ChildIdsOf(t, r) == ChildIds(t, r)
  {
    forall c ensures c in Children(t, r) <==> c in t.parent && t.parent[c] == r {
    }
  }

  /** The draft of the transfer between r and its parent. */
  ghost predicate FreshDraft(trees: Trees, id: nat, d: Draft) {
    DraftOf(trees, id, d) && d.waits == ChildIds(trees[d.tree], d.src)
  }

  ghost predicate DraftedSoFar(trees: Trees, done: set<nat>, drafts: Drafts) {
    && (forall id :: id in drafts ==> FreshDraft(trees, id, drafts[id]))
    && (forall k, r :: k in trees && k in done && r in trees[k].ids ==> trees[k].ids[r] in drafts)
  }

  lemma DraftAdded(trees: Trees, done: set<nat>, drafts: Drafts, id: nat, d: Draft)
    requires DraftedSoFar(trees, done, drafts) && FreshDraft(trees, id, d)
    ensures DraftedSoFar(trees, done, drafts[id := d])
  {
    hide FreshDraft;
  }

  lemma TreeDone(trees: Trees, done: set<nat>, drafts: Drafts, k: nat)
    requires k in trees && DraftedSoFar(trees, done, drafts)
    requires forall r :: r in trees[k].ids ==> trees[k].ids[r] in drafts
    ensures DraftedSoFar(trees, done + {k}, drafts)
  {
    hide FreshDraft;
  }

  method DraftTree(trees: Trees, k: nat, ghost done: set<nat>, drafts: Drafts) returns (more: Drafts)
    requires k in trees && ValidTree(trees[k]) && DraftedSoFar(trees, done, drafts)
    ensures DraftedSoFar(trees, done + {k}, more)
  {
    hide DraftedSoFar, ValidTree, ChildIds, Ranks;
    more := drafts;
    var t := trees[k];
    TreeRanks(t);
    var rest := t.ids.Keys;
    while rest != {}
      invariant rest <= t.ids.Keys
      invariant DraftedSoFar(trees, done, more)
      invariant forall r :: r in t.ids && r !in rest ==> t.ids[r] in more
      decreases |rest|
    {
      HasMember(rest);
      var r :| r in rest;
      SameChildIds(t, r);
      var d := Draft(k, r, t.parent[r], t.members[r], ChildIdsOf(t, r));
      DraftAdded(trees, done, more, t.ids[r], d);
      more := more[t.ids[r] := d];
      rest := rest - {r};
    }
    TreeDone(trees, done, more, k);
  }

  method MakeDrafts(trees: Trees) returns (drafts: Drafts)
    requires ValidTrees(trees)
    ensures Unchained(trees, drafts)
  {
    hide *;
    drafts := map[];
    ghost var done: set<nat> := {};
    var rest := trees.Keys;
    NothingDrafted(trees);
    while rest != {}
      invariant done + rest == trees.Keys
      invariant DraftedSoFar(trees, done, drafts)
      decreases |rest|
    {
      HasMember(rest);
      var k :| k in rest;
      OneTree(trees, k);
      drafts := DraftTree(trees, k, done, drafts);
      done, rest := done + {k}, rest - {k};
    }
    AllDrafted(trees, done, drafts);
  }

  lemma NothingDrafted(trees: Trees)
    ensures DraftedSoFar(trees, {}, map[])
  {
  }

  lemma OneTree(trees: Trees, k: nat)
    requires ValidTrees(trees) && k in trees
    ensures ValidTree(trees[k])
  {
    hide ValidTree;
  }

  lemma AllDrafted(trees: Trees, done: set<nat>, drafts: Drafts)
    requires DraftedSoFar(trees, done, drafts) && trees.Keys <= done
    ensures Unchained(trees, drafts)
  {
    hide DraftOf, ChildIds;
    assert forall id :: id in drafts ==> FreshDraft(trees, id, drafts[id]);
  }

  // ---------------------------------------------------------------- chaining

  ghost predicate SameAccumulator(a: Draft, b: Draft) {
    a.tree == b.tree && a.dst == b.dst
  }

  /** The previous draft, in id order, that adds to the same accumulator. */
  ghost predicate IsPrevious(drafts: Drafts, id: nat, p: nat)
    requires id in drafts
  {
    && p in drafts && p < id && SameAccumulator(drafts[p], drafts[id])
    && forall q :: q in drafts && p < q < id ==> !SameAccumulator(drafts[q], drafts[id])
  }

  /** Only the waits grow, by the previous draft of the accumulator if there is one. */
  ghost predicate Chained(drafts: Drafts, chained: Drafts) {
    && chained.Keys == drafts.Keys
    && forall id :: id in drafts ==> LinkedTo(drafts, id, chained[id])
  }

  ghost predicate LinkedTo(drafts: Drafts, id: nat, d: Draft)
    requires id in drafts
  {
    && d == drafts[id].(waits := d.waits)
    && forall p :: p in d.waits <==> p in drafts[id].waits || IsPrevious(drafts, id, p)
  }

  /** All drafts that add to one accumulator. */
  ghost predicate IsGroup(drafts: Drafts, group: set<nat>, tree: nat, dst: nat) {
    forall id :: id in group <==> id in drafts && drafts[id].tree == tree && drafts[id].dst == dst
  }

  ghost predicate LinkedSoFar(drafts: Drafts, group: set<nat>, rest: set<nat>, previous: Option<nat>) {
    && rest <= group
    && (previous.None? <==> rest == group)
    && (previous.Some? ==> previous.value in group - rest && forall a :: a in group - rest ==> a <= previous.value)
    && (forall a, b :: a in group - rest && b in rest ==> a < b)
  }

  lemma PreviousIs(drafts: Drafts, group: set<nat>, tree: nat, dst: nat, rest: set<nat>, id: nat, previous: Option<nat>,
                   p: nat)
    requires IsGroup(drafts, group, tree, dst) && LinkedSoFar(drafts, group, rest, previous)
    requires id in rest && (forall b :: b in rest ==> id <= b) && id in drafts
    ensures IsPrevious(drafts, id, p) <==> previous == Some(p)
  {
    if IsPrevious(drafts, id, p) {
      assert p in group - rest;
      assert previous.value < id && SameAccumulator(drafts[previous.value], drafts[id]);
    }
    if previous == Some(p) {
      forall q | q in drafts && p < q < id ensures !SameAccumulator(drafts[q], drafts[id]) {
        assert q !in rest;
        assert q in group - rest ==> q <= p;
      }
      assert p in group - rest;
    }
  }

  lemma LinkedNext(drafts: Drafts, group: set<nat>, rest: set<nat>, id: nat, previous: Option<nat>)
    requires LinkedSoFar(drafts, group, rest, previous)
    requires id in rest && forall b :: b in rest ==> id <= b
    ensures LinkedSoFar(drafts, group, rest - {id}, Some(id))
  {
    forall a | a in group - (rest - {id}) ensures a <= id && forall b :: b in rest - {id} ==> a < b {
      assert a == id || a in group - rest;
    }
  }

  method LinkOne(drafts: Drafts, ghost group: set<nat>, ghost tree: nat, ghost dst: nat, ghost rest: set<nat>, id: nat,
                 previous: Option<nat>) returns (d: Draft)
    requires IsGroup(drafts, group, tree, dst) && LinkedSoFar(drafts, group, rest, previous)
    requires id in rest && (forall b :: b in rest ==> id <= b) && id in drafts
    ensures LinkedTo(drafts, id, d)
  {
    hide IsGroup, LinkedSoFar, IsPrevious;
    var waits := drafts[id].waits;
    if previous.Some? {
      waits := waits + {previous.value};
    }
    forall p: nat ensures IsPrevious(drafts, id, p) <==> previous == Some(p) {
      PreviousIs(drafts, group, tree, dst, rest, id, previous, p);
    }
    d := drafts[id].(waits := waits);
  }

  ghost predicate GroupLinked(drafts: Drafts, chained: Drafts, more: Drafts, group: set<nat>, rest: set<nat>)
    requires group <= drafts.Keys
  {
    && rest <= group && more.Keys == chained.Keys + (group - rest)
    && (forall id :: id in chained && id !in group ==> more[id] == chained[id])
    && (forall id :: id in group && id !in rest ==> LinkedTo(drafts, id, more[id]))
  }

  lemma GroupLinkedNext(drafts: Drafts, chained: Drafts, more: Drafts, group: set<nat>, rest: set<nat>, id: nat,
                        d: Draft)
    requires group <= drafts.Keys && GroupLinked(drafts, chained, more, group, rest)
    requires id in rest && LinkedTo(drafts, id, d)
    ensures GroupLinked(drafts, chained, more[id := d], group, rest - {id})
  {
    hide LinkedTo;
    assert group - (rest - {id}) == (group - rest) + {id};
  }

  /** Link the drafts of one accumulator in id order. */
  method ChainGroup(drafts: Drafts, chained: Drafts, group: set<nat>, ghost tree: nat, ghost dst: nat)
    returns (more: Drafts)
    requires IsGroup(drafts, group, tree, dst) && group <= drafts.Keys
    ensures GroupLinked(drafts, chained, more, group, {})
  {
    hide *;
    more := chained;
    var previous: Option<nat> := None;
    var rest := group;
    NothingLinked(drafts, chained, group);
    while rest != {}
      invariant rest <= group && LinkedSoFar(drafts, group, rest, previous)
      invariant GroupLinked(drafts, chained, more, group, rest)
      decreases |rest|
    {
      var id := LeastId(rest);
      var d := LinkOne(drafts, group, tree, dst, rest, id, previous);
      LinkedNext(drafts, group, rest, id, previous);
      GroupLinkedNext(drafts, chained, more, group, rest, id, d);
      more := more[id := d];
      previous := Some(id);
      rest := rest - {id};
    }
  }

  lemma NothingLinked(drafts: Drafts, chained: Drafts, group: set<nat>)
    requires group <= drafts.Keys
    ensures LinkedSoFar(drafts, group, group, None) && GroupLinked(drafts, chained, chained, group, group)
  {
    assert chained.Keys == chained.Keys + (group - group);
  }

  method Chain(drafts: Drafts) returns (chained: Drafts)
    ensures Chained(drafts, chained)
  {
    hide LinkedTo, IsGroup;
    chained := map[];
    var rest := drafts.Keys;
    while rest != {}
      invariant rest <= drafts.Keys && chained.Keys == drafts.Keys - rest
      invariant forall id :: id in chained ==> LinkedTo(drafts, id, chained[id])
      decreases |rest|
    {
      HasMember(rest);
      var first :| first in rest;
      var tree, dst := drafts[first].tree, drafts[first].dst;
      var group := set id | id in drafts && drafts[id].tree == tree && drafts[id].dst == dst;
      GroupIs(drafts, group, tree, dst);
      chained := ChainGroup(drafts, chained, group, tree, dst);
      Fewer(rest, group, first);
      rest := rest - group;
    }
  }

  lemma Fewer(rest: set<nat>, group: set<nat>, first: nat)
    requires first in rest && first in group
    ensures |rest - group| < |rest|
  {
    assert rest == (rest - group) + rest * group;
    assert first in rest * group;
  }

  lemma GroupIs(drafts: Drafts, group: set<nat>, tree: nat, dst: nat)
    requires group == set id | id in drafts && drafts[id].tree == tree && drafts[id].dst == dst
    ensures IsGroup(drafts, group, tree, dst) && group <= drafts.Keys
  {
  }

  // ---------------------------------------------------------------- no cycles

  ghost function WaitsOf(drafts: Drafts): G.Dependencies {
    map id | id in drafts :: drafts[id].waits
  }

  /** Distances to the root. */
  ghost function DepthsOf(t: Tree): (depth: map<nat, nat>)
    ensures Rooted(t) ==> Depths(t, depth)
  {
    if Rooted(t) then
      var depth :| Depths(t, depth); depth
    else map[]
  }

  ghost function DepthIn(trees: Trees, d: Draft): nat {
    if d.tree in trees && d.src in DepthsOf(trees[d.tree]) then DepthsOf(trees[d.tree])[d.src] else 0
  }

  /** Above every id, and above every depth. */
  lemma {:induction false} SomeBound(trees: Trees, drafts: Drafts, ids: set<nat>) returns (bound: nat)
    requires ids <= drafts.Keys
    ensures forall id :: id in ids ==> id < bound && DepthIn(trees, drafts[id]) < bound
    decreases ids
  {
    hide DepthIn;
    bound := 1;
    if ids != {} {
      var id :| id in ids;
      bound := SomeBound(trees, drafts, ids - {id});
      bound := bound + id + DepthIn(trees, drafts[id]) + 1;
      assert ids == ids - {id} + {id};
    }
  }

  lemma DepthFromParent(t: Tree, r: nat)
    requires ValidTree(t) && r in t.parent
    ensures var depth := DepthsOf(t); r in depth && t.parent[r] in depth && depth[r] == depth[t.parent[r]] + 1
  {
    assert Depths(t, DepthsOf(t));
  }

  lemma ChildIdIs(trees: Trees, drafts: Drafts, id: nat, w: nat)
    requires ValidTrees(trees) && AreDrafts(trees, drafts) && id in drafts && drafts[id].tree in trees
    requires w in ChildIds(trees[drafts[id].tree], drafts[id].src)
    ensures w in drafts && drafts[w].tree == drafts[id].tree && drafts[w].dst == drafts[id].src
    ensures drafts[w].src in trees[drafts[id].tree].parent
        && trees[drafts[id].tree].parent[drafts[w].src] == drafts[id].src
  {
    hide ValidTree, ChildIds;
    var t := trees[drafts[id].tree];
    var c := ChildWithId(t, drafts[id].src, w);
    assert DraftOf(trees, w, drafts[w]);
  }

  lemma ChildWithId(t: Tree, r: nat, w: nat) returns (c: nat)
    requires w in ChildIds(t, r)
    ensures c in t.ids && t.ids[c] == w && c in t.parent && t.parent[c] == r
  {
    c :| c in Children(t, r) && c in t.ids && t.ids[c] == w;
  }

  lemma DraftKnown(trees: Trees, drafts: Drafts, id: nat)
    requires AreDrafts(trees, drafts) && id in drafts
    ensures DraftOf(trees, id, drafts[id])
  {
    assert DraftReady(trees, id, drafts[id]);
  }

  lemma ChildIsDeeper(trees: Trees, drafts: Drafts, id: nat, w: nat)
    requires ValidTrees(trees) && AreDrafts(trees, drafts) && id in drafts && drafts[id].tree in trees
    requires w in ChildIds(trees[drafts[id].tree], drafts[id].src)
    ensures w in drafts && DepthIn(trees, drafts[w]) == DepthIn(trees, drafts[id]) + 1
  {
    hide ValidTrees, AreDrafts, ValidTree, ChildIds;
    ChildIdIs(trees, drafts, id, w);
    OneTree(trees, drafts[id].tree);
    DepthFromParent(trees[drafts[id].tree], drafts[w].src);
  }

  lemma SiblingIsLevel(trees: Trees, drafts: Drafts, a: nat, b: nat)
    requires ValidTrees(trees) && AreDrafts(trees, drafts) && a in drafts && b in drafts
    requires SameAccumulator(drafts[a], drafts[b])
    ensures DepthIn(trees, drafts[a]) == DepthIn(trees, drafts[b])
  {
    hide ValidTrees, AreDrafts, ValidTree;
    DraftKnown(trees, drafts, a);
    DraftKnown(trees, drafts, b);
    OneTree(trees, drafts[a].tree);
    DepthFromParent(trees[drafts[a].tree], drafts[a].src);
    DepthFromParent(trees[drafts[a].tree], drafts[b].src);
  }

  /** Deeper sources first, then smaller ids. */
  ghost function RankOf(bound: nat, deep: nat, id: nat): nat
    requires deep < bound
  {
    (bound - deep) * bound + id
  }

  lemma RankDrops(bound: nat, deep: nat, deep': nat, id: nat, w: nat)
    requires deep < bound && deep' < bound && w < bound
    requires deep' == deep + 1 || (deep' == deep && w < id)
    ensures RankOf(bound, deep', w) < RankOf(bound, deep, id)
  {
    if deep' == deep + 1 {
      assert (bound - deep) * bound == (bound - deep') * bound + bound;
    }
  }

  /** A draft waits only for children of its source and, when chained, for an earlier sibling. */
  ghost predicate WaitsAreLocal(trees: Trees, drafts: Drafts) {
    forall id, w :: id in drafts && w in drafts[id].waits ==> WaitIsLocal(trees, drafts, id, w)
  }

  ghost predicate WaitIsLocal(trees: Trees, drafts: Drafts, id: nat, w: nat)
    requires id in drafts
  {
    || (drafts[id].tree in trees && w in ChildIds(trees[drafts[id].tree], drafts[id].src))
    || (w in drafts && w < id && SameAccumulator(drafts[w], drafts[id]))
  }

  lemma WaitIsKnown(trees: Trees, drafts: Drafts, id: nat, w: nat)
    requires ValidTrees(trees) && AreDrafts(trees, drafts) && id in drafts && WaitIsLocal(trees, drafts, id, w)
    ensures w in drafts
    ensures var a, b := DepthIn(trees, drafts[id]), DepthIn(trees, drafts[w]); b == a + 1 || (b == a && w < id)
  {
    hide ValidTrees, AreDrafts, ChildIds, DepthIn, SameAccumulator;
    if drafts[id].tree in trees && w in ChildIds(trees[drafts[id].tree], drafts[id].src) {
      ChildIsDeeper(trees, drafts, id, w);
    } else {
      SiblingIsLevel(trees, drafts, w, id);
    }
  }

  /** Reversed and chained dependencies are acyclic, so list scheduling never reports a cycle. */
  lemma DraftsAcyclic(trees: Trees, drafts: Drafts)
    requires ValidTrees(trees) && AreDrafts(trees, drafts) && WaitsAreLocal(trees, drafts)
    ensures G.Closed(WaitsOf(drafts)) && G.Acyclic(WaitsOf(drafts))
  {
    hide ValidTrees, AreDrafts, DepthIn, WaitIsLocal, G.Acyclic;
    var bound := SomeBound(trees, drafts, drafts.Keys);
    hide RankOf;
    var rank := map id | id in drafts :: RankOf(bound, DepthIn(trees, drafts[id]), id);
    forall id, w | id in drafts && w in drafts[id].waits ensures w in drafts && rank[w] < rank[id] {
      WaitIsKnown(trees, drafts, id, w);
      RankDrops(bound, DepthIn(trees, drafts[id]), DepthIn(trees, drafts[w]), id, w);
    }
    RankedIsAcyclic(drafts, rank);
  }

  lemma RankedIsAcyclic(drafts: Drafts, rank: map<nat, nat>)
    requires rank.Keys == drafts.Keys
    requires forall id, w :: id in drafts && w in drafts[id].waits ==> w in drafts && rank[w] < rank[id]
    ensures G.Closed(WaitsOf(drafts)) && G.Acyclic(WaitsOf(drafts))
  {
    assert G.Closed(WaitsOf(drafts));
    assert G.Ranks(WaitsOf(drafts), rank);
  }

  lemma UnchainedIsLocal(trees: Trees, drafts: Drafts)
    requires Unchained(trees, drafts)
    ensures AreDrafts(trees, drafts) && WaitsAreLocal(trees, drafts)
  {
  }

  lemma ChainedIsLocal(trees: Trees, drafts: Drafts, chained: Drafts)
    requires Unchained(trees, drafts) && Chained(drafts, chained)
    ensures AreDrafts(trees, chained) && WaitsAreLocal(trees, chained)
  {
    hide *;
    ChainedKeys(drafts, chained);
    UnchainedParts(trees, drafts);
    forall id | id in chained ensures DraftReady(trees, id, chained[id]) {
      ChainedAt(trees, drafts, chained, id);
      DraftMoved(trees, drafts, id, chained[id]);
    }
    forall id, w | id in chained && w in chained[id].waits ensures WaitIsLocal(trees, chained, id, w) {
      ChainedAt(trees, drafts, chained, id);
      if w in drafts {
        ChainedAt(trees, drafts, chained, w);
      }
      LinkIsLocal(trees, drafts, chained, id, w);
    }
    DraftsAre(trees, chained);
  }

  lemma ChainedKeys(drafts: Drafts, chained: Drafts)
    requires Chained(drafts, chained)
    ensures chained.Keys == drafts.Keys
  {
    hide LinkedTo;
  }

  lemma UnchainedParts(trees: Trees, drafts: Drafts)
    requires Unchained(trees, drafts)
    ensures forall k, r :: k in trees && r in trees[k].ids ==> trees[k].ids[r] in drafts
  {
    hide DraftReady, FreshDraft;
  }

  lemma ChainedAt(trees: Trees, drafts: Drafts, chained: Drafts, id: nat)
    requires Unchained(trees, drafts) && Chained(drafts, chained) && id in drafts
    ensures chained.Keys == drafts.Keys && LinkedTo(drafts, id, chained[id]) && DraftReady(trees, id, drafts[id])
    ensures drafts[id].tree in trees && drafts[id].waits == ChildIds(trees[drafts[id].tree], drafts[id].src)
  {
    hide LinkedTo, ChildIds;
    assert FreshDraft(trees, id, drafts[id]);
  }

  lemma DraftsAre(trees: Trees, drafts: Drafts)
    requires forall id :: id in drafts ==> DraftReady(trees, id, drafts[id])
    requires forall k, r :: k in trees && r in trees[k].ids ==> trees[k].ids[r] in drafts
    requires forall id, w :: id in drafts && w in drafts[id].waits ==> WaitIsLocal(trees, drafts, id, w)
    ensures AreDrafts(trees, drafts) && WaitsAreLocal(trees, drafts)
  {
    hide DraftReady, WaitIsLocal;
  }

  lemma DraftMoved(trees: Trees, drafts: Drafts, id: nat, d: Draft)
    requires id in drafts && DraftReady(trees, id, drafts[id]) && LinkedTo(drafts, id, d)
    ensures DraftReady(trees, id, d)
  {
    hide IsPrevious;
  }

  lemma LinkIsLocal(trees: Trees, drafts: Drafts, chained: Drafts, id: nat, w: nat)
    requires chained.Keys == drafts.Keys && id in drafts && LinkedTo(drafts, id, chained[id]) && w in chained[id].waits
    requires DraftReady(trees, id, drafts[id])
    requires drafts[id].waits == ChildIds(trees[drafts[id].tree], drafts[id].src)
    requires w in drafts ==> LinkedTo(drafts, w, chained[w])
    ensures WaitIsLocal(trees, chained, id, w)
  {
    hide ChildIds;
  }
}
