/** Linear aggregate states of a routing-only reduction (vericcl/composer/dual.py, _routing_aggregate_metadata).

    An aggregate state's rank, position, contributors and version are read off its id,
    so a state is its id and its producer. */
module Aggregates {
  import opened Basics
  import opened DualTrees
  import opened Reversal
  import G = Graphs

  datatype StateId = StateId(root: nat, tree: set<nat>, position: nat, rank: nat, version: nat, contributors: set<nat>)

  datatype State = State(id: StateId, producer: Option<nat>)

  datatype Spot = Spot(tree: nat, rank: nat)

  datatype Transition = Transition(source: StateId, accumulator: StateId, produced: StateId)

  datatype Aggregation = Aggregation(
    completed: set<nat>,
    active: map<Spot, State>,
    states: map<StateId, State>,
    consumed: set<StateId>,
    transitions: map<nat, Transition>)

  datatype AggregateError =
    | NoLocalState | SplitPosition                                            // the tree's fault
    | DependencyCycle | Conflict | SourceMismatch | Overlapping | ConsumedTwice | Incomplete

  // ---------------------------------------------------------------- what a tree must provide

  /** All contributors share one position within the slice grid. */
  ghost predicate AtPosition(t: Tree, sliceCount: nat, q: nat)
    requires sliceCount > 0
  {
    t.contributors != {} && forall m :: m in t.contributors ==> m % sliceCount == q
  }

  ghost predicate Aligned(t: Tree, sliceCount: nat)
    requires sliceCount > 0
  {
    exists q :: AtPosition(t, sliceCount, q)
  }

  /** Every rank of the tree has data of its own and the contributors share a position. */
  ghost predicate Grounded(t: Tree, sliceCount: nat)
    requires sliceCount > 0
  {
    Aligned(t, sliceCount) && forall r :: r in t.local ==> t.local[r] != {}
  }

  ghost predicate AllGrounded(trees: Trees, sliceCount: nat)
    requires sliceCount > 0
  {
    forall k :: k in trees ==> Grounded(trees[k], sliceCount)
  }

  /** Being a tree is not enough: a rank that only relays, between the root and the other contributor's source, has no
      data of
      its own, whatever the slice grid. */
  lemma RelayIsNotGrounded(sliceCount: nat) returns (t: Tree)
    requires sliceCount > 0
    ensures ValidTree(t) && Aligned(t, sliceCount) && !Grounded(t, sliceCount)
    ensures t.parent == map[1 := 0, 2 := 1] && t.members == map[1 := {sliceCount}, 2 := {sliceCount}]
  {
    t := RelayTree(sliceCount);
    RelayIsValid(sliceCount);
    hide ValidTree;
    RelayAligned(sliceCount);
    assert t.local[1] == {};
  }

  lemma RelayAligned(c: nat)
    requires c > 0
    ensures Aligned(RelayTree(c), c)
  {
    assert AtPosition(RelayTree(c), c, 0);
  }

  function RelayTree(c: nat): Tree {
    Tree(0, {0, c}, map[1 := 0, 2 := 1], map[1 := {c}, 2 := {c}], map[1 := 0, 2 := 1], map[0 := {0}, 1 := {}, 2 := {c}])
  }

  lemma RelayIsValid(c: nat)
    requires c > 0
    ensures ValidTree(RelayTree(c))
  {
    var t := RelayTree(c);
    RelayShape(c);
    RelayMembers(c);
    hide Depths, Children, Subtree, Through, Rooted, Ranks, AreLocals, ValidTree;
    IsValid(t);
  }

  lemma RelayShape(c: nat)
    ensures var t := RelayTree(c); Rooted(t) && Ranks(t) == {0, 1, 2}
  {
    assert Depths(RelayTree(c), map[0 := 0, 1 := 1, 2 := 2]);
  }

  lemma RelayMembers(c: nat)
    requires c > 0
    ensures var t := RelayTree(c);
            && Subtree(t, 0) == {0, c} && Subtree(t, 1) == {c} && Subtree(t, 2) == {c} && AreLocals(t, t.local)
  {
    var t := RelayTree(c);
    assert Children(t, 0) == {1} && Children(t, 1) == {2} && Children(t, 2) == {};
    assert 1 in {1} && 1 in t.members && c in t.members[1];
    assert 2 in {2} && 2 in t.members && c in t.members[2];
    assert Through(t, {1}) == {c} && Through(t, {2}) == {c} && Through(t, {}) == {};
    hide Children, Through;
  }

  lemma OnePosition(t: Tree, sliceCount: nat, a: nat, b: nat)
    requires sliceCount > 0 && AtPosition(t, sliceCount, a) && AtPosition(t, sliceCount, b)
    ensures a == b
  {
    var m :| m in t.contributors;
  }

  method LogicalPosition(t: Tree, sliceCount: nat) returns (q: Option<nat>)
    requires sliceCount > 0
    ensures q.Some? ==> AtPosition(t, sliceCount, q.value)
    ensures q.None? ==> !Aligned(t, sliceCount)
  {
    if t.contributors == {} {
      return None;
    }
    HasMember(t.contributors);
    var first :| first in t.contributors;
    var positions := set m | m in t.contributors :: m % sliceCount;
    assert first % sliceCount in positions;
    if positions != {first % sliceCount} {
      NotAligned(t, sliceCount, positions, first);
      return None;
    }
    forall m | m in t.contributors ensures m % sliceCount == first % sliceCount {
      assert m % sliceCount in positions;
    }
    return Some(first % sliceCount);
  }

  lemma NotAligned(t: Tree, sliceCount: nat, positions: set<nat>, first: nat)
    requires sliceCount > 0 && first in t.contributors
    requires positions == set m | m in t.contributors :: m % sliceCount
    requires positions != {first % sliceCount}
    ensures !Aligned(t, sliceCount)
  {
    if q: nat :| AtPosition(t, sliceCount, q) {
      OneResidue(t, sliceCount, q, positions, first);
    }
  }

  lemma OneResidue(t: Tree, sliceCount: nat, q: nat, positions: set<nat>, first: nat)
    requires sliceCount > 0 && first in t.contributors && AtPosition(t, sliceCount, q)
    requires positions == set m | m in t.contributors :: m % sliceCount
    ensures positions == {first % sliceCount}
  {
    assert first % sliceCount in positions;
  }

  // ---------------------------------------------------------------- invariants

  /** Ranks of tree k whose drafts are completed. */
  ghost function Sent(trees: Trees, completed: set<nat>, k: nat): set<nat>
    requires k in trees
  {
    set r | r in trees[k].ids && trees[k].ids[r] in completed
  }

  ghost predicate OfSpot(t: Tree, r: nat, id: StateId) {
    id.root == t.root && id.tree == t.contributors && id.rank == r
  }

  /** No version was ever made or used at this rank of the tree. */
  ghost predicate Untouched(t: Tree, a: Aggregation, r: nat) {
    && (forall id :: id in a.states ==> !OfSpot(t, r, id))
    && (forall id :: id in a.consumed ==> !OfSpot(t, r, id))
  }

  /** s is the newest version at this rank, unused, and holds what the rank has gathered. */
  ghost predicate Current(t: Tree, sliceCount: nat, a: Aggregation, sent: set<nat>, r: nat, s: State)
    requires r in t.local && sliceCount > 0
  {
    && OfSpot(t, r, s.id) && AtPosition(t, sliceCount, s.id.position)
    && s.id.contributors == Cover(t, sent, r)
    && s.id in a.states && a.states[s.id] == s
    && (forall id :: id in a.states && OfSpot(t, r, id) ==> id.version <= s.id.version)
    && (forall id :: id in a.consumed && OfSpot(t, r, id) ==> id.version < s.id.version)
  }

  ghost predicate SpotOk(trees: Trees, sliceCount: nat, a: Aggregation, k: nat, r: nat)
    requires k in trees && r in trees[k].local && sliceCount > 0
  {
    var t, sent := trees[k], Sent(trees, a.completed, k);
    if Spot(k, r) in a.active then
      && r !in sent && t.local[r] != {} && Current(t, sliceCount, a, sent, r, a.active[Spot(k, r)])
    else if r in sent then t.local[r] != {} && Aligned(t, sliceCount)
    else Children(t, r) * sent == {} && Untouched(t, a, r)
  }

  /** A recorded step merges two disjoint states of one tree into the next version at the destination. */
  ghost predicate TransitionOk(d: Draft, x: Transition) {
    && x.source.contributors == d.members && x.source.rank == d.src
    && x.accumulator.rank == d.dst && x.produced.rank == d.dst
    && x.source.contributors !! x.accumulator.contributors
    && x.produced.contributors == x.source.contributors + x.accumulator.contributors
    && x.produced.version == x.accumulator.version + 1
    && x.source != x.accumulator
  }

  /** Every state version is consumed at most once. */
  ghost predicate Linear(drafts: Drafts, a: Aggregation) {
    && a.transitions.Keys == a.completed && a.completed <= drafts.Keys
    && (forall id :: id in a.transitions ==>
          TransitionOk(drafts[id], a.transitions[id])
          && a.transitions[id].source in a.consumed && a.transitions[id].accumulator in a.consumed)
    && (forall i, j :: i in a.transitions && j in a.transitions && i != j ==>
          {a.transitions[i].source, a.transitions[i].accumulator} !! {a.transitions[j].source,
              a.transitions[j].accumulator})
  }

  ghost predicate ClosedUnder(drafts: Drafts, completed: set<nat>) {
    completed <= drafts.Keys && forall id :: id in completed ==> drafts[id].waits <= completed
  }

  ghost predicate ActiveKnown(trees: Trees, a: Aggregation) {
    forall s :: s in a.active ==> s.tree in trees && s.rank in trees[s.tree].local
  }

  ghost predicate SpotsOk(trees: Trees, sliceCount: nat, a: Aggregation)
    requires sliceCount > 0
  {
    forall k, r :: k in trees && r in trees[k].local ==> SpotOk(trees, sliceCount, a, k, r)
  }

  ghost predicate Sound(trees: Trees, drafts: Drafts, sliceCount: nat, a: Aggregation)
    requires sliceCount > 0
  {
    ClosedUnder(drafts, a.completed) && ActiveKnown(trees, a) && SpotsOk(trees, sliceCount, a) && Linear(drafts, a)
  }

  lemma SoundParts(trees: Trees, drafts: Drafts, sliceCount: nat, a: Aggregation)
    requires sliceCount > 0 && Sound(trees, drafts, sliceCount, a)
    ensures ClosedUnder(drafts, a.completed) && ActiveKnown(trees, a) && SpotsOk(trees, sliceCount, a)
        && Linear(drafts, a)
  {
    hide ClosedUnder, ActiveKnown, SpotsOk, Linear;
  }

  lemma SoundWhole(trees: Trees, drafts: Drafts, sliceCount: nat, a: Aggregation)
    requires sliceCount > 0
    requires ClosedUnder(drafts, a.completed) && ActiveKnown(trees, a) && SpotsOk(trees, sliceCount, a)
    requires Linear(drafts, a)
    ensures Sound(trees, drafts, sliceCount, a)
  {
    hide ClosedUnder, ActiveKnown, SpotsOk, Linear;
  }

  lemma SpotIsOk(trees: Trees, sliceCount: nat, a: Aggregation, k: nat, r: nat)
    requires sliceCount > 0 && SpotsOk(trees, sliceCount, a) && k in trees && r in trees[k].local
    ensures SpotOk(trees, sliceCount, a, k, r)
  {
    hide SpotOk;
  }

  // ---------------------------------------------------------------- order

  /** Completed drafts are bottom-up in every tree. */
  lemma ClosedIsBottomUp(trees: Trees, drafts: Drafts, completed: set<nat>, k: nat)
    requires ValidTrees(trees) && AreDrafts(trees, drafts) && ClosedUnder(drafts, completed) && k in trees
    ensures BottomUp(trees[k], Sent(trees, completed, k))
  {
    hide ValidTrees, AreDrafts, ClosedUnder;
    var t, sent := trees[k], Sent(trees, completed, k);
    OneTree(trees, k);
    TreeRanks(t);
    hide ValidTree;
    forall r, c | r in sent && c in Children(t, r) ensures c in sent {
      ChildFinished(trees, drafts, completed, k, r, c);
    }
  }

  lemma ChildFinished(trees: Trees, drafts: Drafts, completed: set<nat>, k: nat, r: nat, c: nat)
    requires ValidTrees(trees) && AreDrafts(trees, drafts) && ClosedUnder(drafts, completed) && k in trees
    requires r in Sent(trees, completed, k) && c in Children(trees[k], r) && c in trees[k].ids
    ensures c in Sent(trees, completed, k)
  {
    hide ValidTrees, AreDrafts, ValidTree;
    var id := trees[k].ids[r];
    DraftAt(trees, drafts, k, r);
    assert trees[k].ids[c] in ChildIds(trees[k], r);
  }

  /** The draft of a rank is found under its id. */
  lemma DraftAt(trees: Trees, drafts: Drafts, k: nat, r: nat)
    requires ValidTrees(trees) && AreDrafts(trees, drafts) && k in trees && r in trees[k].ids
    ensures var id := trees[k].ids[r];
            id in drafts && drafts[id].tree == k && drafts[id].src == r && ChildIds(trees[k], r) <= drafts[id].waits
  {
    hide ValidTree, ChildIds;
    var id := trees[k].ids[r];
    assert DraftReady(trees, id, drafts[id]);
  }

  /** Reduction conservation: whatever has been sent so far, the live aggregates of each tree, untouched local ones
      included, are disjoint and together hold every contributor. */
  lemma Conservation(trees: Trees, drafts: Drafts, completed: set<nat>, k: nat)
    requires ValidTrees(trees) && AreDrafts(trees, drafts) && ClosedUnder(drafts, completed) && k in trees
    ensures Partition(Live(trees[k], Sent(trees, completed, k)), trees[k].contributors)
  {
    hide *;
    ClosedIsBottomUp(trees, drafts, completed, k);
    OneTree(trees, k);
    LiveIsPartition(trees[k], Sent(trees, completed, k));
  }

  // ---------------------------------------------------------------- frames

  lemma SpotFrame(trees: Trees, sliceCount: nat, a: Aggregation, b: Aggregation, k: nat, r: nat)
    requires sliceCount > 0 && k in trees && r in trees[k].local && SpotOk(trees, sliceCount, a, k, r)
    requires var s, u := Sent(trees, a.completed, k), Sent(trees, b.completed, k);
             (r in s <==> r in u) && Children(trees[k], r) * s == Children(trees[k], r) * u
    requires Spot(k, r) in a.active <==> Spot(k, r) in b.active
    requires Spot(k, r) in a.active ==> b.active[Spot(k, r)] == a.active[Spot(k, r)]
    requires forall id :: OfSpot(trees[k], r, id) ==>
        (id in a.states <==> id in b.states) && (id in a.consumed <==> id in b.consumed)
    requires forall id :: OfSpot(trees[k], r, id) && id in a.states && id in b.states ==> a.states[id] == b.states[id]
    ensures SpotOk(trees, sliceCount, b, k, r)
  {
    hide AtPosition, Children, Through, Aligned;
  }

  lemma OtherSpot(trees: Trees, k: nat, r: nat, l: nat, x: nat, id: StateId)
    requires ValidTrees(trees) && k in trees && l in trees && (k != l || r != x) && OfSpot(trees[k], r, id)
    ensures !OfSpot(trees[l], x, id)
  {
    hide ValidTree;
  }

  // ---------------------------------------------------------------- activating a local state

  function LocalId(t: Tree, q: nat, r: nat): StateId
    requires r in t.local
  {
    StateId(t.root, t.contributors, q, r, 0, t.local[r])
  }

  function Activated(a: Aggregation, k: nat, r: nat, s: State): Aggregation {
    a.(active := a.active[Spot(k, r) := s], states := a.states[s.id := s])
  }

  lemma ActivateSpot(trees: Trees, sliceCount: nat, a: Aggregation, k: nat, r: nat, q: nat)
    requires sliceCount > 0 && k in trees && r in trees[k].local && SpotOk(trees, sliceCount, a, k, r)
    requires Spot(k, r) !in a.active && r !in Sent(trees, a.completed, k)
    requires trees[k].local[r] != {} && AtPosition(trees[k], sliceCount, q)
    ensures LocalId(trees[k], q, r) !in a.states
    ensures SpotOk(trees, sliceCount, Activated(a, k, r, State(LocalId(trees[k], q, r), None)), k, r)
  {
    hide AtPosition, Aligned;
    var t, sent := trees[k], Sent(trees, a.completed, k);
    assert OfSpot(t, r, LocalId(t, q, r));
    CoverIs(t, sent, r);
    NothingThrough(t);
  }

  lemma NothingThrough(t: Tree)
    ensures Through(t, {}) == {}
  {
  }

  lemma ActivateOthers(trees: Trees, sliceCount: nat, a: Aggregation, k: nat, r: nat, q: nat, l: nat, x: nat)
    requires sliceCount > 0 && ValidTrees(trees) && k in trees && r in trees[k].local && l in trees
    requires x in trees[l].local
    requires (k != l || r != x) && SpotOk(trees, sliceCount, a, l, x)
    ensures SpotOk(trees, sliceCount, Activated(a, k, r, State(LocalId(trees[k], q, r), None)), l, x)
  {
    hide ValidTrees, SpotOk;
    var b := Activated(a, k, r, State(LocalId(trees[k], q, r), None));
    OtherSpot(trees, k, r, l, x, LocalId(trees[k], q, r));
    SpotFrame(trees, sliceCount, a, b, l, x);
  }

  lemma ActivateKeeps(trees: Trees, drafts: Drafts, sliceCount: nat, a: Aggregation, k: nat, r: nat, q: nat)
    requires sliceCount > 0 && ValidTrees(trees) && Sound(trees, drafts, sliceCount, a) && k in trees
    requires r in trees[k].local
    requires Spot(k, r) !in a.active && r !in Sent(trees, a.completed, k)
    requires trees[k].local[r] != {} && AtPosition(trees[k], sliceCount, q)
    ensures LocalId(trees[k], q, r) !in a.states
    ensures Sound(trees, drafts, sliceCount, Activated(a, k, r, State(LocalId(trees[k], q, r), None)))
  {
    hide *;
    SoundParts(trees, drafts, sliceCount, a);
    SpotIsOk(trees, sliceCount, a, k, r);
    ActivateSpot(trees, sliceCount, a, k, r, q);
    ActivateSpots(trees, sliceCount, a, k, r, q);
    ActivatedRest(trees, drafts, a, k, r, State(LocalId(trees[k], q, r), None));
    SoundWhole(trees, drafts, sliceCount, Activated(a, k, r, State(LocalId(trees[k], q, r), None)));
  }

  lemma ActivateSpots(trees: Trees, sliceCount: nat, a: Aggregation, k: nat, r: nat, q: nat)
    requires sliceCount > 0 && ValidTrees(trees) && k in trees && r in trees[k].local && SpotsOk(trees, sliceCount, a)
    requires SpotOk(trees, sliceCount, Activated(a, k, r, State(LocalId(trees[k], q, r), None)), k, r)
    ensures SpotsOk(trees, sliceCount, Activated(a, k, r, State(LocalId(trees[k], q, r), None)))
  {
    hide ValidTrees, SpotOk, Activated, LocalId;
    var b := Activated(a, k, r, State(LocalId(trees[k], q, r), None));
    forall l, x | l in trees && x in trees[l].local ensures SpotOk(trees, sliceCount, b, l, x) {
      if l != k || x != r {
        ActivateOthers(trees, sliceCount, a, k, r, q, l, x);
      }
    }
  }

  lemma ActivatedRest(trees: Trees, drafts: Drafts, a: Aggregation, k: nat, r: nat, s: State)
    requires ClosedUnder(drafts, a.completed) && ActiveKnown(trees, a) && Linear(drafts, a) && k in trees
    requires r in trees[k].local
    ensures var b := Activated(a, k, r, s);
            && ClosedUnder(drafts, b.completed) && ActiveKnown(trees, b) && Linear(drafts, b)
            && b.completed == a.completed
  {
    hide TransitionOk;
  }

  // ---------------------------------------------------------------- one reduction step

  function Reduced(trees: Trees, a: Aggregation, id: nat, d: Draft): Aggregation
    requires d.tree in trees && Spot(d.tree, d.src) in a.active && Spot(d.tree, d.dst) in a.active
  {
    var t := trees[d.tree];
    var source, accumulator := a.active[Spot(d.tree, d.src)].id, a.active[Spot(d.tree, d.dst)].id;
    var produced := StateId(t.root, t.contributors, source.position, d.dst, accumulator.version + 1, source.contributors
                            + accumulator.contributors);
    var state := State(produced, Some(id));
    Aggregation(a.completed + {id}, (a.active - {Spot(d.tree, d.src)})[Spot(d.tree, d.dst) := state],
                a.states[produced := state], a.consumed + {source, accumulator},
                a.transitions[id := Transition(source, accumulator, produced)])
  }

  /** Draft id of tree k is ready and not completed. */
  ghost predicate ReadyDraft(trees: Trees, drafts: Drafts, completed: set<nat>, id: nat) {
    && id in drafts && id !in completed && drafts[id].waits <= completed && drafts[id].tree in trees
  }

  lemma ReadyKnown(trees: Trees, drafts: Drafts, completed: set<nat>, id: nat)
    requires ReadyDraft(trees, drafts, completed, id)
    ensures id in drafts && id !in completed && drafts[id].waits <= completed && drafts[id].tree in trees
  {
  }

  lemma SentAfter(trees: Trees, drafts: Drafts, completed: set<nat>, id: nat, k: nat)
    requires ValidTrees(trees) && AreDrafts(trees, drafts) && ReadyDraft(trees, drafts, completed, id) && k in trees
    ensures Sent(trees, completed + {id}, k)
            == if k == drafts[id].tree then Sent(trees, completed, k) + {drafts[id].src} else Sent(trees, completed, k)
  {
    hide ValidTree;
    DraftKnown(trees, drafts, id);
    var s := Sent(trees, completed + {id}, k);
    forall r ensures r in s <==> r in Sent(trees, completed, k) || (k == drafts[id].tree && r == drafts[id].src) {
    }
  }

  /** What the tree says about a ready draft. */
  lemma ReadyFacts(trees: Trees, drafts: Drafts, completed: set<nat>, id: nat)
    requires ValidTrees(trees) && AreDrafts(trees, drafts) && ClosedUnder(drafts, completed)
    requires ReadyDraft(trees, drafts, completed, id)
    ensures var d := drafts[id]; var t, sent := trees[d.tree], Sent(trees, completed, d.tree);
            && ValidTree(t) && BottomUp(t, sent)
            && d.src in t.parent && d.src in t.local && d.dst == t.parent[d.src] && d.dst in t.local && d.src != d.dst
            && d.src in t.members && d.members == t.members[d.src]
            && d.src !in sent && d.dst !in sent && Children(t, d.src) <= sent
            && Cover(t, sent, d.src) == d.members && Cover(t, sent, d.src) !! Cover(t, sent, d.dst)
            && d.dst in Ranks(t)
  {
    hide *;
    ReadyKnown(trees, drafts, completed, id);
    var d := drafts[id];
    var t, sent := trees[d.tree], Sent(trees, completed, d.tree);
    OneTree(trees, d.tree);
    TreeRanks(t);
    ReadySource(trees, drafts, completed, id);
    ClosedIsBottomUp(trees, drafts, completed, d.tree);
    ParentWaits(t, sent, d.src);
    RanksAre(t);
    SendFacts(t, sent, d.src);
    ReadyDisjoint(t, sent, d.src);
  }

  lemma RanksAre(t: Tree)
    ensures Ranks(t) == t.parent.Keys + {t.root}
  {
  }

  lemma ReadyDisjoint(t: Tree, sent: set<nat>, c: nat)
    requires ValidTree(t) && BottomUp(t, sent) && c in t.parent && c !in sent && t.parent[c] !in sent
    requires c in t.local && t.parent[c] in t.local && t.parent[c] != c
    ensures Cover(t, sent, c) !! Cover(t, sent, t.parent[c])
  {
    LiveIsPartition(t, sent);
    hide ValidTree, BottomUp, Cover;
    assert Live(t, sent)[c] !! Live(t, sent)[t.parent[c]];
  }

  lemma ReadySource(trees: Trees, drafts: Drafts, completed: set<nat>, id: nat)
    requires ValidTrees(trees) && AreDrafts(trees, drafts) && ReadyDraft(trees, drafts, completed, id)
    ensures var d := drafts[id]; var t, sent := trees[d.tree], Sent(trees, completed, d.tree);
            && d.src in t.parent && d.dst == t.parent[d.src] && d.src in t.members && d.members == t.members[d.src]
            && d.src !in sent && Children(t, d.src) <= sent
  {
    hide ValidTree, ChildIds;
    var d := drafts[id];
    assert DraftReady(trees, id, d);
    OneTree(trees, d.tree);
    TreeRanks(trees[d.tree]);
    forall c | c in Children(trees[d.tree], d.src) ensures c in Sent(trees, completed, d.tree) {
      ChildHasId(trees[d.tree], d.src, c);
    }
  }

  lemma ChildHasId(t: Tree, r: nat, c: nat)
    requires t.ids.Keys == t.parent.Keys && c in Children(t, r)
    ensures c in t.ids && t.ids[c] in ChildIds(t, r)
  {
  }

  /** Neither of the two errors about the merged states can arise, and their versions are unused. */
  lemma StepIsClean(trees: Trees, drafts: Drafts, sliceCount: nat, a: Aggregation, id: nat)
    requires sliceCount > 0 && ValidTrees(trees) && AreDrafts(trees, drafts) && Sound(trees, drafts, sliceCount, a)
    requires ReadyDraft(trees, drafts, a.completed, id)
    requires Spot(drafts[id].tree, drafts[id].src) in a.active && Spot(drafts[id].tree, drafts[id].dst) in a.active
    ensures var d := drafts[id]; var t := trees[d.tree];
            var source, accumulator := a.active[Spot(d.tree, d.src)].id, a.active[Spot(d.tree, d.dst)].id;
            && source.contributors == d.members && source.contributors !! accumulator.contributors
            && source !in a.consumed && accumulator !in a.consumed && source.rank == d.src && accumulator.rank == d.dst
            && source.position == accumulator.position && OfSpot(t, d.dst, accumulator)
            && StateId(t.root, t.contributors, source.position, d.dst, accumulator.version + 1, source.contributors
                       + accumulator.contributors) !in a.states
  {
    hide *;
    ReadyKnown(trees, drafts, a.completed, id);
    var d := drafts[id];
    var t, sent := trees[d.tree], Sent(trees, a.completed, d.tree);
    SoundParts(trees, drafts, sliceCount, a);
    ReadyFacts(trees, drafts, a.completed, id);
    CurrentAt(trees, sliceCount, a, d.tree, d.src);
    CurrentAt(trees, sliceCount, a, d.tree, d.dst);
    var s, m := a.active[Spot(d.tree, d.src)], a.active[Spot(d.tree, d.dst)];
    CurrentFacts(t, sliceCount, a, sent, d.src, s);
    CurrentFacts(t, sliceCount, a, sent, d.dst, m);
    OnePosition(t, sliceCount, s.id.position, m.id.position);
    NextIsNew(t, sliceCount, a, sent, d.dst, m, s.id.position, s.id.contributors + m.id.contributors);
  }

  lemma CurrentAt(trees: Trees, sliceCount: nat, a: Aggregation, k: nat, r: nat)
    requires sliceCount > 0 && SpotsOk(trees, sliceCount, a) && k in trees && r in trees[k].local
    requires Spot(k, r) in a.active
    ensures Current(trees[k], sliceCount, a, Sent(trees, a.completed, k), r, a.active[Spot(k, r)])
        && trees[k].local[r] != {}
    ensures r !in Sent(trees, a.completed, k)
  {
    hide Current;
    assert SpotOk(trees, sliceCount, a, k, r);
  }

  lemma CurrentFacts(t: Tree, sliceCount: nat, a: Aggregation, sent: set<nat>, r: nat, s: State)
    requires sliceCount > 0 && r in t.local && Current(t, sliceCount, a, sent, r, s)
    ensures OfSpot(t, r, s.id) && AtPosition(t, sliceCount, s.id.position) && s.id.contributors == Cover(t, sent, r)
    ensures s.id.rank == r && s.id !in a.consumed && s.id in a.states && a.states[s.id] == s
  {
    hide AtPosition, Cover;
  }

  lemma NextIsNew(t: Tree, sliceCount: nat, a: Aggregation, sent: set<nat>, r: nat, s: State, position: nat,
                  contributors: set<nat>)
    requires sliceCount > 0 && r in t.local && Current(t, sliceCount, a, sent, r, s)
    ensures StateId(t.root, t.contributors, position, r, s.id.version + 1, contributors) !in a.states
  {
    hide AtPosition, Cover;
    assert OfSpot(t, r, StateId(t.root, t.contributors, position, r, s.id.version + 1, contributors));
  }

  // ---------------------------------------------------------------- the step keeps everything

  lemma ReducedSource(trees: Trees, drafts: Drafts, sliceCount: nat, a: Aggregation, id: nat)
    requires sliceCount > 0 && ValidTrees(trees) && AreDrafts(trees, drafts) && ClosedUnder(drafts, a.completed)
    requires SpotsOk(trees, sliceCount, a)
    requires ReadyDraft(trees, drafts, a.completed, id)
    requires Spot(drafts[id].tree, drafts[id].src) in a.active && Spot(drafts[id].tree, drafts[id].dst) in a.active
    ensures drafts[id].src in trees[drafts[id].tree].local
    ensures SpotOk(trees, sliceCount, Reduced(trees, a, id, drafts[id]), drafts[id].tree, drafts[id].src)
  {
    hide *;
    ReadyKnown(trees, drafts, a.completed, id);
    var d := drafts[id];
    ReadyFacts(trees, drafts, a.completed, id);
    SentAfter(trees, drafts, a.completed, id, d.tree);
    CurrentAt(trees, sliceCount, a, d.tree, d.src);
    CurrentFacts(trees[d.tree], sliceCount, a, Sent(trees, a.completed, d.tree), d.src, a.active[Spot(d.tree, d.src)]);
    SentSpot(trees, sliceCount, a, id, d, a.active[Spot(d.tree, d.src)].id.position);
  }

  lemma SentSpot(trees: Trees, sliceCount: nat, a: Aggregation, id: nat, d: Draft, q: nat)
    requires sliceCount > 0 && d.tree in trees && d.src in trees[d.tree].local && d.src != d.dst
    requires Spot(d.tree, d.src) in a.active && Spot(d.tree, d.dst) in a.active
    requires trees[d.tree].local[d.src] != {} && AtPosition(trees[d.tree], sliceCount, q)
    requires d.src in Sent(trees, a.completed + {id}, d.tree)
    ensures SpotOk(trees, sliceCount, Reduced(trees, a, id, d), d.tree, d.src)
  {
    hide AtPosition, Cover, Untouched, Current;
    assert Aligned(trees[d.tree], sliceCount);
  }

  lemma ReducedTarget(trees: Trees, drafts: Drafts, sliceCount: nat, a: Aggregation, id: nat)
    requires sliceCount > 0 && ValidTrees(trees) && AreDrafts(trees, drafts) && ClosedUnder(drafts, a.completed)
    requires SpotsOk(trees, sliceCount, a)
    requires ReadyDraft(trees, drafts, a.completed, id)
    requires Spot(drafts[id].tree, drafts[id].src) in a.active && Spot(drafts[id].tree, drafts[id].dst) in a.active
    ensures drafts[id].dst in trees[drafts[id].tree].local
    ensures SpotOk(trees, sliceCount, Reduced(trees, a, id, drafts[id]), drafts[id].tree, drafts[id].dst)
  {
    hide *;
    ReadyKnown(trees, drafts, a.completed, id);
    var d := drafts[id];
    var t, sent := trees[d.tree], Sent(trees, a.completed, d.tree);
    ReadyFacts(trees, drafts, a.completed, id);
    SentAfter(trees, drafts, a.completed, id, d.tree);
    CurrentAt(trees, sliceCount, a, d.tree, d.src);
    CurrentAt(trees, sliceCount, a, d.tree, d.dst);
    CurrentFacts(t, sliceCount, a, sent, d.src, a.active[Spot(d.tree, d.src)]);
    CoverAfter(t, sent, d.src, d.dst);
    TargetSpot(trees, sliceCount, a, id, d, sent);
  }

  lemma TargetSpot(trees: Trees, sliceCount: nat, a: Aggregation, id: nat, d: Draft, sent: set<nat>)
    requires sliceCount > 0 && d.tree in trees && d.dst in trees[d.tree].local && d.src in trees[d.tree].local
    requires d.src != d.dst
    requires Spot(d.tree, d.src) in a.active && Spot(d.tree, d.dst) in a.active
    requires sent == Sent(trees, a.completed, d.tree) && Sent(trees, a.completed + {id}, d.tree) == sent + {d.src}
    requires d.dst !in sent && trees[d.tree].local[d.dst] != {}
    requires Current(trees[d.tree], sliceCount, a, sent, d.dst, a.active[Spot(d.tree, d.dst)])
    requires AtPosition(trees[d.tree], sliceCount, a.active[Spot(d.tree, d.src)].id.position)
    requires a.active[Spot(d.tree, d.src)].id.rank == d.src
    requires a.active[Spot(d.tree, d.src)].id.contributors == d.members
    requires Cover(trees[d.tree], sent + {d.src}, d.dst) == Cover(trees[d.tree], sent, d.dst) + d.members
    ensures SpotOk(trees, sliceCount, Reduced(trees, a, id, d), d.tree, d.dst)
  {
    hide AtPosition, Cover, Untouched, Sent, Aligned, Children;
    var b := Reduced(trees, a, id, d);
    assert Current(trees[d.tree], sliceCount, b, sent + {d.src}, d.dst, b.active[Spot(d.tree, d.dst)]);
  }

  lemma ReducedOther(trees: Trees, drafts: Drafts, sliceCount: nat, a: Aggregation, id: nat, k: nat, r: nat)
    requires sliceCount > 0 && ValidTrees(trees) && AreDrafts(trees, drafts) && ClosedUnder(drafts, a.completed)
    requires SpotsOk(trees, sliceCount, a)
    requires ReadyDraft(trees, drafts, a.completed, id)
    requires Spot(drafts[id].tree, drafts[id].src) in a.active && Spot(drafts[id].tree, drafts[id].dst) in a.active
    requires k in trees && r in trees[k].local
    requires !(k == drafts[id].tree && (r == drafts[id].src || r == drafts[id].dst))
    ensures SpotOk(trees, sliceCount, Reduced(trees, a, id, drafts[id]), k, r)
  {
    hide *;
    ReadyKnown(trees, drafts, a.completed, id);
    var d := drafts[id];
    ReadyFacts(trees, drafts, a.completed, id);
    SentAfter(trees, drafts, a.completed, id, k);
    CurrentAt(trees, sliceCount, a, d.tree, d.src);
    CurrentAt(trees, sliceCount, a, d.tree, d.dst);
    CurrentFacts(trees[d.tree], sliceCount, a, Sent(trees, a.completed, d.tree), d.src, a.active[Spot(d.tree, d.src)]);
    CurrentFacts(trees[d.tree], sliceCount, a, Sent(trees, a.completed, d.tree), d.dst, a.active[Spot(d.tree, d.dst)]);
    SpotIsOk(trees, sliceCount, a, k, r);
    ReducedAway(trees, sliceCount, a, id, d, k, r);
  }

  lemma ReducedAway(trees: Trees, sliceCount: nat, a: Aggregation, id: nat, d: Draft, k: nat, r: nat)
    requires sliceCount > 0 && ValidTrees(trees) && d.tree in trees && k in trees && r in trees[k].local
    requires SpotOk(trees, sliceCount, a, k, r)
    requires Spot(d.tree, d.src) in a.active && Spot(d.tree, d.dst) in a.active
    requires !(k == d.tree && (r == d.src || r == d.dst))
    requires OfSpot(trees[d.tree], d.src, a.active[Spot(d.tree, d.src)].id)
    requires OfSpot(trees[d.tree], d.dst, a.active[Spot(d.tree, d.dst)].id)
    requires d.src in trees[d.tree].parent && trees[d.tree].parent[d.src] == d.dst
    requires Sent(trees, a.completed + {id}, k)
             == if k == d.tree then Sent(trees, a.completed, k) + {d.src} else Sent(trees, a.completed, k)
    ensures SpotOk(trees, sliceCount, Reduced(trees, a, id, d), k, r)
  {
    hide ValidTrees, SpotOk, Sent;
    var b := Reduced(trees, a, id, d);
    var s, m := a.active[Spot(d.tree, d.src)].id, a.active[Spot(d.tree, d.dst)].id;
    OtherSpot(trees, d.tree, d.src, k, r, s);
    OtherSpot(trees, d.tree, d.dst, k, r, m);
    OtherSpot(trees, d.tree, d.dst, k, r, b.active[Spot(d.tree, d.dst)].id);
    if k == d.tree {
      assert d.src !in Children(trees[k], r);
      assert Children(trees[k], r) * (Sent(trees, a.completed, k) + {d.src})
          == Children(trees[k], r) * Sent(trees, a.completed, k);
    }
    SpotFrame(trees, sliceCount, a, b, k, r);
  }

  lemma ReducedRest(trees: Trees, drafts: Drafts, a: Aggregation, id: nat)
    requires ClosedUnder(drafts, a.completed) && ActiveKnown(trees, a) && Linear(drafts, a)
    requires ReadyDraft(trees, drafts, a.completed, id)
    requires Spot(drafts[id].tree, drafts[id].src) in a.active && Spot(drafts[id].tree, drafts[id].dst) in a.active
    requires TransitionOk(drafts[id], Reduced(trees, a, id, drafts[id]).transitions[id])
    requires a.active[Spot(drafts[id].tree, drafts[id].src)].id !in a.consumed
    requires a.active[Spot(drafts[id].tree, drafts[id].dst)].id !in a.consumed
    ensures var b := Reduced(trees, a, id, drafts[id]);
            ClosedUnder(drafts, b.completed) && ActiveKnown(trees, b) && Linear(drafts, b)
  {
    hide TransitionOk;
  }

  lemma ReducedSpots(trees: Trees, drafts: Drafts, sliceCount: nat, a: Aggregation, id: nat)
    requires sliceCount > 0 && ValidTrees(trees) && AreDrafts(trees, drafts) && ClosedUnder(drafts, a.completed)
    requires SpotsOk(trees, sliceCount, a)
    requires ReadyDraft(trees, drafts, a.completed, id)
    requires Spot(drafts[id].tree, drafts[id].src) in a.active && Spot(drafts[id].tree, drafts[id].dst) in a.active
    ensures SpotsOk(trees, sliceCount, Reduced(trees, a, id, drafts[id]))
  {
    hide ValidTrees, AreDrafts, ClosedUnder, SpotOk, Reduced, ReadyDraft;
    ReadyKnown(trees, drafts, a.completed, id);
    var d := drafts[id];
    var b := Reduced(trees, a, id, d);
    ReducedSource(trees, drafts, sliceCount, a, id);
    ReducedTarget(trees, drafts, sliceCount, a, id);
    forall k, r | k in trees && r in trees[k].local ensures SpotOk(trees, sliceCount, b, k, r) {
      if !(k == d.tree && (r == d.src || r == d.dst)) {
        ReducedOther(trees, drafts, sliceCount, a, id, k, r);
      }
    }
  }

  lemma ReduceKeeps(trees: Trees, drafts: Drafts, sliceCount: nat, a: Aggregation, id: nat)
    requires sliceCount > 0 && ValidTrees(trees) && AreDrafts(trees, drafts) && Sound(trees, drafts, sliceCount, a)
    requires ReadyDraft(trees, drafts, a.completed, id)
    requires Spot(drafts[id].tree, drafts[id].src) in a.active && Spot(drafts[id].tree, drafts[id].dst) in a.active
    ensures Sound(trees, drafts, sliceCount, Reduced(trees, a, id, drafts[id]))
  {
    hide *;
    ReadyKnown(trees, drafts, a.completed, id);
    SoundParts(trees, drafts, sliceCount, a);
    StepIsClean(trees, drafts, sliceCount, a, id);
    ReadyFacts(trees, drafts, a.completed, id);
    NewTransition(trees, drafts, a, id);
    ReducedRest(trees, drafts, a, id);
    ReducedSpots(trees, drafts, sliceCount, a, id);
    SoundWhole(trees, drafts, sliceCount, Reduced(trees, a, id, drafts[id]));
  }

  lemma NewTransition(trees: Trees, drafts: Drafts, a: Aggregation, id: nat)
    requires id in drafts && drafts[id].tree in trees && drafts[id].src != drafts[id].dst
    requires Spot(drafts[id].tree, drafts[id].src) in a.active && Spot(drafts[id].tree, drafts[id].dst) in a.active
    requires var d := drafts[id];
             var source, accumulator := a.active[Spot(d.tree, d.src)].id, a.active[Spot(d.tree, d.dst)].id;
             && source.contributors == d.members && source.contributors !! accumulator.contributors
             && source.rank == d.src && accumulator.rank == d.dst
    ensures id in Reduced(trees, a, id, drafts[id]).transitions
    ensures TransitionOk(drafts[id], Reduced(trees, a, id, drafts[id]).transitions[id])
  {
  }

  // ---------------------------------------------------------------- the loop

  /** Only the two faults of a tree are ever reported. */
  ghost predicate TreeFault(trees: Trees, sliceCount: nat, e: AggregateError)
    requires sliceCount > 0
  {
    match e
    case SplitPosition => exists k :: k in trees && !Aligned(trees[k], sliceCount)
    case NoLocalState => exists k, r :: k in trees && r in trees[k].local && trees[k].local[r] == {}
    case _ => false
  }

  lemma FaultIsUngrounded(trees: Trees, sliceCount: nat, e: AggregateError)
    requires sliceCount > 0 && TreeFault(trees, sliceCount, e)
    ensures !AllGrounded(trees, sliceCount)
  {
    hide Aligned;
    if e.SplitPosition? {
      var k :| k in trees && !Aligned(trees[k], sliceCount);
      assert !Grounded(trees[k], sliceCount);
    } else {
      var k, r :| k in trees && r in trees[k].local && trees[k].local[r] == {};
      assert !Grounded(trees[k], sliceCount);
    }
  }

  /** register: an id already known must have the same content. */
  method Register(a: Aggregation, s: State) returns (r: Result<map<StateId, State>, AggregateError>)
    ensures r == if s.id in a.states && a.states[s.id] != s then Err(Conflict) else Ok(a.states[s.id := s])
  {
    if s.id in a.states && a.states[s.id] != s {
      return Err(Conflict);
    }
    return Ok(a.states[s.id := s]);
  }

  /** The state of a rank, made from its local members when it is first touched. */
  method EnsureActive(trees: Trees, ghost drafts: Drafts, sliceCount: nat, a: Aggregation, k: nat, r: nat)
    returns (b: Result<Aggregation, AggregateError>)
    requires sliceCount > 0 && ValidTrees(trees) && Sound(trees, drafts, sliceCount, a) && k in trees
    requires r in trees[k].local
    requires r !in Sent(trees, a.completed, k)
    ensures b.Ok? ==>
        Sound(trees, drafts, sliceCount, b.value) && b.value.completed == a.completed && Spot(k, r) in b.value.active
    ensures b.Ok? ==> forall s :: s in a.active ==> s in b.value.active
    ensures b.Err? ==> TreeFault(trees, sliceCount, b.error)
  {
    hide ValidTrees, Sound, AtPosition, Aligned, Sent;
    if Spot(k, r) in a.active {
      return Ok(a);
    }
    var q := LogicalPosition(trees[k], sliceCount);
    if q.None? {
      return Err(SplitPosition);
    }
    if trees[k].local[r] == {} {
      return Err(NoLocalState);
    }
    ActivateKeeps(trees, drafts, sliceCount, a, k, r, q.value);
    var s := State(LocalId(trees[k], q.value, r), None);
    var states := Register(a, s);
    assert states == Ok(Activated(a, k, r, s).states);
    return Ok(a.(active := a.active[Spot(k, r) := s], states := states.value));
  }

  /** The least ready draft by (start, id). */
  method NextReady(drafts: Drafts, starts: map<nat, real>, pending: set<nat>, completed: set<nat>)
    returns (id: Option<nat>)
    requires pending <= drafts.Keys && pending <= starts.Keys
    ensures id.None? ==> forall x :: x in pending ==> !(drafts[x].waits <= completed)
    ensures id.Some? ==> id.value in pending && drafts[id.value].waits <= completed
    ensures id.Some? ==> forall x :: x in pending && drafts[x].waits <= completed ==>
                           starts[id.value] < starts[x] || (starts[id.value] == starts[x] && id.value <= x)
  {
    id := None;
    var rest := pending;
    while rest != {}
      invariant rest <= pending
      invariant id.None? ==> forall x :: x in pending - rest ==> !(drafts[x].waits <= completed)
      invariant id.Some? ==> id.value in pending && drafts[id.value].waits <= completed
      invariant id.Some? ==> forall x :: x in pending - rest && drafts[x].waits <= completed ==>
                               starts[id.value] < starts[x] || (starts[id.value] == starts[x] && id.value <= x)
      decreases |rest|
    {
      HasMember(rest);
      var x :| x in rest;
      if drafts[x].waits <= completed
         && (id.None? || starts[x] < starts[id.value] || (starts[x] == starts[id.value] && x < id.value)) {
        id := Some(x);
      }
      rest := rest - {x};
    }
  }

  lemma NeverStuck(trees: Trees, drafts: Drafts, pending: set<nat>, completed: set<nat>)
    requires ValidTrees(trees) && AreDrafts(trees, drafts) && WaitsAreLocal(trees, drafts)
    requires pending == drafts.Keys - completed && pending != {}
    ensures exists id :: id in pending && drafts[id].waits <= completed
  {
    DraftsAcyclic(trees, drafts);
    hide *;
    WaitsAre(drafts);
    var id := G.SomeNodeReady(WaitsOf(drafts), completed);
    assert id in pending;
  }

  lemma WaitsAre(drafts: Drafts)
    ensures WaitsOf(drafts).Keys == drafts.Keys && forall id :: id in drafts ==> WaitsOf(drafts)[id] == drafts[id].waits
  {
  }

  /** Merge the source state of one ready draft into the accumulator of its destination. */
  method Reduce(trees: Trees, drafts: Drafts, sliceCount: nat, a: Aggregation, id: nat)
    returns (b: Result<Aggregation, AggregateError>)
    requires sliceCount > 0 && ValidTrees(trees) && AreDrafts(trees, drafts) && Sound(trees, drafts, sliceCount, a)
    requires ReadyDraft(trees, drafts, a.completed, id)
    ensures b.Ok? ==> Sound(trees, drafts, sliceCount, b.value) && b.value.completed == a.completed + {id}
    ensures b.Err? ==> TreeFault(trees, sliceCount, b.error)
  {
    hide *;
    ReadyKnown(trees, drafts, a.completed, id);
    SoundParts(trees, drafts, sliceCount, a);
    ReadyFacts(trees, drafts, a.completed, id);
    var d := drafts[id];
    var withSource := EnsureActive(trees, drafts, sliceCount, a, d.tree, d.src);
    if withSource.Err? {
      return withSource;
    }
    var withBoth := EnsureActive(trees, drafts, sliceCount, withSource.value, d.tree, d.dst);
    if withBoth.Err? {
      return withBoth;
    }
    var c := withBoth.value;
    StepIsClean(trees, drafts, sliceCount, c, id);
    ReduceKeeps(trees, drafts, sliceCount, c, id);
    b := Merge(trees, c, id, d);
  }

  method Merge(trees: Trees, c: Aggregation, id: nat, d: Draft) returns (b: Result<Aggregation, AggregateError>)
    requires d.tree in trees && Spot(d.tree, d.src) in c.active && Spot(d.tree, d.dst) in c.active
    requires var t := trees[d.tree];
             var source, accumulator := c.active[Spot(d.tree, d.src)].id, c.active[Spot(d.tree, d.dst)].id;
             && source.contributors == d.members && source.contributors !! accumulator.contributors
             && source !in c.consumed && accumulator !in c.consumed
             && StateId(t.root, t.contributors, source.position, d.dst, accumulator.version + 1, source.contributors
                        + accumulator.contributors) !in c.states
    ensures b == Ok(Reduced(trees, c, id, d))
    ensures b.Ok? ==> b.value.completed == c.completed + {id}
  {
    var t := trees[d.tree];
    var source, accumulator := c.active[Spot(d.tree, d.src)].id, c.active[Spot(d.tree, d.dst)].id;
    if source.contributors != d.members {
      return Err(SourceMismatch);
    }
    if source.contributors * accumulator.contributors != {} {
      return Err(Overlapping);
    }
    if source in c.consumed || accumulator in c.consumed {
      return Err(ConsumedTwice);
    }
    var active := c.active - {Spot(d.tree, d.src)};
    var produced := StateId(t.root, t.contributors, source.position, d.dst, accumulator.version + 1, source.contributors
                            + accumulator.contributors);
    var state := State(produced, Some(id));
    var states := Register(c, state);
    b := Ok(Aggregation(c.completed + {id}, active[Spot(d.tree, d.dst) := state], states.value, c.consumed
                        + {source, accumulator},
                        c.transitions[id := Transition(source, accumulator, produced)]));
  }

  lemma NothingReduced(trees: Trees, drafts: Drafts, sliceCount: nat)
    requires sliceCount > 0
    ensures Sound(trees, drafts, sliceCount, Aggregation({}, map[], map[], {}, map[]))
  {
    hide AtPosition, Aligned, Children;
    var a := Aggregation({}, map[], map[], {}, map[]);
    forall k, r | k in trees && r in trees[k].local ensures SpotOk(trees, sliceCount, a, k, r) {
      assert Sent(trees, {}, k) == {};
    }
  }

  /** Run every reduction, earliest ready first. */
  method ReduceAll(trees: Trees, drafts: Drafts, starts: map<nat, real>, sliceCount: nat)
    returns (r: Result<Aggregation, AggregateError>)
    requires sliceCount > 0 && ValidTrees(trees) && AreDrafts(trees, drafts) && WaitsAreLocal(trees, drafts)
    requires starts.Keys == drafts.Keys
    ensures r.Ok? ==> Sound(trees, drafts, sliceCount, r.value) && r.value.completed == drafts.Keys
    ensures r.Err? ==> TreeFault(trees, sliceCount, r.error)
  {
    hide *;
    var a := Aggregation({}, map[], map[], {}, map[]);
    NothingReduced(trees, drafts, sliceCount);
    var pending := drafts.Keys;
    while pending != {}
      invariant Sound(trees, drafts, sliceCount, a)
      invariant pending == drafts.Keys - a.completed && a.completed <= drafts.Keys
      decreases |pending|
    {
      var next := NextReady(drafts, starts, pending, a.completed);
      if next.None? {
        NeverStuck(trees, drafts, pending, a.completed);
        assert false;
      }
      var id := next.value;
      DraftIsReady(trees, drafts, a.completed, id);
      var b := Reduce(trees, drafts, sliceCount, a, id);
      if b.Err? {
        return b;
      }
      a := b.value;
      pending := pending - {id};
    }
    Everything(drafts.Keys, a.completed);
    return Ok(a);
  }

  lemma Everything(all: set<nat>, done: set<nat>)
    requires done <= all && all - done == {}
    ensures done == all
  {
    forall x | x in all ensures x in done {
      assert x !in all - done;
    }
  }

  lemma DraftIsReady(trees: Trees, drafts: Drafts, completed: set<nat>, id: nat)
    requires AreDrafts(trees, drafts) && id in drafts && id !in completed && drafts[id].waits <= completed
    ensures ReadyDraft(trees, drafts, completed, id)
  {
    DraftKnown(trees, drafts, id);
  }

  // ---------------------------------------------------------------- terminals

  /** The final state of a tree sits at its root and holds every contributor. */
  ghost predicate TerminalOk(trees: Trees, a: Aggregation, k: nat)
    requires k in trees
  {
    && Spot(k, trees[k].root) in a.active
    && OfSpot(trees[k], trees[k].root, a.active[Spot(k, trees[k].root)].id)
    && a.active[Spot(k, trees[k].root)].id.contributors == trees[k].contributors
  }

  lemma RootHoldsAll(trees: Trees, drafts: Drafts, sliceCount: nat, a: Aggregation, k: nat)
    requires sliceCount > 0 && ValidTrees(trees) && AreDrafts(trees, drafts) && Sound(trees, drafts, sliceCount, a)
    requires a.completed == drafts.Keys && k in trees && Spot(k, trees[k].root) in a.active
    ensures TerminalOk(trees, a, k)
  {
    hide *;
    SoundParts(trees, drafts, sliceCount, a);
    OneTree(trees, k);
    TreeRanks(trees[k]);
    CurrentAt(trees, sliceCount, a, k, trees[k].root);
    CurrentFacts(trees[k], sliceCount, a, Sent(trees, a.completed, k), trees[k].root, a.active[Spot(k, trees[k].root)]);
    AllAreSent(trees, drafts, k);
    AllSent(trees[k]);
    TerminalIs(trees, a, k);
  }

  lemma TerminalIs(trees: Trees, a: Aggregation, k: nat)
    requires k in trees && Spot(k, trees[k].root) in a.active
    requires OfSpot(trees[k], trees[k].root, a.active[Spot(k, trees[k].root)].id)
    requires a.active[Spot(k, trees[k].root)].id.contributors == trees[k].contributors
    ensures TerminalOk(trees, a, k)
  {
  }

  lemma AllAreSent(trees: Trees, drafts: Drafts, k: nat)
    requires ValidTrees(trees) && AreDrafts(trees, drafts) && k in trees
    ensures Sent(trees, drafts.Keys, k) == trees[k].parent.Keys && trees[k].root !in Sent(trees, drafts.Keys, k)
  {
    hide ValidTree, DraftReady;
    OneTree(trees, k);
    TreeRanks(trees[k]);
    RootHasNoParent(trees[k]);
    forall r | r in trees[k].ids ensures r in Sent(trees, drafts.Keys, k) {
      assert trees[k].ids[r] in drafts;
    }
  }

  lemma RootHasNoParent(t: Tree)
    requires ValidTree(t)
    ensures t.root !in t.parent
  {
  }

  /** Once all is reduced and every root is active, every rank was touched, so every tree is grounded. */
  lemma TouchedIsGrounded(trees: Trees, drafts: Drafts, sliceCount: nat, a: Aggregation, k: nat)
    requires sliceCount > 0 && ValidTrees(trees) && AreDrafts(trees, drafts) && Sound(trees, drafts, sliceCount, a)
    requires a.completed == drafts.Keys && k in trees && Spot(k, trees[k].root) in a.active
    ensures Grounded(trees[k], sliceCount)
  {
    hide *;
    SoundParts(trees, drafts, sliceCount, a);
    OneTree(trees, k);
    TreeRanks(trees[k]);
    RanksAre(trees[k]);
    AllAreSent(trees, drafts, k);
    forall r | r in trees[k].local ensures trees[k].local[r] != {} {
      if r == trees[k].root {
        CurrentAt(trees, sliceCount, a, k, r);
      } else {
        SentIsGrounded(trees, sliceCount, a, k, r);
      }
    }
    CurrentAt(trees, sliceCount, a, k, trees[k].root);
    CurrentFacts(trees[k], sliceCount, a, Sent(trees, a.completed, k), trees[k].root, a.active[Spot(k, trees[k].root)]);
    GroundedIs(trees[k], sliceCount, a.active[Spot(k, trees[k].root)].id.position);
  }

  lemma GroundedIs(t: Tree, sliceCount: nat, q: nat)
    requires sliceCount > 0 && AtPosition(t, sliceCount, q) && forall r :: r in t.local ==> t.local[r] != {}
    ensures Grounded(t, sliceCount)
  {
  }

  lemma SentIsGrounded(trees: Trees, sliceCount: nat, a: Aggregation, k: nat, r: nat)
    requires sliceCount > 0 && SpotsOk(trees, sliceCount, a) && k in trees && r in trees[k].local
    requires r in Sent(trees, a.completed, k)
    ensures trees[k].local[r] != {}
  {
    hide Current, Aligned;
    assert SpotOk(trees, sliceCount, a, k, r);
  }

  /** What the whole computation promises. */
  ghost predicate IsAggregation(trees: Trees, drafts: Drafts, sliceCount: nat, a: Aggregation)
    requires sliceCount > 0
  {
    && Sound(trees, drafts, sliceCount, a) && a.completed == drafts.Keys
    && forall k :: k in trees ==> TerminalOk(trees, a, k)
  }

  /** Aggregate states exist exactly when every rank has data of its own and every tree one position; then the states
      are consumed linearly and every root ends with all contributors.  No other error is reachable. */
  method RoutingAggregates(trees: Trees, drafts: Drafts, starts: map<nat, real>, sliceCount: nat)
    returns (r: Result<Aggregation, AggregateError>)
    requires sliceCount > 0 && ValidTrees(trees) && AreDrafts(trees, drafts) && WaitsAreLocal(trees, drafts)
    requires starts.Keys == drafts.Keys
    ensures r.Ok? <==> AllGrounded(trees, sliceCount)
    ensures r.Ok? ==> IsAggregation(trees, drafts, sliceCount, r.value)
    ensures r.Err? ==> TreeFault(trees, sliceCount, r.error)
  {
    hide *;
    r := ReduceAll(trees, drafts, starts, sliceCount);
    if r.Err? {
      FaultIsUngrounded(trees, sliceCount, r.error);
      return r;
    }
    var a := r.value;
    var rest := trees.Keys;
    while rest != {}
      invariant rest <= trees.Keys
      invariant Sound(trees, drafts, sliceCount, a) && a.completed == drafts.Keys
      invariant forall k :: k in trees && k !in rest ==> Spot(k, trees[k].root) in a.active
      decreases |rest|
    {
      HasMember(rest);
      var k :| k in rest;
      OneTree(trees, k);
      TreeRanks(trees[k]);
      AllAreSent(trees, drafts, k);
      var b := EnsureActive(trees, drafts, sliceCount, a, k, trees[k].root);
      if b.Err? {
        FaultIsUngrounded(trees, sliceCount, b.error);
        return b;
      }
      a := b.value;
      RootHoldsAll(trees, drafts, sliceCount, a, k);
      TerminalHoldsAll(trees, a, k);
      if a.active[Spot(k, trees[k].root)].id.contributors != trees[k].contributors {
        assert false;
      }
      rest := rest - {k};
    }
    Finished(trees, drafts, sliceCount, a);
    return Ok(a);
  }

  lemma TerminalHoldsAll(trees: Trees, a: Aggregation, k: nat)
    requires k in trees && TerminalOk(trees, a, k)
    ensures Spot(k, trees[k].root) in a.active
        && a.active[Spot(k, trees[k].root)].id.contributors == trees[k].contributors
  {
  }

  lemma Finished(trees: Trees, drafts: Drafts, sliceCount: nat, a: Aggregation)
    requires sliceCount > 0 && ValidTrees(trees) && AreDrafts(trees, drafts) && Sound(trees, drafts, sliceCount, a)
    requires a.completed == drafts.Keys && forall k :: k in trees ==> Spot(k, trees[k].root) in a.active
    ensures IsAggregation(trees, drafts, sliceCount, a) && AllGrounded(trees, sliceCount)
  {
    hide ValidTrees, AreDrafts, Sound, TerminalOk, Grounded;
    forall k | k in trees ensures TerminalOk(trees, a, k) && Grounded(trees[k], sliceCount) {
      RootHoldsAll(trees, drafts, sliceCount, a, k);
      TouchedIsGrounded(trees, drafts, sliceCount, a, k);
    }
  }
}
