/** Accepting a group of virtual transfers as one reduction tree (vericcl/planner/dual.py, _validate_tree). */
module TreeCheck {
  import opened Basics
  import opened DualTrees

  /** A transfer of the all-gather schedule, from parent to child, with the contributors that come back through it. */
  datatype Edge = Edge(src: nat, dst: nat, members: set<nat>)

  type Edges = map<nat, Edge>

  datatype TreeError =
    | DuplicateEdge | EntersRoot | MultipleParents | Disconnected | CyclicTree | NotNested
    | MultipleSources | Unaccounted

  /** Every edge is recorded at its child. */
  ghost predicate Recorded(edges: Edges, ids: set<nat>, t: Tree) {
    && ids <= edges.Keys
    && t.members.Keys == t.parent.Keys && t.ids.Keys == t.parent.Keys
    && (forall id :: id in ids ==> edges[id].dst in t.parent && t.ids[edges[id].dst] == id)
    && (forall r :: r in t.parent ==> t.ids[r] in ids && edges[t.ids[r]] == Edge(t.parent[r], r, t.members[r]))
  }

  /** The tree whose edges are these transfers. */
  ghost predicate TreeOf(root: nat, contributors: set<nat>, edges: Edges, t: Tree) {
    t.root == root && t.contributors == contributors && Recorded(edges, edges.Keys, t) && ValidTree(t)
  }

  /** Some valid tree has exactly these edges. */
  ghost predicate FormsTree(root: nat, contributors: set<nat>, edges: Edges) {
    exists t :: TreeOf(root, contributors, edges, t)
  }

  // ---------------------------------------------------------------- parents

  lemma EntersRootIsNoTree(root: nat, contributors: set<nat>, edges: Edges, id: nat)
    requires id in edges && edges[id].dst == root
    ensures !FormsTree(root, contributors, edges)
  {
    hide ValidTree;
    forall t ensures !TreeOf(root, contributors, edges, t) {
      if TreeOf(root, contributors, edges, t) {
        RootHasNone(t);
      }
    }
  }

  lemma RootHasNone(t: Tree)
    requires ValidTree(t)
    ensures t.root !in t.parent
  {
  }

  lemma SameChildIsNoTree(root: nat, contributors: set<nat>, edges: Edges, a: nat, b: nat)
    requires a in edges && b in edges && a != b && edges[a].dst == edges[b].dst
    ensures !FormsTree(root, contributors, edges)
  {
    hide ValidTree;
    forall t ensures !TreeOf(root, contributors, edges, t) {
    }
  }

  lemma RecordedNext(edges: Edges, ids: set<nat>, t: Tree, id: nat)
    requires Recorded(edges, ids, t) && id in edges && id !in ids && edges[id].dst !in t.parent
    ensures Recorded(edges, ids + {id}, WithEdge(t, edges[id], id))
    ensures var u := WithEdge(t, edges[id], id);
            u.root == t.root && u.contributors == t.contributors && u.parent.Keys == t.parent.Keys + {edges[id].dst}
  {
  }

  lemma RecordedAt(edges: Edges, ids: set<nat>, t: Tree, r: nat)
    requires Recorded(edges, ids, t) && r in t.parent
    ensures r in t.ids && t.ids[r] in ids && t.ids[r] in edges && edges[t.ids[r]].dst == r
  {
  }

  function WithEdge(t: Tree, e: Edge, id: nat): Tree {
    t.(parent := t.parent[e.dst := e.src], members := t.members[e.dst := e.members], ids := t.ids[e.dst := id])
  }

  ghost predicate Building(root: nat, contributors: set<nat>, edges: Edges, done: set<nat>, t: Tree) {
    Recorded(edges, done, t) && t.root == root && t.contributors == contributors && root !in t.parent
  }

  lemma BuildingParts(root: nat, contributors: set<nat>, edges: Edges, done: set<nat>, t: Tree)
    requires Building(root, contributors, edges, done, t)
    ensures Recorded(edges, done, t) && t.root == root && t.contributors == contributors && root !in t.parent
  {
  }

  /** One transfer: its child must be new and must not be the root. */
  method AddEdge(root: nat, ghost contributors: set<nat>, edges: Edges, ghost done: set<nat>, t: Tree, id: nat)
    returns (r: Result<Tree, TreeError>)
    requires Building(root, contributors, edges, done, t) && id in edges && id !in done
    ensures r.Ok? ==> Building(root, contributors, edges, done + {id}, r.value)
    ensures r.Err? ==> !FormsTree(root, contributors, edges) && r.error in {DuplicateEdge, EntersRoot, MultipleParents}
  {
    hide FormsTree, Recorded;
    var e := edges[id];
    if e.dst in t.parent {
      RecordedAt(edges, done, t, e.dst);
      SameChildIsNoTree(root, contributors, edges, t.ids[e.dst], id);
      if t.parent[e.dst] == e.src {
        return Err(DuplicateEdge);
      }
    }
    if e.dst == root {
      EntersRootIsNoTree(root, contributors, edges, id);
      return Err(EntersRoot);
    }
    if e.dst in t.parent {
      return Err(MultipleParents);
    }
    RecordedNext(edges, done, t, id);
    return Ok(WithEdge(t, e, id));
  }

  method Parents(root: nat, contributors: set<nat>, edges: Edges) returns (r: Result<Tree, TreeError>)
    ensures r.Ok? ==> Building(root, contributors, edges, edges.Keys, r.value)
    ensures r.Err? ==> !FormsTree(root, contributors, edges) && r.error in {DuplicateEdge, EntersRoot, MultipleParents}
  {
    hide *;
    var t := Tree(root, contributors, map[], map[], map[], map[]);
    ghost var done: set<nat> := {};
    var rest := edges.Keys;
    StartBuilding(root, contributors, edges, t);
    while rest != {}
      invariant done + rest == edges.Keys && done !! rest
      invariant Building(root, contributors, edges, done, t)
      decreases rest
    {
      HasMember(rest);
      var id :| id in rest;
      r := AddEdge(root, contributors, edges, done, t, id);
      if r.Err? {
        return;
      }
      t := r.value;
      done, rest := done + {id}, rest - {id};
    }
    assert done == edges.Keys;
    return Ok(t);
  }

  lemma StartBuilding(root: nat, contributors: set<nat>, edges: Edges, t: Tree)
    requires t == Tree(root, contributors, map[], map[], map[], map[])
    ensures Building(root, contributors, edges, {}, t)
  {
  }

  // ---------------------------------------------------------------- reaching the root

  /** n hops lead from r to the root. */
  ghost predicate Hops(t: Tree, r: nat, n: nat)
    decreases n
  {
    if n == 0 then r == t.root else r != t.root && r in t.parent && Hops(t, t.parent[r], n - 1)
  }

  lemma {:induction false} HopsUnique(t: Tree, r: nat, m: nat, n: nat)
    requires Hops(t, r, m) && Hops(t, r, n)
    ensures m == n
    decreases m
  {
    if m > 0 && n > 0 {
      HopsUnique(t, t.parent[r], m - 1, n - 1);
    }
  }

  /** If the tree has depths, what the walk has visited lies deeper than where it stands. */
  ghost predicate Descending(t: Tree, visited: set<nat>, current: nat) {
    forall depth :: Depths(t, depth) ==>
      current in Ranks(t) && forall v :: v in visited ==> v in depth && (v == current || depth[v] > depth[current])
  }

  lemma ParentDepths(t: Tree, r: nat)
    ensures forall depth :: Depths(t, depth) && r in t.parent ==>
        r in depth && t.parent[r] in depth && depth[r] == depth[t.parent[r]] + 1
  {
  }

  lemma StuckIsUnrooted(t: Tree, visited: set<nat>, current: nat)
    requires Descending(t, visited, current) && current != t.root
    requires current !in t.parent || t.parent[current] in visited
    ensures !Rooted(t)
  {
    hide Depths;
    ParentDepths(t, current);
  }

  lemma DescendingNext(t: Tree, visited: set<nat>, current: nat)
    requires Descending(t, visited, current) && current in t.parent
    ensures Descending(t, visited + {t.parent[current]}, t.parent[current])
  {
    forall depth | Depths(t, depth)
      ensures t.parent[current] in Ranks(t)
      ensures forall v :: v in visited + {t.parent[current]} ==>
          v in depth && (v == t.parent[current] || depth[v] > depth[t.parent[current]])
    {
      assert depth[current] == depth[t.parent[current]] + 1;
    }
  }

  lemma DescendingStart(t: Tree, r: nat)
    requires r in t.parent
    ensures Descending(t, {r}, r)
  {
  }

  lemma LessToVisit(ranks: set<nat>, visited: set<nat>, r: nat)
    requires r in ranks && r !in visited
    ensures |ranks - (visited + {r})| < |ranks - visited|
  {
    assert ranks - visited == (ranks - (visited + {r})) + {r};
  }

  /** Walk from a rank to the root. */
  method WalkToRoot(t: Tree, rank: nat) returns (r: Result<bool, TreeError>, ghost hops: nat)
    requires rank in t.parent
    ensures r.Ok? ==> Hops(t, rank, hops)
    ensures r.Err? ==> !Rooted(t) && r.error in {Disconnected, CyclicTree}
  {
    hide Depths, Descending, Rooted;
    var visited, current := {rank}, rank;
    ghost var steps := 0;
    ghost var ranks := t.parent.Keys + {t.root};
    DescendingStart(t, rank);
    while current != t.root
      invariant Descending(t, visited, current) && current in visited
      invariant forall n: nat :: Hops(t, current, n) ==> Hops(t, rank, n + steps)
      decreases |ranks - visited|, if current in t.parent then 1 else 0
    {
      if current !in t.parent {
        StuckIsUnrooted(t, visited, current);
        return Err(Disconnected), 0;
      }
      var next := t.parent[current];
      if next in visited {
        StuckIsUnrooted(t, visited, current);
        return Err(CyclicTree), 0;
      }
      DescendingNext(t, visited, current);
      forall n: nat | Hops(t, next, n) ensures Hops(t, rank, n + (steps + 1)) {
        assert Hops(t, current, n + 1);
      }
      if next in ranks {
        LessToVisit(ranks, visited, next);
      } else {
        SameToVisit(ranks, visited, next);
      }
      visited, current, steps := visited + {next}, next, steps + 1;
    }
    assert Hops(t, current, 0);
    return Ok(true), steps;
  }

  lemma SameToVisit(ranks: set<nat>, visited: set<nat>, r: nat)
    requires r !in ranks
    ensures ranks - (visited + {r}) == ranks - visited
  {
  }

  lemma HopsAreDepths(t: Tree, hops: map<nat, nat>)
    requires t.root !in t.parent && hops.Keys == t.parent.Keys && forall r :: r in hops ==> Hops(t, r, hops[r])
    ensures Rooted(t)
  {
    var depth := hops[t.root := 0];
    forall r | r in t.parent ensures t.parent[r] in Ranks(t) && depth[r] == depth[t.parent[r]] + 1 {
      assert Hops(t, t.parent[r], hops[r] - 1);
      if t.parent[r] != t.root {
        assert hops[r] - 1 > 0;
        HopsUnique(t, t.parent[r], hops[r] - 1, hops[t.parent[r]]);
      } else {
        HopsUnique(t, t.root, hops[r] - 1, 0);
      }
    }
    assert Depths(t, depth);
  }

  method CheckRooted(t: Tree) returns (r: Result<bool, TreeError>)
    requires t.root !in t.parent
    ensures r.Ok? <==> Rooted(t)
    ensures r.Err? ==> r.error in {Disconnected, CyclicTree}
  {
    hide Rooted, Hops;
    ghost var hops: map<nat, nat> := map[];
    var rest := t.parent.Keys;
    while rest != {}
      invariant rest <= t.parent.Keys && hops.Keys == t.parent.Keys - rest
      invariant forall x :: x in hops ==> Hops(t, x, hops[x])
      decreases rest
    {
      HasMember(rest);
      var rank :| rank in rest;
      ghost var n: nat;
      r, n := WalkToRoot(t, rank);
      if r.Err? {
        return;
      }
      hops := hops[rank := n];
      rest := rest - {rank};
    }
    HopsAreDepths(t, hops);
    return Ok(true);
  }

  // ---------------------------------------------------------------- nested members

  ghost predicate NestedAt(t: Tree, r: nat) {
    && (forall c :: c in Children(t, r) ==> c in t.members && t.members[c] <= Subtree(t, r))
    && (forall a, b :: a in Children(t, r) && b in Children(t, r) && a != b ==>
      a in t.members && b in t.members && t.members[a] !! t.members[b])
  }

  function SubtreeOf(t: Tree, r: nat): set<nat> {
    if r in t.members && r != t.root then t.members[r] else t.contributors
  }

  /** The children seen so far are nested and disjoint. */
  ghost predicate Nested(t: Tree, some: set<nat>, subtree: set<nat>, union: set<nat>)
  {
    && some <= t.members.Keys && union == Through(t, some)
    && (forall c :: c in some ==> t.members[c] <= subtree)
    && (forall a, b :: a in some && b in some && a != b ==> t.members[a] !! t.members[b])
  }

  lemma NestedNext(t: Tree, some: set<nat>, subtree: set<nat>, union: set<nat>, c: nat)
    requires Nested(t, some, subtree, union) && c in t.members && c !in some
    requires union * t.members[c] == {} && t.members[c] <= subtree
    ensures Nested(t, some + {c}, subtree, union + t.members[c])
  {
    hide Through;
    DisjointFromUnion(t, some, c, union);
    ThroughOneMore(t, some, c);
  }

  lemma NestedAll(t: Tree, r: nat, subtree: set<nat>, union: set<nat>)
    requires subtree == Subtree(t, r) && Nested(t, Children(t, r), subtree, union)
    ensures NestedAt(t, r) && union == Through(t, Children(t, r))
  {
  }

  lemma NestedUnion(t: Tree, some: set<nat>, subtree: set<nat>, union: set<nat>)
    requires Nested(t, some, subtree, union)
    ensures union == Through(t, some)
  {
  }

  lemma ChildrenAre(t: Tree, r: nat)
    ensures Children(t, r) == (set c | c in t.parent && t.parent[c] == r) && SubtreeOf(t, r) == Subtree(t, r)
    ensures Children(t, r) <= t.parent.Keys
  {
  }

  /** The children of one rank, checked one after the other; what is left is local. */
  method LocalMembers(t: Tree, r: nat) returns (local: Result<set<nat>, TreeError>)
    requires t.members.Keys == t.parent.Keys
    ensures local.Ok? <==> NestedAt(t, r)
    ensures local.Ok? ==> local.value == Subtree(t, r) - Through(t, Children(t, r))
    ensures local.Err? ==> local.error == NotNested
  {
    hide *;
    var subtree := SubtreeOf(t, r);
    var union: set<nat> := {};
    var rest := set c | c in t.parent && t.parent[c] == r;
    ChildrenAre(t, r);
    ghost var some: set<nat> := {};
    NoneNested(t, subtree);
    while rest != {}
      invariant some + rest == Children(t, r) && some !! rest
      invariant Nested(t, some, subtree, union)
      decreases rest
    {
      HasMember(rest);
      var c :| c in rest;
      if union * t.members[c] != {} || !(t.members[c] <= subtree) {
        NestedUnion(t, some, subtree, union);
        NotNestedHere(t, r, some, c);
        return Err(NotNested);
      }
      NestedNext(t, some, subtree, union, c);
      union := union + t.members[c];
      some, rest := some + {c}, rest - {c};
    }
    assert some == Children(t, r);
    NestedAll(t, r, subtree, union);
    return Ok(subtree - union);
  }

  lemma NoneNested(t: Tree, subtree: set<nat>)
    ensures Nested(t, {}, subtree, {})
  {
  }

  lemma DisjointFromUnion(t: Tree, some: set<nat>, c: nat, union: set<nat>)
    requires union == Through(t, some) && c in t.members && union * t.members[c] == {} && some <= t.members.Keys
    ensures forall a :: a in some ==> t.members[a] !! t.members[c]
  {
    forall a, m | a in some && m in t.members[a] ensures m !in t.members[c] {
      assert m in Through(t, some);
      assert m !in union * t.members[c];
    }
  }

  lemma NotNestedHere(t: Tree, r: nat, some: set<nat>, c: nat)
    requires t.members.Keys == t.parent.Keys && some <= Children(t, r) && c in Children(t, r) && c !in some
    requires Through(t, some) * t.members[c] != {} || !(t.members[c] <= Subtree(t, r))
    ensures !NestedAt(t, r)
  {
    if Through(t, some) * t.members[c] != {} {
      var m :| m in Through(t, some) * t.members[c];
      var a :| a in some && a in t.members && m in t.members[a];
      assert m in t.members[a] * t.members[c];
    }
  }

  ghost predicate LocalAt(t: Tree, r: nat, local: set<nat>) {
    NestedAt(t, r) && local == Subtree(t, r) - Through(t, Children(t, r))
  }

  ghost predicate LocalsFound(t: Tree, found: map<nat, set<nat>>) {
    forall r :: r in found ==> LocalAt(t, r, found[r])
  }

  lemma LocalFound(t: Tree, found: map<nat, set<nat>>, r: nat, local: set<nat>)
    requires LocalsFound(t, found) && NestedAt(t, r) && local == Subtree(t, r) - Through(t, Children(t, r))
    ensures LocalsFound(t, found[r := local]) && found[r := local].Keys == found.Keys + {r}
  {
    hide NestedAt, Subtree, Through, Children;
  }

  ghost predicate AllNested(t: Tree) {
    forall r :: r in Ranks(t) ==> NestedAt(t, r)
  }

  method AllLocalMembers(t: Tree) returns (local: Result<map<nat, set<nat>>, TreeError>)
    requires t.members.Keys == t.parent.Keys
    ensures local.Ok? <==> AllNested(t)
    ensures local.Ok? ==> AreLocals(t, local.value)
    ensures local.Err? ==> local.error == NotNested
  {
    hide *;
    var found: map<nat, set<nat>> := map[];
    RanksIs(t);
    NoneFound(t);
    ghost var done: set<nat> := {};
    var rest := t.parent.Keys + {t.root};
    while rest != {}
      invariant done + rest == Ranks(t) && done !! rest && found.Keys == done
      invariant LocalsFound(t, found)
      decreases rest
    {
      HasMember(rest);
      var r :| r in rest;
      var one := LocalMembers(t, r);
      if one.Err? {
        NotAllNested(t, r);
        return Err(one.error);
      }
      LocalFound(t, found, r, one.value);
      found := found[r := one.value];
      done, rest := done + {r}, rest - {r};
    }
    assert done == Ranks(t);
    AllLocal(t, found);
    return Ok(found);
  }

  lemma NoneFound(t: Tree)
    ensures LocalsFound(t, map[])
  {
  }

  lemma RanksIs(t: Tree)
    ensures Ranks(t) == t.parent.Keys + {t.root}
  {
  }

  lemma NotAllNested(t: Tree, r: nat)
    requires r in Ranks(t) && !NestedAt(t, r)
    ensures !AllNested(t)
  {
  }

  lemma AllLocal(t: Tree, found: map<nat, set<nat>>)
    requires LocalsFound(t, found) && found.Keys == Ranks(t)
    ensures AllNested(t) && AreLocals(t, found)
  {
    hide NestedAt, Subtree, Through, Children, Ranks;
    assert forall r :: r in found ==> LocalAt(t, r, found[r]);
  }

  // ---------------------------------------------------------------- the whole check

  lemma IdsDiffer(edges: Edges, t: Tree)
    requires Recorded(edges, edges.Keys, t)
    ensures forall a, b :: a in t.ids && b in t.ids && a != b ==> t.ids[a] != t.ids[b]
  {
    forall a, b | a in t.ids && b in t.ids && a != b ensures t.ids[a] != t.ids[b] {
      assert edges[t.ids[a]].dst == a && edges[t.ids[b]].dst == b;
    }
  }

  lemma ChildrenNested(t: Tree)
    requires t.members.Keys == t.parent.Keys && Rooted(t)
    ensures (forall r :: r in Ranks(t) ==> NestedAt(t, r))
            <==> (forall r :: r in t.parent ==> t.members[r] <= Subtree(t, t.parent[r]))
                 && (forall a, b :: a in t.parent && b in t.parent && a != b && t.parent[a] == t.parent[b] ==>
                   t.members[a] !! t.members[b])
  {
    hide Subtree;
    var depth := AnyDepths(t);
    if forall r :: r in Ranks(t) ==> NestedAt(t, r) {
      forall r | r in t.parent ensures t.members[r] <= Subtree(t, t.parent[r]) {
        assert NestedAt(t, t.parent[r]) && r in Children(t, t.parent[r]);
      }
      forall a, b | a in t.parent && b in t.parent && a != b && t.parent[a] == t.parent[b]
        ensures t.members[a] !! t.members[b]
      {
        assert NestedAt(t, t.parent[a]) && a in Children(t, t.parent[a]) && b in Children(t, t.parent[a]);
      }
    }
  }

  lemma AnyDepths(t: Tree) returns (depth: map<nat, nat>)
    requires Rooted(t)
    ensures Depths(t, depth)
  {
    depth :| Depths(t, depth);
  }

  /** Trees with the same edges differ at most in what is recorded as local. */
  lemma EdgesDetermine(edges: Edges, t: Tree, u: Tree)
    requires Recorded(edges, edges.Keys, t) && Recorded(edges, edges.Keys, u)
    ensures t.parent == u.parent && t.members == u.members && t.ids == u.ids
  {
    forall r ensures r in t.parent <==> r in u.parent {
      if r in t.parent {
        assert edges[t.ids[r]].dst == r;
      }
      if r in u.parent {
        assert edges[u.ids[r]].dst == r;
      }
    }
    forall r | r in t.parent
      ensures t.parent[r] == u.parent[r] && t.members[r] == u.members[r] && t.ids[r] == u.ids[r]
    {
      assert edges[t.ids[r]].dst == r && edges[u.ids[r]].dst == r;
    }
  }

  lemma SameShape(t: Tree, u: Tree)
    requires t.root == u.root && t.contributors == u.contributors && t.parent == u.parent && t.members == u.members
    ensures Rooted(u) ==> Rooted(t)
    ensures forall r :: NestedAt(u, r) ==> NestedAt(t, r)
    ensures Ranks(t) == Ranks(u)
  {
    if Rooted(u) {
      var depth :| Depths(u, depth);
      assert Depths(t, depth);
    }
    forall r | NestedAt(u, r) ensures NestedAt(t, r) {
      assert Children(t, r) == Children(u, r);
      assert Subtree(t, r) == Subtree(u, r);
    }
  }

  /** The recorded edges form a tree exactly when they reach the root and the members are nested. */
  lemma FormsTreeIff(root: nat, contributors: set<nat>, edges: Edges, t: Tree, local: map<nat, set<nat>>)
    requires Recorded(edges, edges.Keys, t) && t.root == root && t.contributors == contributors && root !in t.parent
    ensures FormsTree(root, contributors, edges) ==> Rooted(t) && AllNested(t)
    ensures Rooted(t) && AllNested(t) && AreLocals(t, local) ==> TreeOf(root, contributors, edges, t.(local := local))
  {
    hide *;
    if FormsTree(root, contributors, edges) {
      var u := SomeTree(root, contributors, edges);
      EdgesDetermine(edges, t, u);
      SameShape(t, u);
      TreeIsNested(u);
      SameNesting(t, u);
    }
    if Rooted(t) && AllNested(t) && AreLocals(t, local) {
      BuildsTree(root, contributors, edges, t, local);
    }
  }

  lemma SomeTree(root: nat, contributors: set<nat>, edges: Edges) returns (u: Tree)
    requires FormsTree(root, contributors, edges)
    ensures Recorded(edges, edges.Keys, u) && u.root == root && u.contributors == contributors && ValidTree(u)
  {
    u :| TreeOf(root, contributors, edges, u);
  }

  lemma TreeIsNested(u: Tree)
    requires ValidTree(u)
    ensures Rooted(u) && AllNested(u)
  {
    hide Subtree, Depths, Through;
    ChildrenNested(u);
  }

  lemma SameNesting(t: Tree, u: Tree)
    requires AllNested(u) && Ranks(t) == Ranks(u) && forall r :: NestedAt(u, r) ==> NestedAt(t, r)
    ensures AllNested(t)
  {
    hide NestedAt, Ranks;
  }

  lemma BuildsTree(root: nat, contributors: set<nat>, edges: Edges, t: Tree, local: map<nat, set<nat>>)
    requires Recorded(edges, edges.Keys, t) && t.root == root && t.contributors == contributors && root !in t.parent
    requires Rooted(t) && AllNested(t) && AreLocals(t, local)
    ensures TreeOf(root, contributors, edges, t.(local := local))
  {
    hide *;
    var u := t.(local := local);
    IdsDiffer(edges, t);
    RecordedMembers(edges, t);
    SameShape(u, t);
    SameNesting(u, t);
    EachNested(u);
    ChildrenNested(u);
    LocalsAre(t, local);
    RecordedAlike(edges, t, local);
    IsValid(u);
    IsTreeOf(root, contributors, edges, u);
  }

  lemma EachNested(t: Tree)
    requires AllNested(t)
    ensures forall r :: r in Ranks(t) ==> NestedAt(t, r)
  {
    hide NestedAt, Ranks;
  }

  lemma RecordedAlike(edges: Edges, t: Tree, local: map<nat, set<nat>>)
    requires Recorded(edges, edges.Keys, t)
    ensures Recorded(edges, edges.Keys, t.(local := local))
  {
  }

  lemma IsTreeOf(root: nat, contributors: set<nat>, edges: Edges, t: Tree)
    requires t.root == root && t.contributors == contributors && Recorded(edges, edges.Keys, t) && ValidTree(t)
    ensures TreeOf(root, contributors, edges, t)
  {
    hide Recorded, ValidTree;
  }

  lemma RecordedMembers(edges: Edges, t: Tree)
    requires Recorded(edges, edges.Keys, t)
    ensures t.members.Keys == t.parent.Keys && t.ids.Keys == t.parent.Keys
  {
  }

  lemma LocalsAre(t: Tree, local: map<nat, set<nat>>)
    requires AreLocals(t, local)
    ensures AreLocals(t.(local := local), local)
  {
    var u := t.(local := local);
    forall r | r in Ranks(u) ensures u.local[r] == Subtree(u, r) - Through(u, Children(u, r)) {
      assert Children(t, r) == Children(u, r);
      assert Through(t, Children(t, r)) == Through(u, Children(u, r));
    }
  }

  /** Sources of the members of the ranks seen so far. */
  ghost predicate OwnersOf(t: Tree, done: set<nat>, owners: map<nat, nat>)
    requires done <= t.local.Keys
  {
    && (forall m :: m in owners ==> owners[m] in done && m in t.local[owners[m]])
    && (forall x, m :: x in done && m in t.local[x] ==> m in owners)
  }

  lemma OwnersNext(t: Tree, done: set<nat>, owners: map<nat, nat>, rank: nat)
    requires Partition(t.local, t.contributors) && done <= t.local.Keys && OwnersOf(t, done, owners) && rank in t.local
    requires rank !in done
    ensures owners.Keys * t.local[rank] == {}
    ensures OwnersOf(t, done + {rank}, owners + map m | m in t.local[rank] :: rank)
  {
    forall m | m in owners ensures m !in t.local[rank] {
      assert t.local[owners[m]] !! t.local[rank];
    }
    hide Partition;
    var more := owners + map m | m in t.local[rank] :: rank;
    forall m | m in more ensures more[m] in done + {rank} && m in t.local[more[m]] {
      if m !in t.local[rank] {
        assert m in owners;
      }
    }
    forall x, m | x in done + {rank} && m in t.local[x] ensures m in more {
      if x != rank {
        assert m in owners;
      }
    }
  }

  method OwnRank(t: Tree, ghost done: set<nat>, owners: map<nat, nat>, rank: nat) returns (more: map<nat, nat>)
    requires Partition(t.local, t.contributors) && done <= t.local.Keys && OwnersOf(t, done, owners) && rank in t.local
    requires rank !in done
    ensures OwnersOf(t, done + {rank}, more)
  {
    hide *;
    OwnersNext(t, done, owners, rank);
    if owners.Keys * t.local[rank] != {} {
      assert false;
    }
    more := owners + map m | m in t.local[rank] :: rank;
  }

  lemma OwnersComplete(t: Tree, owners: map<nat, nat>)
    requires Partition(t.local, t.contributors) && OwnersOf(t, t.local.Keys, owners)
    ensures owners.Keys == t.contributors
    ensures forall m :: m in owners ==> owners[m] in t.local && m in t.local[owners[m]]
  {
    forall m | m in t.contributors ensures m in owners {
      var x :| x in t.local && m in t.local[x];
    }
  }

  lemma NoOwners(t: Tree)
    ensures OwnersOf(t, {}, map[])
  {
  }

  /** Record the single source of every contributor: in a tree no contributor has two, and none is missing. */
  method Owners(t: Tree) returns (r: Result<map<nat, nat>, TreeError>)
    requires ValidTree(t)
    ensures r.Ok? && r.value.Keys == t.contributors
    ensures r.Ok? ==> forall m :: m in r.value ==> r.value[m] in t.local && m in t.local[r.value[m]]
  {
    hide *;
    LocalsPartition(t);
    NoOwners(t);
    var owners: map<nat, nat> := map[];
    ghost var done: set<nat> := {};
    var rest := t.local.Keys;
    while rest != {}
      invariant done + rest == t.local.Keys && done !! rest
      invariant OwnersOf(t, done, owners)
      decreases rest
    {
      HasMember(rest);
      var rank :| rank in rest;
      owners := OwnRank(t, done, owners, rank);
      done, rest := done + {rank}, rest - {rank};
    }
    assert done == t.local.Keys;
    OwnersComplete(t, owners);
    if owners.Keys != t.contributors {
      assert false;
    }
    return Ok(owners);
  }

  /** Accepts exactly the groups of transfers that are the edges of a valid reduction tree. */
  method ValidateTree(root: nat, contributors: set<nat>, edges: Edges) returns (r: Result<Tree, TreeError>)
    ensures r.Ok? <==> FormsTree(root, contributors, edges)
    ensures r.Ok? ==> TreeOf(root, contributors, edges, r.value)
    ensures r.Err? ==> r.error != MultipleSources && r.error != Unaccounted
  {
    hide *;
    var parents := Parents(root, contributors, edges);
    if parents.Err? {
      return parents;
    }
    var t := parents.value;
    BuildingParts(root, contributors, edges, edges.Keys, t);
    FormsTreeIff(root, contributors, edges, t, map[]);
    RecordedMembers(edges, t);
    var rooted := CheckRooted(t);
    if rooted.Err? {
      return Err(rooted.error);
    }
    var local := AllLocalMembers(t);
    if local.Err? {
      return Err(local.error);
    }
    FormsTreeIff(root, contributors, edges, t, local.value);
    var tree := t.(local := local.value);
    TreeFound(root, contributors, edges, tree);
    var owners := Owners(tree);
    return Ok(tree);
  }

  lemma TreeFound(root: nat, contributors: set<nat>, edges: Edges, t: Tree)
    requires TreeOf(root, contributors, edges, t)
    ensures ValidTree(t) && FormsTree(root, contributors, edges)
  {
  }
}
