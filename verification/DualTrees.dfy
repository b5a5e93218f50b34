/** Trees of an all-gather schedule seen as reduction trees (vericcl/planner/dual.py, DualTree and _validate_tree). */
module DualTrees {

  /** `parent` maps every rank but the root; `members` are the contributors below and including a rank;
      `ids` names the transfer between a rank and its parent; `local` are the contributors a rank holds itself. */
  datatype Tree = Tree(
    root: nat,
    contributors: set<nat>,
    parent: map<nat, nat>,
    members: map<nat, set<nat>>,
    ids: map<nat, nat>,
    local: map<nat, set<nat>>)

  ghost function Ranks(t: Tree): set<nat> {
    t.parent.Keys + {t.root}
  }

  ghost function Children(t: Tree, r: nat): set<nat> {
    set c | c in t.parent && t.parent[c] == r
  }

  ghost function Subtree(t: Tree, r: nat): set<nat> {
    if r in t.members && r != t.root then t.members[r] else t.contributors
  }

  /** Contributors that came or come through the given children. */
  ghost function Through(t: Tree, children: set<nat>): set<nat> {
    set c, m | c in children && c in t.members && m in t.members[c] :: m
  }

  /** Distance to the root. */
  ghost predicate Depths(t: Tree, depth: map<nat, nat>) {
    && Ranks(t) <= depth.Keys && depth[t.root] == 0
    && forall r :: r in t.parent ==> t.parent[r] in Ranks(t) && depth[r] == depth[t.parent[r]] + 1
  }

  ghost predicate Rooted(t: Tree) {
    exists depth :: Depths(t, depth)
  }

  ghost predicate ValidTree(t: Tree) {
    && t.root !in t.parent
    && t.members.Keys == t.parent.Keys && t.ids.Keys == t.parent.Keys
    && (forall a, b :: a in t.ids && b in t.ids && a != b ==> t.ids[a] != t.ids[b])
    && Rooted(t)
    && (forall r :: r in t.parent ==> t.members[r] <= Subtree(t, t.parent[r]))
    && (forall a, b :: a in t.parent && b in t.parent && a != b && t.parent[a] == t.parent[b] ==>
      t.members[a] !! t.members[b])
    && t.local.Keys == Ranks(t)
    && (forall r :: r in Ranks(t) ==> t.local[r] == Subtree(t, r) - Through(t, Children(t, r)))
  }

  ghost predicate AreLocals(t: Tree, local: map<nat, set<nat>>) {
    local.Keys == Ranks(t) && forall r :: r in Ranks(t) ==> local[r] == Subtree(t, r) - Through(t, Children(t, r))
  }

  lemma IsValid(t: Tree)
    requires t.root !in t.parent && t.members.Keys == t.parent.Keys && t.ids.Keys == t.parent.Keys && Rooted(t)
    requires forall a, b :: a in t.ids && b in t.ids && a != b ==> t.ids[a] != t.ids[b]
    requires forall r :: r in t.parent ==> t.members[r] <= Subtree(t, t.parent[r])
    requires forall a, b :: a in t.parent && b in t.parent && a != b && t.parent[a] == t.parent[b] ==>
        t.members[a] !! t.members[b]
    requires AreLocals(t, t.local)
    ensures ValidTree(t)
  {
    hide Rooted, Subtree, Through, Children, Ranks;
  }

  // ---------------------------------------------------------------- contributors are partitioned

  lemma {:induction false} SameDepthDisjoint(t: Tree, depth: map<nat, nat>, a: nat, b: nat)
    requires ValidTree(t) && Depths(t, depth) && a in Ranks(t) && b in Ranks(t) && a != b && depth[a] == depth[b]
    ensures Subtree(t, a) !! Subtree(t, b)
    decreases depth[a]
  {
    assert a in t.parent && b in t.parent;
    if t.parent[a] != t.parent[b] {
      SameDepthDisjoint(t, depth, t.parent[a], t.parent[b]);
    }
  }

  /** A contributor shared by a rank and a deeper one reaches the former through one of its children. */
  lemma {:induction false} SharedThroughChild(t: Tree, depth: map<nat, nat>, a: nat, b: nat, m: nat)
    requires ValidTree(t) && Depths(t, depth) && a in Ranks(t) && b in Ranks(t) && depth[a] < depth[b]
    requires m in Subtree(t, a) && m in Subtree(t, b)
    ensures m in Through(t, Children(t, a))
    decreases depth[b]
  {
    assert b in t.parent;
    var p := t.parent[b];
    if depth[p] == depth[a] {
      if p != a {
        SameDepthDisjoint(t, depth, a, p);
      }
      assert b in Children(t, a);
    } else {
      SharedThroughChild(t, depth, a, p, m);
    }
  }

  /** No contributor has two source ranks. */
  lemma LocalsDisjoint(t: Tree, a: nat, b: nat)
    requires ValidTree(t) && a in Ranks(t) && b in Ranks(t) && a != b
    ensures t.local[a] !! t.local[b]
  {
    var depth :| Depths(t, depth);
    forall m | m in t.local[a] && m in t.local[b] ensures false {
      if depth[a] < depth[b] {
        SharedThroughChild(t, depth, a, b, m);
      } else if depth[b] < depth[a] {
        SharedThroughChild(t, depth, b, a, m);
      } else {
        SameDepthDisjoint(t, depth, a, b);
      }
    }
  }

  lemma {:induction false} DepthBound(depth: map<nat, nat>, ranks: set<nat>) returns (bound: nat)
    requires ranks <= depth.Keys
    ensures forall r :: r in ranks ==> depth[r] <= bound
    decreases ranks
  {
    bound := 0;
    if ranks != {} {
      var r :| r in ranks;
      bound := DepthBound(depth, ranks - {r});
      assert ranks == ranks - {r} + {r};
      bound := if bound < depth[r] then depth[r] else bound;
    }
  }

  /** Consecutive ranks are child and parent. */
  ghost predicate Ascent(t: Tree, p: seq<nat>) {
    && p != []
    && (forall i :: 0 <= i < |p| ==> p[i] in Ranks(t))
    && forall i :: 0 <= i < |p| - 1 ==> p[i] in t.parent && t.parent[p[i]] == p[i + 1]
  }

  ghost predicate Below(t: Tree, low: nat, high: nat) {
    exists p :: Ascent(t, p) && p[0] == low && p[|p| - 1] == high
  }

  lemma BelowItself(t: Tree, r: nat)
    requires r in Ranks(t)
    ensures Below(t, r, r)
  {
    assert Ascent(t, [r]);
  }

  lemma BelowParent(t: Tree, low: nat, c: nat)
    requires Below(t, low, c) && c in t.parent && t.parent[c] in Ranks(t)
    ensures Below(t, low, t.parent[c])
  {
    var p :| Ascent(t, p) && p[0] == low && p[|p| - 1] == c;
    var q := p + [t.parent[c]];
    assert Ascent(t, q) && q[0] == low;
  }

  lemma ChildWith(t: Tree, depth: map<nat, nat>, r: nat, m: nat) returns (c: nat)
    requires ValidTree(t) && Depths(t, depth) && r in Ranks(t) && m in Subtree(t, r) && m !in t.local[r]
    ensures c in t.parent && t.parent[c] == r && c in Ranks(t) && m in Subtree(t, c) && depth[c] == depth[r] + 1
  {
    c :| c in Children(t, r) && c in t.members && m in t.members[c];
  }

  lemma TreeRanks(t: Tree)
    requires ValidTree(t)
    ensures t.local.Keys == Ranks(t) && t.root in t.local && t.ids.Keys == t.parent.Keys == t.members.Keys
    ensures forall c :: c in t.parent ==> t.parent[c] in Ranks(t) && c in Ranks(t) && t.parent[c] != c
  {
    var depth :| Depths(t, depth);
  }

  lemma {:induction false} OwnerBelow(t: Tree, depth: map<nat, nat>, bound: nat, r: nat, m: nat) returns (owner: nat)
    requires ValidTree(t) && Depths(t, depth) && Ranks(t) <= depth.Keys
    requires (forall x :: x in Ranks(t) ==> depth[x] <= bound)
    requires r in Ranks(t) && m in Subtree(t, r)
    ensures owner in Ranks(t) && owner in t.local && m in t.local[owner] && Below(t, owner, r)
    decreases bound - depth[r]
  {
    hide *;
    TreeRanks(t);
    if m in t.local[r] {
      owner := r;
      BelowItself(t, r);
    } else {
      var c := ChildWith(t, depth, r, m);
      owner := OwnerBelow(t, depth, bound, c, m);
      BelowParent(t, owner, c);
    }
  }

  /** Every contributor of a subtree is held by exactly one rank of it. */
  lemma OwnerExists(t: Tree, r: nat, m: nat) returns (owner: nat)
    requires ValidTree(t) && r in Ranks(t) && m in Subtree(t, r)
    ensures owner in Ranks(t) && m in t.local[owner] && Below(t, owner, r)
    ensures forall x :: x in Ranks(t) && m in t.local[x] ==> x == owner
  {
    var depth :| Depths(t, depth);
    var bound := DepthBound(depth, Ranks(t));
    owner := OwnerBelow(t, depth, bound, r, m);
    forall x | x in Ranks(t) && m in t.local[x] ensures x == owner {
      if x != owner {
        LocalsDisjoint(t, x, owner);
      }
    }
  }

  /** Sets held by ranks that are disjoint and together hold every contributor. */
  ghost predicate Partition(held: map<nat, set<nat>>, all: set<nat>) {
    && (forall a, b :: a in held && b in held && a != b ==> held[a] !! held[b])
    && (forall a :: a in held ==> held[a] <= all)
    && (forall m :: m in all ==> exists a :: a in held && m in held[a])
  }

  lemma {:induction false} SubtreeWithin(t: Tree, depth: map<nat, nat>, r: nat)
    requires ValidTree(t) && Depths(t, depth) && r in Ranks(t)
    ensures Subtree(t, r) <= t.contributors
    decreases depth[r]
  {
    if r in t.parent {
      SubtreeWithin(t, depth, t.parent[r]);
    }
  }

  /** The local members partition the contributors. */
  lemma LocalsPartition(t: Tree)
    requires ValidTree(t)
    ensures Partition(t.local, t.contributors)
  {
    var depth :| Depths(t, depth);
    forall a, b | a in t.local && b in t.local && a != b ensures t.local[a] !! t.local[b] {
      LocalsDisjoint(t, a, b);
    }
    forall a | a in t.local ensures t.local[a] <= t.contributors {
      SubtreeWithin(t, depth, a);
    }
    forall m | m in t.contributors ensures exists a :: a in t.local && m in t.local[a] {
      assert Subtree(t, t.root) == t.contributors;
      var owner := OwnerExists(t, t.root, m);
    }
  }

  // ---------------------------------------------------------------- live states

  /** What a rank holds once the given ranks have sent: its own members and those of its finished children. */
  ghost function Cover(t: Tree, sent: set<nat>, r: nat): set<nat>
    requires r in t.local
  {
    t.local[r] + Through(t, Children(t, r) * sent)
  }

  /** The live aggregates: every rank that has not sent yet. */
  ghost function Live(t: Tree, sent: set<nat>): map<nat, set<nat>> {
    map r | r in t.local && r !in sent :: Cover(t, sent, r)
  }

  /** Ranks that have sent have received from all their children before. */
  ghost predicate BottomUp(t: Tree, sent: set<nat>) {
    && sent <= t.parent.Keys
    && forall r :: r in sent ==> Children(t, r) <= sent
  }

  /** A rank whose children have all sent holds its whole subtree. */
  lemma FullCover(t: Tree, sent: set<nat>, r: nat)
    requires ValidTree(t) && r in Ranks(t) && Children(t, r) <= sent
    ensures Cover(t, sent, r) == Subtree(t, r)
  {
    assert Children(t, r) * sent == Children(t, r);
    forall m | m in Through(t, Children(t, r)) ensures m in Subtree(t, r) {
      var c :| c in Children(t, r) && c in t.members && m in t.members[c];
    }
  }

  lemma ThroughOneMore(t: Tree, some: set<nat>, c: nat)
    requires c in t.members
    ensures Through(t, some + {c}) == Through(t, some) + t.members[c]
  {
  }

  lemma ReceivedAfter(t: Tree, sent: set<nat>, c: nat, r: nat)
    requires c in t.parent && c !in sent
    ensures Children(t, r) * (sent + {c})
            == if r == t.parent[c] then Children(t, r) * sent + {c} else Children(t, r) * sent
  {
    assert c in Children(t, r) <==> r == t.parent[c];
  }

  lemma CoverIs(t: Tree, sent: set<nat>, r: nat)
    requires r in t.local
    ensures Cover(t, sent, r) == t.local[r] + Through(t, Children(t, r) * sent)
  {
  }

  lemma CoverAfter(t: Tree, sent: set<nat>, c: nat, r: nat)
    requires ValidTree(t) && r in Ranks(t) && c in t.parent && c !in sent
    ensures r in t.local && c in t.members
    ensures Cover(t, sent + {c}, r) == if r == t.parent[c] then Cover(t, sent, r) + t.members[c] else Cover(t, sent, r)
  {
    hide *;
    TreeRanks(t);
    CoverIs(t, sent, r);
    CoverIs(t, sent + {c}, r);
    ReceivedAfter(t, sent, c, r);
    ThroughOneMore(t, Children(t, r) * sent, c);
  }

  /** Sending merges two live aggregates into one and keeps the contributors partitioned. */
  lemma SendKeepsPartition(t: Tree, sent: set<nat>, c: nat)
    requires ValidTree(t) && BottomUp(t, sent) && Partition(Live(t, sent), t.contributors)
    requires c in t.parent && c !in sent && Children(t, c) <= sent && t.parent[c] !in sent
    ensures BottomUp(t, sent + {c})
    ensures Cover(t, sent, c) == t.members[c]
    ensures Cover(t, sent, c) !! Cover(t, sent, t.parent[c])
    ensures Partition(Live(t, sent + {c}), t.contributors)
  {
    hide ValidTree, Cover;
    var p := t.parent[c];
    SendFacts(t, sent, c);
    var before, after := Live(t, sent), Live(t, sent + {c});
    assert before[c] !! before[p];
    forall r | r in after ensures after[r] == if r == p then before[p] + before[c] else before[r] {
      CoverAfter(t, sent, c, r);
    }
    Merged(before, after, c, p, t.contributors);
  }

  lemma SendFacts(t: Tree, sent: set<nat>, c: nat)
    requires ValidTree(t) && BottomUp(t, sent)
    requires c in t.parent && c !in sent && Children(t, c) <= sent
    ensures c in t.members && t.parent[c] in t.local && c in t.local && t.local.Keys == Ranks(t) && t.parent[c] != c
    ensures Cover(t, sent, c) == t.members[c]
  {
    var depth :| Depths(t, depth);
    FullCover(t, sent, c);
  }

  lemma Merged(before: map<nat, set<nat>>, after: map<nat, set<nat>>, c: nat, p: nat, all: set<nat>)
    requires Partition(before, all) && c in before && p in before && c != p
    requires after.Keys == before.Keys - {c}
    requires forall r :: r in after ==> after[r] == if r == p then before[p] + before[c] else before[r]
    ensures Partition(after, all)
  {
    forall m | m in all ensures exists a :: a in after && m in after[a] {
      var a :| a in before && m in before[a];
      if a == c {
        assert m in after[p];
      } else {
        assert m in after[a];
      }
    }
  }

  lemma NothingSent(t: Tree)
    requires ValidTree(t)
    ensures BottomUp(t, {}) && Partition(Live(t, {}), t.contributors) && Live(t, {}) == t.local
  {
    hide ValidTree, Partition;
    LocalsPartition(t);
    forall r | r in t.local ensures Cover(t, {}, r) == t.local[r] {
      assert Children(t, r) * {} == {};
    }
    assert Live(t, {}) == t.local;
  }

  /** Once every rank has sent, the root holds every contributor. */
  lemma AllSent(t: Tree)
    requires ValidTree(t)
    ensures Cover(t, t.parent.Keys, t.root) == t.contributors
  {
    FullCover(t, t.parent.Keys, t.root);
  }

  /** The parent of a rank that has not sent has not sent either. */
  lemma ParentWaits(t: Tree, sent: set<nat>, c: nat)
    requires ValidTree(t) && BottomUp(t, sent) && c in t.parent && c !in sent
    ensures t.parent[c] !in sent
  {
    assert c in Children(t, t.parent[c]);
  }

  lemma {:induction false} HighestSent(depth: map<nat, nat>, sent: set<nat>) returns (top: nat)
    requires sent != {} && sent <= depth.Keys
    ensures top in sent && forall r :: r in sent ==> depth[top] <= depth[r]
    decreases sent
  {
    top :| top in sent;
    var rest := sent - {top};
    assert sent == rest + {top};
    if rest != {} {
      var other := HighestSent(depth, rest);
      if depth[other] < depth[top] {
        top := other;
      }
    }
  }

  lemma ChildDepth(t: Tree, depth: map<nat, nat>, r: nat, c: nat)
    requires Depths(t, depth) && c in Children(t, r)
    ensures c in depth && r in depth && depth[c] == depth[r] + 1
  {
  }

  lemma DropHighest(t: Tree, depth: map<nat, nat>, sent: set<nat>, top: nat)
    requires ValidTree(t) && Depths(t, depth) && BottomUp(t, sent) && top in sent
    requires forall r :: r in sent ==> r in depth && depth[top] <= depth[r]
    ensures top in t.parent && BottomUp(t, sent - {top}) && Children(t, top) <= sent - {top}
        && t.parent[top] !in sent - {top}
  {
    hide Depths, ValidTree, Children;
    forall r | r in sent ensures Children(t, r) <= sent - {top} {
      assert Children(t, r) <= sent;
      forall c | c in Children(t, r) ensures c != top {
        ChildDepth(t, depth, r, c);
      }
    }
    ParentIsHigher(t, depth, top);
  }

  lemma ParentIsHigher(t: Tree, depth: map<nat, nat>, r: nat)
    requires Depths(t, depth) && r in t.parent
    ensures r in depth && t.parent[r] in depth && depth[r] == depth[t.parent[r]] + 1
  {
  }

  /** At every point of any bottom-up order the live aggregates are disjoint and together hold every contributor. */
  lemma {:induction false} LiveIsPartition(t: Tree, sent: set<nat>)
    requires ValidTree(t) && BottomUp(t, sent)
    ensures Partition(Live(t, sent), t.contributors)
    decreases sent
  {
    hide *;
    if sent == {} {
      NothingSent(t);
    } else {
      var depth := SomeDepths(t);
      SentKnown(t, depth, sent);
      var top := HighestSent(depth, sent);
      DropHighest(t, depth, sent, top);
      LiveIsPartition(t, sent - {top});
      SendKeepsPartition(t, sent - {top}, top);
      assert sent - {top} + {top} == sent;
    }
  }

  lemma SomeDepths(t: Tree) returns (depth: map<nat, nat>)
    requires ValidTree(t)
    ensures Depths(t, depth)
  {
    depth :| Depths(t, depth);
  }

  lemma SentKnown(t: Tree, depth: map<nat, nat>, sent: set<nat>)
    requires BottomUp(t, sent) && Depths(t, depth)
    ensures sent <= depth.Keys
  {
  }
}
