/** Communication grouped by shared resources (vericcl/performance/simulation.py, _components). */
module Components {
  import opened Basics
  import opened CostModel

  ghost predicate Known(keys: seq<nat>, ops: Operations) {
    forall k :: k in keys ==> k in ops
  }

  /** Two operations compete for a resource. */
  ghost predicate Linked(ops: Operations, a: nat, b: nat) {
    a in ops && b in ops && ops[a].resources * ops[b].resources != {}
  }

  /** A walk through `keys` along competing operations. */
  ghost predicate Walk(ops: Operations, keys: set<nat>, p: seq<nat>) {
    && p != []
    && (forall i :: 0 <= i < |p| ==> p[i] in keys)
    && (forall i :: 0 <= i < |p| - 1 ==> Linked(ops, p[i], p[i + 1]))
  }

  ghost predicate Connected(ops: Operations, keys: set<nat>, a: nat, b: nat) {
    exists p :: Walk(ops, keys, p) && p[0] == a && p[|p| - 1] == b
  }

  /** A connected component: nonempty and closed under connection, nothing more. */
  ghost predicate IsComponent(ops: Operations, keys: set<nat>, group: set<nat>) {
    && group != {} && group <= keys
    && forall a, b :: a in group && b in keys ==> (b in group <==> Connected(ops, keys, a, b))
  }

  /** Every member after the first competes with an earlier one. */
  ghost predicate Grown(ops: Operations, group: seq<nat>) {
    group != [] && forall i :: 0 < i < |group| ==> CompetesEarlier(ops, group, i)
  }

  ghost predicate CompetesEarlier(ops: Operations, group: seq<nat>, i: nat)
    requires i < |group|
  {
    exists j :: 0 <= j < i && Linked(ops, group[j], group[i])
  }

  ghost predicate Apart(ops: Operations, xs: set<nat>, ys: set<nat>) {
    forall a, b :: a in xs && b in ys ==> !Linked(ops, a, b)
  }

  // ---------------------------------------------------------------- connectivity

  lemma WalkReversed(ops: Operations, keys: set<nat>, p: seq<nat>) returns (q: seq<nat>)
    requires Walk(ops, keys, p)
    ensures Walk(ops, keys, q) && q[0] == p[|p| - 1] && q[|q| - 1] == p[0]
  {
    q := seq(|p|, i requires 0 <= i < |p| => p[|p| - 1 - i]);
    forall i | 0 <= i < |q| - 1 ensures Linked(ops, q[i], q[i + 1]) {
      assert Linked(ops, p[|p| - 2 - i], p[|p| - 2 - i + 1]);
    }
  }

  lemma WalkJoined(ops: Operations, keys: set<nat>, p: seq<nat>, q: seq<nat>)
    requires Walk(ops, keys, p) && Walk(ops, keys, q) && p[|p| - 1] == q[0]
    ensures Walk(ops, keys, p + q[1..])
    ensures (p + q[1..])[0] == p[0] && (p + q[1..])[|p + q[1..]| - 1] == q[|q| - 1]
  {
    var w := p + q[1..];
    forall i | 0 <= i < |w| - 1 ensures Linked(ops, w[i], w[i + 1]) {
      if i < |p| - 1 {
        assert Linked(ops, p[i], p[i + 1]);
      } else {
        assert Linked(ops, q[i - |p| + 1], q[i - |p| + 2]);
      }
    }
  }

  /** Each member of a grown group is reached from its first member. */
  lemma {:induction false} ReachedFromFirst(ops: Operations, keys: set<nat>, group: seq<nat>, i: nat)
    requires Grown(ops, group) && Elements(group) <= keys && i < |group|
    ensures Connected(ops, keys, group[0], group[i])
    decreases i
  {
    assert group[i] in Elements(group);
    if i == 0 {
      assert Walk(ops, keys, [group[0]]);
    } else {
      assert CompetesEarlier(ops, group, i);
      var j :| 0 <= j < i && Linked(ops, group[j], group[i]);
      ReachedFromFirst(ops, keys, group, j);
      var p :| Walk(ops, keys, p) && p[0] == group[0] && p[|p| - 1] == group[j];
      assert group[j] in Elements(group);
      WalkJoined(ops, keys, p, [group[j], group[i]]);
    }
  }

  lemma {:induction false} WalkStaysInside(ops: Operations, keys: set<nat>, group: set<nat>, p: seq<nat>)
    requires Walk(ops, keys, p) && p[0] in group
    requires Apart(ops, group, keys - group)
    ensures p[|p| - 1] in group
    decreases |p|
  {
    if |p| > 1 {
      var init := p[..|p| - 1];
      assert Walk(ops, keys, init);
      WalkStaysInside(ops, keys, group, init);
      assert Linked(ops, p[|p| - 2], p[|p| - 2 + 1]);
    }
  }

  /** Growing by competition and stopping when nothing outside competes gives exactly a component. */
  lemma GrownAndApartIsComponent(ops: Operations, keys: set<nat>, group: seq<nat>)
    requires Grown(ops, group) && Elements(group) <= keys
    requires Apart(ops, Elements(group), keys - Elements(group))
    ensures IsComponent(ops, keys, Elements(group))
  {
    var g := Elements(group);
    assert group[0] in g;
    forall a, b | a in g && b in keys ensures b in g <==> Connected(ops, keys, a, b) {
      if b in g {
        var i :| 0 <= i < |group| && group[i] == a;
        var j :| 0 <= j < |group| && group[j] == b;
        ReachedFromFirst(ops, keys, group, i);
        ReachedFromFirst(ops, keys, group, j);
        var p :| Walk(ops, keys, p) && p[0] == group[0] && p[|p| - 1] == a;
        var q :| Walk(ops, keys, q) && q[0] == group[0] && q[|q| - 1] == b;
        var r := WalkReversed(ops, keys, p);
        WalkJoined(ops, keys, r, q);
      }
      if Connected(ops, keys, a, b) {
        var p :| Walk(ops, keys, p) && p[0] == a && p[|p| - 1] == b;
        WalkStaysInside(ops, keys, g, p);
      }
    }
  }

  // ---------------------------------------------------------------- the worklist

  lemma SnocResources(group: seq<nat>, ops: Operations, k: nat)
    requires Known(group, ops) && k in ops
    ensures ResourcesOf(group + [k], ops) == ResourcesOf(group, ops) + ops[k].resources
  {
    forall r ensures r in ResourcesOf(group + [k], ops) <==> r in ResourcesOf(group, ops) + ops[k].resources {
      if r in ops[k].resources {
        assert k in group + [k];
      }
    }
  }

  /** Competing with the group is sharing one of its resources. */
  lemma CompetesWithGroup(group: seq<nat>, ops: Operations, k: nat)
    requires Known(group, ops) && k in ops
    ensures ResourcesOf(group, ops) * ops[k].resources != {}
        <==> exists j :: 0 <= j < |group| && Linked(ops, group[j], k)
  {
    if ResourcesOf(group, ops) * ops[k].resources != {} {
      var r :| r in ResourcesOf(group, ops) && r in ops[k].resources;
      var a :| a in group && r in ops[a].resources;
      var j :| 0 <= j < |group| && group[j] == a;
      assert r in ops[group[j]].resources * ops[k].resources;
    }
    if exists j :: 0 <= j < |group| && Linked(ops, group[j], k) {
      var j :| 0 <= j < |group| && Linked(ops, group[j], k);
      var r :| r in ops[group[j]].resources * ops[k].resources;
      assert group[j] in group;
      assert r in ResourcesOf(group, ops) * ops[k].resources;
    }
  }

  lemma GrownSnoc(group: seq<nat>, ops: Operations, k: nat)
    requires Known(group, ops) && k in ops && Grown(ops, group)
    requires ResourcesOf(group, ops) * ops[k].resources != {}
    ensures Grown(ops, group + [k])
  {
    CompetesWithGroup(group, ops, k);
    var g := group + [k];
    forall i | 0 < i < |g| ensures CompetesEarlier(ops, g, i) {
      if i < |group| {
        assert CompetesEarlier(ops, group, i);
        var j :| 0 <= j < i && Linked(ops, group[j], group[i]);
        assert Linked(ops, g[j], g[i]);
      } else {
        var j :| 0 <= j < |group| && Linked(ops, group[j], k);
        assert Linked(ops, g[j], g[i]);
      }
    }
  }

  /** One scan over the remaining operations: those that compete join the group. */
  method Absorb(ops: Operations, group: seq<nat>, resources: set<nat>, remaining: seq<nat>)
    returns (group': seq<nat>, resources': set<nat>, remaining': seq<nat>)
    requires Known(group, ops) && Known(remaining, ops) && Grown(ops, group)
    requires resources == ResourcesOf(group, ops)
    requires Distinct(remaining) && Elements(group) !! Elements(remaining) && Distinct(group)
    ensures Known(group', ops) && Known(remaining', ops) && Grown(ops, group')
    ensures resources' == ResourcesOf(group', ops)
    ensures Distinct(group') && Distinct(remaining')
    ensures Elements(group') + Elements(remaining') == Elements(group) + Elements(remaining)
    ensures Elements(group') !! Elements(remaining')
    ensures |remaining'| <= |remaining|
    ensures |remaining'| == |remaining| ==>
              group' == group && remaining' == remaining
                && forall k :: k in remaining ==> resources * ops[k].resources == {}
  {
    group', resources', remaining' := group, resources, [];
    for i := 0 to |remaining|
      invariant Known(group', ops) && Known(remaining', ops) && Grown(ops, group')
      invariant resources' == ResourcesOf(group', ops)
      invariant Distinct(group') && Distinct(remaining')
      invariant Elements(group') + Elements(remaining') == Elements(group) + Elements(remaining[..i])
      invariant Elements(group') !! Elements(remaining')
      invariant Elements(group') !! Elements(remaining[i..])
      invariant Elements(remaining') <= Elements(remaining[..i])
      invariant |remaining'| <= i
      invariant |remaining'| == i ==>
                  group' == group && remaining' == remaining[..i]
                  && forall j :: 0 <= j < i ==> resources * ops[remaining[j]].resources == {}
    {
      var k := remaining[i];
      ScanSplit(remaining, i);
      if resources' * ops[k].resources != {} {
        GrownSnoc(group', ops, k);
        SnocResources(group', ops, k);
        SnocElements(group', k);
        group' := group' + [k];
        resources' := resources' + ops[k].resources;
      } else {
        SnocElements(remaining', k);
        remaining' := remaining' + [k];
      }
    }
    assert remaining[..|remaining|] == remaining;
  }

  lemma ScanSplit(s: seq<nat>, i: nat)
    requires Distinct(s) && i < |s|
    ensures Elements(s[..i + 1]) == Elements(s[..i]) + {s[i]} && s[i] !in Elements(s[..i])
    ensures Elements(s[i..]) == Elements(s[i + 1..]) + {s[i]} && s[i] !in Elements(s[i + 1..])
    ensures s[..i + 1] == s[..i] + [s[i]]
    ensures s[i] in s
  {
    assert s[..i + 1] == s[..i] + [s[i]];
    assert s[i..] == [s[i]] + s[i + 1..];
  }

  /** The groups are exactly the connected components of the given operations, each listed once. */
  ghost predicate AreComponents(ops: Operations, keys: set<nat>, groups: seq<seq<nat>>) {
    && (forall g :: 0 <= g < |groups| ==>
      Known(groups[g], ops) && Distinct(groups[g]) && IsComponent(ops, keys, Elements(groups[g])))
    && (forall g, h :: 0 <= g < h < |groups| ==> Elements(groups[g]) !! Elements(groups[h]))
    && Union(groups) == keys
  }

  ghost function Union(groups: seq<seq<nat>>): set<nat> {
    if groups == [] then {} else Union(groups[..|groups| - 1]) + Elements(groups[|groups| - 1])
  }

  lemma UnionSnoc(groups: seq<seq<nat>>, group: seq<nat>)
    ensures Union(groups + [group]) == Union(groups) + Elements(group)
  {
    assert (groups + [group])[..|groups|] == groups;
  }

  lemma {:induction false} InUnion(groups: seq<seq<nat>>, k: nat)
    ensures k in Union(groups) <==> exists g :: 0 <= g < |groups| && k in Elements(groups[g])
    decreases |groups|
  {
    if groups != [] {
      var init := groups[..|groups| - 1];
      InUnion(init, k);
      if k in Union(init) {
        var g :| 0 <= g < |init| && k in Elements(init[g]);
        assert groups[g] == init[g];
      }
      if exists g :: 0 <= g < |groups| && k in Elements(groups[g]) {
        var g :| 0 <= g < |groups| && k in Elements(groups[g]);
        if g < |init| {
          assert init[g] == groups[g];
        }
      }
    }
  }

  lemma NoCompetitorLeft(ops: Operations, group: seq<nat>, remaining: seq<nat>)
    requires Known(group, ops) && Known(remaining, ops)
    requires forall k :: k in remaining ==> ResourcesOf(group, ops) * ops[k].resources == {}
    ensures Apart(ops, Elements(group), Elements(remaining))
  {
    forall a, b | a in Elements(group) && b in Elements(remaining) ensures !Linked(ops, a, b) {
      CompetesWithGroup(group, ops, b);
      var j :| 0 <= j < |group| && group[j] == a;
      assert !Linked(ops, group[j], b);
    }
  }

  /** Grow one group from the head of the remaining operations until a scan adds nothing. */
  method NextGroup(ops: Operations, remaining: seq<nat>) returns (group: seq<nat>, rest: seq<nat>)
    requires remaining != [] && Known(remaining, ops) && Distinct(remaining)
    ensures Known(group, ops) && Known(rest, ops) && Distinct(group) && Distinct(rest) && Grown(ops, group)
    ensures Elements(group) + Elements(rest) == Elements(remaining) && Elements(group) !! Elements(rest)
    ensures Apart(ops, Elements(group), Elements(rest))
    ensures |rest| < |remaining|
  {
    var head := remaining[0];
    ScanSplit(remaining, 0);
    group, rest := [head], remaining[1..];
    SnocElements([], head);
    SnocResources([], ops, head);
    assert [] + [head] == [head];
    assert remaining[0..] == remaining;
    var resources := ops[head].resources;
    assert resources == ResourcesOf(group, ops);
    var changed := true;
    while changed
      invariant Known(group, ops) && Known(rest, ops) && Distinct(group) && Distinct(rest) && Grown(ops, group)
      invariant Elements(group) + Elements(rest) == Elements(remaining) && Elements(group) !! Elements(rest)
      invariant resources == ResourcesOf(group, ops)
      invariant !changed ==> forall k :: k in rest ==> resources * ops[k].resources == {}
      invariant |rest| < |remaining|
      decreases |rest|, if changed then 1 else 0
    {
      var before := |rest|;
      group, resources, rest := Absorb(ops, group, resources, rest);
      changed := |rest| < before;
    }
    NoCompetitorLeft(ops, group, rest);
  }

  lemma ApartFromAll(ops: Operations, keys: set<nat>, groups: seq<seq<nat>>, group: seq<nat>, rest: set<nat>)
    requires Union(groups) + Elements(group) + rest == keys
    requires Apart(ops, Elements(group), rest)
    requires forall g :: 0 <= g < |groups| ==> Apart(ops, Elements(groups[g]), keys - Elements(groups[g]))
    requires Union(groups) !! Elements(group) && Elements(group) <= keys
    ensures Apart(ops, Elements(group), keys - Elements(group))
  {
    forall a, b | a in Elements(group) && b in keys - Elements(group) ensures !Linked(ops, a, b) {
      if b in Union(groups) {
        InUnion(groups, b);
        var g :| 0 <= g < |groups| && b in Elements(groups[g]);
        InUnion(groups, a);
        assert a in keys - Elements(groups[g]);
        assert !Linked(ops, b, a);
      }
    }
  }

  method FindComponents(ops: Operations, keys: seq<nat>) returns (groups: seq<seq<nat>>)
    requires Known(keys, ops) && Distinct(keys)
    ensures AreComponents(ops, Elements(keys), groups)
  {
    groups := [];
    var remaining := keys;
    while remaining != []
      invariant Known(remaining, ops) && Distinct(remaining)
      invariant Union(groups) + Elements(remaining) == Elements(keys) && Union(groups) !! Elements(remaining)
      invariant forall g :: 0 <= g < |groups| ==>
          Known(groups[g], ops) && Distinct(groups[g]) && IsComponent(ops, Elements(keys), Elements(groups[g]))
      invariant forall g :: 0 <= g < |groups| ==> Apart(ops, Elements(groups[g]), Elements(keys) - Elements(groups[g]))
      invariant forall g, h :: 0 <= g < h < |groups| ==> Elements(groups[g]) !! Elements(groups[h])
      decreases |remaining|
    {
      var group, rest := NextGroup(ops, remaining);
      ApartFromAll(ops, Elements(keys), groups, group, Elements(rest));
      GrownAndApartIsComponent(ops, Elements(keys), group);
      UnionSnoc(groups, group);
      DisjointFromUnion(groups, group);
      groups := groups + [group];
      remaining := rest;
    }
  }

  lemma DisjointFromUnion(groups: seq<seq<nat>>, group: seq<nat>)
    requires Union(groups) !! Elements(group)
    ensures forall g :: 0 <= g < |groups| ==> Elements(groups[g]) !! Elements(group)
  {
    forall g, k | 0 <= g < |groups| && k in Elements(groups[g]) ensures k !in Elements(group) {
      InUnion(groups, k);
    }
  }
}
