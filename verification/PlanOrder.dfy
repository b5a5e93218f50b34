/** The order in which the nodes of a plan are composed (vericcl/composer/compose.py, _topological_nodes; the
    same worklist decides whether a plan is acyclic in vericcl/planner/model.py, PlanDAG._validate_acyclic).

    Node identifiers are numbers; the sorted list of ready nodes is a set from which the least is taken. */
module PlanOrder {
  import opened Basics
  import opened Graphs
  import opened Ordering
  import K = Kahn

  datatype Link = Link(producer: nat, consumer: nat)

  function ProducersOf(links: seq<Link>, consumer: nat): set<nat> {
    set l | l in links && l.consumer == consumer :: l.producer
  }

  function Waits(nodes: set<nat>, links: seq<Link>): Dependencies {
    map n | n in nodes :: ProducersOf(links, n)
  }

  predicate LinksAmong(nodes: set<nat>, links: seq<Link>) {
    forall i :: 0 <= i < |links| ==> links[i].producer in nodes && links[i].consumer in nodes
  }

  /** Every node comes after the nodes it waits for, and is the least that could have come next. */
  ghost predicate IsLeastFirst(deps: Dependencies, order: seq<nat>) {
    forall i :: 0 <= i < |order| ==> LeastAt(deps, Elements(order[..i]), order[i])
  }

  ghost predicate IsReady(deps: Dependencies, done: set<nat>, k: nat) {
    k in deps && k !in done && deps[k] <= done
  }

  ghost predicate LeastAt(deps: Dependencies, done: set<nat>, k: nat) {
    IsReady(deps, done, k) && forall x :: IsReady(deps, done, x) ==> k <= x
  }

  lemma SnocLeast(deps: Dependencies, order: seq<nat>, k: nat)
    requires IsLeastFirst(deps, order) && LeastAt(deps, Elements(order), k)
    ensures IsLeastFirst(deps, order + [k])
  {
    hide LeastAt, Elements;
    forall i | 0 <= i < |order + [k]| ensures LeastAt(deps, Elements((order + [k])[..i]), (order + [k])[i]) {
      assert (order + [k])[..i] == order[..i];
      if i == |order| {
        assert order[..i] == order;
      }
    }
  }

  /** No other order of the same length takes the least ready node first. */
  lemma {:induction false} LeastFirstIsUnique(deps: Dependencies, a: seq<nat>, b: seq<nat>, n: nat)
    requires IsLeastFirst(deps, a) && IsLeastFirst(deps, b) && n <= |a| && n <= |b|
    ensures a[..n] == b[..n]
  {
    if n > 0 {
      LeastFirstIsUnique(deps, a, b, n - 1);
      assert LeastAt(deps, Elements(a[..n - 1]), a[n - 1]) && LeastAt(deps, Elements(b[..n - 1]), b[n - 1]);
      assert a[..n] == a[..n - 1] + [a[n - 1]] && b[..n] == b[..n - 1] + [b[n - 1]];
    }
  }

  // ---------------------------------------------------------------- counting edges

  ghost predicate Linked(nodes: set<nat>, links: seq<Link>, successors: map<nat, set<nat>>, degrees: map<nat, int>) {
    && successors.Keys == nodes && degrees.Keys == nodes
    && (forall p, c :: p in nodes ==> (c in successors[p] <==> Link(p, c) in links))
    && forall c :: c in nodes ==> degrees[c] == |ProducersOf(links, c)|
  }

  lemma NextLink(links: seq<Link>, l: Link, c: nat)
    ensures ProducersOf(links + [l], c) == ProducersOf(links, c) + if l.consumer == c then {l.producer} else {}
  {
    var big, small := ProducersOf(links + [l], c), ProducersOf(links, c);
    forall p | p in small ensures p in big {
      assert Link(p, c) in links + [l];
    }
    assert l in links + [l];
  }

  /** A repeated link adds no producer. */
  lemma NextDegree(links: seq<Link>, l: Link, c: nat)
    ensures |ProducersOf(links + [l], c)| == |ProducersOf(links, c)| + if c == l.consumer && l !in links then 1 else 0
  {
    NextLink(links, l, c);
    ghost var small := ProducersOf(links, c);
    if c == l.consumer {
      assert l.producer in small <==> l in links by {
        assert l == Link(l.producer, c);
      }
      hide ProducersOf;
      if l in links {
        assert small + {l.producer} == small;
      }
    }
  }

  lemma LinkRepeated(nodes: set<nat>, links: seq<Link>, l: Link, successors: map<nat, set<nat>>, degrees: map<nat, int>)
    requires Linked(nodes, links, successors, degrees) && l.producer in nodes && l in links
    ensures l.consumer in successors[l.producer] && Linked(nodes, links + [l], successors, degrees)
  {
    forall c | c in nodes ensures degrees[c] == |ProducersOf(links + [l], c)| {
      NextDegree(links, l, c);
    }
    hide ProducersOf;
    assert forall x :: x in links + [l] <==> x in links;
    assert l == Link(l.producer, l.consumer);
  }

  lemma LinkCounted(nodes: set<nat>, links: seq<Link>, l: Link, successors: map<nat, set<nat>>, degrees: map<nat, int>)
    requires Linked(nodes, links, successors, degrees) && l.producer in nodes && l.consumer in nodes && l !in links
    ensures l.consumer !in successors[l.producer]
    ensures Linked(nodes, links + [l], successors[l.producer := successors[l.producer] + {l.consumer}],
                   degrees[l.consumer := degrees[l.consumer] + 1])
  {
    var more := degrees[l.consumer := degrees[l.consumer] + 1];
    forall c | c in nodes ensures more[c] == |ProducersOf(links + [l], c)| {
      NextDegree(links, l, c);
    }
    hide ProducersOf;
    assert forall x :: x in links + [l] <==> x in links || x == l;
    assert l == Link(l.producer, l.consumer);
    assert more.Keys == nodes;
    assert successors[l.producer := successors[l.producer] + {l.consumer}].Keys == nodes;
  }

  method CountLinks(nodes: set<nat>, links: seq<Link>) returns (successors: map<nat, set<nat>>, degrees: map<nat, int>)
    requires LinksAmong(nodes, links)
    ensures Linked(nodes, links, successors, degrees)
  {
    hide Linked;
    successors := map n | n in nodes :: {};
    degrees := map n | n in nodes :: 0;
    NoLinks(nodes, successors, degrees);
    for i := 0 to |links|
      invariant Linked(nodes, links[..i], successors, degrees)
    {
      var l := links[i];
      LinkedKeys(nodes, links[..i], successors, degrees);
      if l in links[..i] {
        LinkRepeated(nodes, links[..i], l, successors, degrees);
      } else {
        LinkCounted(nodes, links[..i], l, successors, degrees);
      }
      assert links[..i + 1] == links[..i] + [l];
      if l.consumer !in successors[l.producer] {
        successors := successors[l.producer := successors[l.producer] + {l.consumer}];
        degrees := degrees[l.consumer := degrees[l.consumer] + 1];
      }
    }
    assert links[..|links|] == links;
  }

  lemma NoLinks(nodes: set<nat>, successors: map<nat, set<nat>>, degrees: map<nat, int>)
    requires successors.Keys == nodes && degrees.Keys == nodes
    requires forall n :: n in nodes ==> successors[n] == {} && degrees[n] == 0
    ensures Linked(nodes, [], successors, degrees)
  {
    forall n ensures ProducersOf([], n) == {} {
    }
  }

  lemma LinkedKeys(nodes: set<nat>, links: seq<Link>, successors: map<nat, set<nat>>, degrees: map<nat, int>)
    requires Linked(nodes, links, successors, degrees)
    ensures successors.Keys == nodes && degrees.Keys == nodes
  {
  }

  lemma WaitsClosed(nodes: set<nat>, links: seq<Link>)
    requires LinksAmong(nodes, links)
    ensures Closed(Waits(nodes, links))
  {
  }

  lemma ProducerIsLinked(links: seq<Link>, p: nat, c: nat)
    ensures p in ProducersOf(links, c) <==> Link(p, c) in links
  {
    if p in ProducersOf(links, c) {
      var l :| l in links && l.consumer == c && l.producer == p;
      assert l == Link(p, c);
    }
    if Link(p, c) in links {
      assert Link(p, c).consumer == c && Link(p, c).producer == p;
    }
  }

  lemma LinkedIsFollowed(nodes: set<nat>, links: seq<Link>, successors: map<nat, set<nat>>, degrees: map<nat, int>,
                         p: nat)
    requires LinksAmong(nodes, links) && Linked(nodes, links, successors, degrees) && p in nodes
    ensures successors[p] == K.WaitingFor(Waits(nodes, links), nodes, p)
  {
    hide ProducersOf;
    var deps := Waits(nodes, links);
    forall c: nat ensures c in successors[p] <==> c in K.WaitingFor(deps, nodes, p) {
      ProducerIsLinked(links, p, c);
      if Link(p, c) in links {
        assert c in nodes;
      }
    }
  }

  lemma LinkedDegrees(nodes: set<nat>, links: seq<Link>, successors: map<nat, set<nat>>, degrees: map<nat, int>)
    requires Linked(nodes, links, successors, degrees)
    ensures K.Counts(Waits(nodes, links), {}, degrees)
  {
    LinkedKeys(nodes, links, successors, degrees);
    WaitsKeys(nodes, links);
    hide *;
    var deps := Waits(nodes, links);
    forall c | c in deps ensures degrees[c] == |deps[c] - {}| {
      LinkedDegree(nodes, links, successors, degrees, c);
    }
    AllCounted(deps, degrees);
  }

  lemma LinkedDegree(nodes: set<nat>, links: seq<Link>, successors: map<nat, set<nat>>, degrees: map<nat, int>, c: nat)
    requires Linked(nodes, links, successors, degrees) && c in nodes
    ensures c in degrees && c in Waits(nodes, links) && degrees[c] == |Waits(nodes, links)[c] - {}|
  {
    hide ProducersOf;
    assert ProducersOf(links, c) - {} == ProducersOf(links, c);
  }

  lemma AllCounted(deps: Dependencies, degrees: map<nat, int>)
    requires degrees.Keys == deps.Keys && forall c :: c in deps ==> degrees[c] == |deps[c] - {}|
    ensures K.Counts(deps, {}, degrees)
  {
  }

  /** The edge counters are the degrees and followers of the dependency relation. */
  lemma LinkedIsCounted(nodes: set<nat>, links: seq<Link>, successors: map<nat, set<nat>>, degrees: map<nat, int>)
    requires LinksAmong(nodes, links) && Linked(nodes, links, successors, degrees)
    ensures Closed(Waits(nodes, links)) && K.Counts(Waits(nodes, links), {}, degrees)
    ensures K.AreFollowers(successors, Waits(nodes, links))
  {
    WaitsClosed(nodes, links);
    LinkedDegrees(nodes, links, successors, degrees);
    LinkedKeys(nodes, links, successors, degrees);
    WaitsKeys(nodes, links);
    hide *;
    forall p | p in nodes ensures successors[p] == K.WaitingFor(Waits(nodes, links), nodes, p) {
      LinkedIsFollowed(nodes, links, successors, degrees, p);
    }
    AllFollowed(Waits(nodes, links), successors);
  }

  lemma AllFollowed(deps: Dependencies, successors: map<nat, set<nat>>)
    requires successors.Keys == deps.Keys
    requires forall p :: p in deps ==> successors[p] == K.WaitingFor(deps, deps.Keys, p)
    ensures K.AreFollowers(successors, deps)
  {
    hide K.WaitingFor;
  }

  lemma ReadyAtFirst(deps: Dependencies, degrees: map<nat, int>, ready: set<nat>)
    requires Closed(deps) && K.Counts(deps, {}, degrees)
    requires ready == set k | k in degrees && degrees[k] == 0
    ensures K.Worklist(deps, {}, ready)
  {
    forall k | k in deps ensures k in ready <==> deps[k] <= {} {
      K.NoneLeft(deps[k], {});
    }
  }

  lemma WorklistReady(deps: Dependencies, done: set<nat>, ready: set<nat>)
    requires Closed(deps) && K.Worklist(deps, done, ready)
    ensures forall k :: k in ready <==> IsReady(deps, done, k)
  {
  }

  lemma WorklistLeast(deps: Dependencies, done: set<nat>, ready: set<nat>, k: nat)
    requires Closed(deps) && K.Worklist(deps, done, ready)
    requires k in ready && forall x :: x in ready ==> k <= x
    ensures LeastAt(deps, done, k)
  {
    WorklistReady(deps, done, ready);
  }

  /** All nodes, each after its producers, exactly when the plan is acyclic. */
  method TopologicalNodes(nodes: set<nat>, links: seq<Link>) returns (order: seq<nat>)
    requires LinksAmong(nodes, links)
    ensures Closed(Waits(nodes, links)) && IsLeastFirst(Waits(nodes, links), order)
    ensures Elements(order) == nodes <==> Acyclic(Waits(nodes, links))
    ensures forall k :: !IsReady(Waits(nodes, links), Elements(order), k)
  {
    hide *;
    ghost var deps := Waits(nodes, links);
    var successors, degrees := CountLinks(nodes, links);
    LinkedIsCounted(nodes, links, successors, degrees);
    LinkedKeys(nodes, links, successors, degrees);
    WaitsKeys(nodes, links);
    var ready: set<nat> := set k | k in degrees && degrees[k] == 0;
    ReadyAtFirst(deps, degrees, ready);
    order := [];
    ghost var rank: map<nat, nat> := map[];
    ghost var done: set<nat> := {};
    ghost var n := 0;
    K.NoRanks(deps, rank);
    EmptyOrder(deps);
    assert rank.Keys == done;
    while ready != {}
      invariant n == |order| && done == rank.Keys
      invariant PartialRanks(deps, rank, n) && K.Worklist(deps, done, ready) && K.Counts(deps, done, degrees)
      invariant done == Elements(order) && done <= deps.Keys
      invariant IsLeastFirst(deps, order)
      decreases deps.Keys - done
    {
      var key: nat := Minimum(ready);
      K.FrontOfQueue(deps, successors, done, ready, degrees, key);
      var next, freed := K.Decrement(degrees, successors[key]);
      K.FinishOne(deps, rank, n, ready, degrees, key, next, freed);
      K.KeyAdded(rank, key, n);
      WorklistLeast(deps, done, ready, key);
      SnocLeast(deps, order, key);
      SnocElements(order, key);
      K.OneLess(deps.Keys, done, key);
      rank := rank[key := n];
      done := rank.Keys;
      order := order + [key];
      n := n + 1;
      ready := ready - {key} + freed;
      degrees := next;
    }
    K.Verdict(deps, rank, |order|);
    K.SubsetSize(rank.Keys, deps.Keys);
    WorklistReady(deps, rank.Keys, ready);
  }

  lemma WaitsKeys(nodes: set<nat>, links: seq<Link>)
    ensures Waits(nodes, links).Keys == nodes
  {
  }

  lemma EmptyOrder(deps: Dependencies)
    ensures IsLeastFirst(deps, []) && Elements([]) == {}
  {
  }
}
