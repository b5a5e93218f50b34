/** Dependency relations on numbered nodes: acyclicity, and what a stuck worklist proves. */
module Graphs {

  /** Node k waits for every node in deps[k]. */
  type Dependencies = map<nat, set<nat>>

  ghost predicate Closed(deps: Dependencies) {
    forall k :: k in deps ==> deps[k] <= deps.Keys
  }

  ghost predicate Ranks(deps: Dependencies, rank: map<nat, nat>)
    requires Closed(deps)
  {
    && deps.Keys <= rank.Keys
    && forall k, d :: k in deps && d in deps[k] ==> rank[d] < rank[k]
  }

  ghost predicate Acyclic(deps: Dependencies)
    requires Closed(deps)
  {
    exists rank :: Ranks(deps, rank)
  }

  /** Ranks below n for finished nodes, which wait only for finished nodes of lower rank. */
  ghost predicate PartialRanks(deps: Dependencies, rank: map<nat, nat>, n: nat)
    requires Closed(deps)
  {
    && rank.Keys <= deps.Keys
    && (forall k :: k in rank ==> rank[k] < n && deps[k] <= rank.Keys)
    && (forall k, d :: k in rank && d in deps[k] ==> rank[d] < rank[k])
  }

  lemma RankNext(deps: Dependencies, rank: map<nat, nat>, n: nat, key: nat)
    requires Closed(deps) && PartialRanks(deps, rank, n)
    requires key in deps && key !in rank && deps[key] <= rank.Keys
    ensures PartialRanks(deps, rank[key := n], n + 1)
  {
  }

  ghost function LowestRanked(stuck: set<nat>, rank: map<nat, nat>): (k: nat)
    requires stuck != {} && stuck <= rank.Keys
    ensures k in stuck && forall d :: d in stuck ==> rank[k] <= rank[d]
  {
    var x :| x in stuck;
    var rest := stuck - {x};
    if rest == {} then
      assert stuck == {x};
      x
    else
      var y := LowestRanked(rest, rank);
      assert forall d :: d in stuck ==> d == x || d in rest;
      if rank[x] <= rank[y] then x else y
  }

  lemma LowestWaitsOutside(deps: Dependencies, rank: map<nat, nat>, stuck: set<nat>) returns (k: nat)
    requires Closed(deps) && Ranks(deps, rank)
    requires stuck != {} && stuck <= deps.Keys
    ensures k in stuck && deps[k] * stuck == {}
  {
    k := LowestRanked(stuck, rank);
    forall d | d in deps[k] ensures d !in stuck {
      assert rank[d] < rank[k];
    }
  }

  /** If every node of a nonempty set waits for another node of the set, there is a cycle. */
  lemma StuckProvesCyclic(deps: Dependencies, stuck: set<nat>)
    requires Closed(deps)
    requires stuck != {} && stuck <= deps.Keys
    requires forall k :: k in stuck ==> deps[k] * stuck != {}
    ensures !Acyclic(deps)
  {
    if Acyclic(deps) {
      var rank :| Ranks(deps, rank);
      var k := LowestWaitsOutside(deps, rank, stuck);
    }
  }

  /** In an acyclic relation some unfinished node waits only for finished ones. */
  lemma SomeNodeReady(deps: Dependencies, finished: set<nat>) returns (k: nat)
    requires Closed(deps) && Acyclic(deps)
    requires deps.Keys - finished != {}
    ensures k in deps && k !in finished && deps[k] <= finished
  {
    var stuck := deps.Keys - finished;
    if forall k :: k in stuck ==> deps[k] * stuck != {} {
      StuckProvesCyclic(deps, stuck);
    }
    k :| k in stuck && deps[k] * stuck == {};
    forall d | d in deps[k] ensures d in finished {
      assert d !in deps[k] * stuck;
    }
  }

  /** Something above every rank. */
  lemma RankBound(rank: map<nat, nat>, keys: set<nat>) returns (bound: nat)
    requires keys <= rank.Keys
    ensures forall k :: k in keys ==> rank[k] < bound
  {
    bound := 0;
    var rest := keys;
    while rest != {}
      invariant rest <= keys
      invariant forall k :: k in keys && k !in rest ==> rank[k] < bound
      decreases rest
    {
      var k :| k in rest;
      if rank[k] >= bound {
        bound := rank[k] + 1;
      }
      rest := rest - {k};
    }
  }

  /** An acyclic relation stays acyclic when an acyclic layer that may also wait for it is put on top; nodes the
      layer shares with it keep their own dependencies. */
  lemma LayerAcyclic(base: Dependencies, layer: Dependencies, all: Dependencies)
    requires Closed(base) && Acyclic(base) && Closed(layer) && Acyclic(layer)
    requires all.Keys == base.Keys + layer.Keys
    requires forall k :: k in base ==> all[k] == base[k]
    requires forall k :: k in layer && k !in base ==> all[k] <= layer[k] + base.Keys
    ensures Closed(all) && Acyclic(all)
  {
    forall k | k in all ensures all[k] <= all.Keys {
    }
    var low :| Ranks(base, low);
    var high :| Ranks(layer, high);
    var bound := RankBound(low, base.Keys);
    var rank := map k | k in all :: if k in base then low[k] else bound + high[k];
    forall k, d | k in all && d in all[k] ensures rank[d] < rank[k] {
    }
    assert Ranks(all, rank);
  }
}
