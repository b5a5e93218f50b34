/** Degree counting over a dependency relation (vericcl/performance/simulation.py, _acyclic).

    The deque of ready nodes and the follower lists are sets here: the order in which they are served
    does not reach the result. */
module Kahn {
  import opened Graphs

  type Followers = map<nat, set<nat>>

  ghost function WaitingFor(deps: Dependencies, seen: set<nat>, k: nat): set<nat> {
    set f | f in seen && f in deps && k in deps[f]
  }

  /** followers[k] is exactly the set of nodes, among those seen, that wait for k. */
  ghost predicate Registered(followers: Followers, deps: Dependencies, seen: set<nat>) {
    && followers.Keys == deps.Keys
    && forall k :: k in deps ==> followers[k] == WaitingFor(deps, seen, k)
  }

  ghost predicate AreFollowers(followers: Followers, deps: Dependencies) {
    Registered(followers, deps, deps.Keys)
  }

  method Register(followers: Followers, deps: Dependencies, ghost seen: set<nat>, id: nat) returns (next: Followers)
    requires Closed(deps) && id in deps && id !in seen
    requires Registered(followers, deps, seen)
    ensures Registered(next, deps, seen + {id})
  {
    next := followers;
    var rest := deps[id];
    while rest != {}
      invariant rest <= deps[id]
      invariant next.Keys == deps.Keys
      invariant forall k :: k in deps ==>
          next[k] == if k in deps[id] && k !in rest then followers[k] + {id} else followers[k]
      decreases |rest|
    {
      var predecessor :| predecessor in rest;
      next := next[predecessor := next[predecessor] + {id}];
      rest := rest - {predecessor};
    }
    hide WaitingFor;
    forall k | k in deps ensures next[k] == WaitingFor(deps, seen + {id}, k) {
      OneMoreWaiting(deps, seen, id, k);
    }
  }

  lemma OneMoreWaiting(deps: Dependencies, seen: set<nat>, id: nat, k: nat)
    requires id in deps
    ensures WaitingFor(deps, seen + {id}, k)
        == if k in deps[id] then WaitingFor(deps, seen, k) + {id} else WaitingFor(deps, seen, k)
  {
  }

  method FollowersOf(deps: Dependencies) returns (followers: Followers)
    requires Closed(deps)
    ensures AreFollowers(followers, deps)
  {
    followers := map k | k in deps :: {};
    var rest := deps.Keys;
    assert deps.Keys - rest == {};
    assert forall k :: WaitingFor(deps, {}, k) == {};
    while rest != {}
      invariant rest <= deps.Keys
      invariant Registered(followers, deps, deps.Keys - rest)
      decreases |rest|
    {
      var id :| id in rest;
      followers := Register(followers, deps, deps.Keys - rest, id);
      assert deps.Keys - (rest - {id}) == deps.Keys - rest + {id};
      rest := rest - {id};
    }
    assert deps.Keys - rest == deps.Keys;
  }

  ghost predicate Counts(deps: Dependencies, done: set<nat>, remaining: map<nat, int>) {
    && remaining.Keys == deps.Keys
    && forall k :: k in deps ==> remaining[k] == |deps[k] - done|
  }

  lemma NoneLeft(s: set<nat>, done: set<nat>)
    ensures |s - done| == 0 <==> s <= done
  {
    if s <= done {
      assert s - done == {};
    } else {
      var x :| x in s && x !in done;
      assert x in s - done;
    }
  }

  lemma OneFewer(s: set<nat>, done: set<nat>, key: nat)
    requires key !in done
    ensures |s - (done + {key})| == if key in s then |s - done| - 1 else |s - done|
  {
    if key in s {
      assert s - done == (s - (done + {key})) + {key};
    } else {
      assert s - done == s - (done + {key});
    }
  }

  /** Finishing a node takes one wait off each follower. */
  lemma CountsAfter(deps: Dependencies, done: set<nat>, remaining: map<nat, int>, key: nat, next: map<nat, int>)
    requires Counts(deps, done, remaining)
    requires key in deps && key !in done
    requires Decremented(remaining, WaitingFor(deps, deps.Keys, key), next)
    ensures Counts(deps, done + {key}, next)
  {
    forall k | k in deps ensures next[k] == |deps[k] - (done + {key})| {
      OneFewer(deps[k], done, key);
    }
  }

  ghost predicate Decremented(remaining: map<nat, int>, followers: set<nat>, next: map<nat, int>) {
    && next.Keys == remaining.Keys
    && forall k :: k in remaining ==> next[k] == if k in followers then remaining[k] - 1 else remaining[k]
  }

  ghost predicate LastWaitTaken(remaining: map<nat, int>, followers: set<nat>, freed: set<nat>)
    requires followers <= remaining.Keys
  {
    forall k :: k in freed <==> k in followers && remaining[k] == 1
  }

  /** Take one wait off every follower; report those that reach zero. */
  method Decrement(remaining: map<nat, int>, followers: set<nat>) returns (next: map<nat, int>, freed: set<nat>)
    requires followers <= remaining.Keys
    ensures Decremented(remaining, followers, next)
    ensures LastWaitTaken(remaining, followers, freed)
  {
    next := remaining;
    freed := {};
    var rest := followers;
    while rest != {}
      invariant rest <= followers
      invariant next.Keys == remaining.Keys
      invariant forall k :: k in remaining ==>
          next[k] == if k in followers && k !in rest then remaining[k] - 1 else remaining[k]
      invariant forall k :: k in freed <==> k in followers && k !in rest && remaining[k] == 1
      decreases |rest|
    {
      var follower :| follower in rest;
      next := next[follower := next[follower] - 1];
      if next[follower] == 0 {
        freed := freed + {follower};
      }
      rest := rest - {follower};
    }
  }

  /** The queue holds exactly the unfinished nodes that wait only for finished ones. */
  ghost predicate Worklist(deps: Dependencies, done: set<nat>, ready: set<nat>)
    requires Closed(deps)
  {
    forall k :: k in ready <==> k in deps && k !in done && deps[k] <= done
  }

  lemma FreedAreReady(deps: Dependencies, done: set<nat>, ready: set<nat>, remaining: map<nat, int>, key: nat,
                      freed: set<nat>)
    requires Closed(deps)
    requires Worklist(deps, done, ready) && Counts(deps, done, remaining) && key in ready
    requires forall k :: k in done ==> k in deps && deps[k] <= done
    requires LastWaitTaken(remaining, WaitingFor(deps, deps.Keys, key), freed)
    ensures Worklist(deps, done + {key}, ready - {key} + freed)
  {
    hide *;
    forall k ensures k in ready - {key} + freed <==> k in deps && k !in done + {key} && deps[k] <= done + {key} {
      FreedOne(deps, done, ready, remaining, key, freed, k);
    }
    IsWorklist(deps, done + {key}, ready - {key} + freed);
  }

  lemma IsWorklist(deps: Dependencies, done: set<nat>, ready: set<nat>)
    requires Closed(deps) && forall k :: k in ready <==> k in deps && k !in done && deps[k] <= done
    ensures Worklist(deps, done, ready)
  {
  }

  lemma FreedOne(deps: Dependencies, done: set<nat>, ready: set<nat>, remaining: map<nat, int>, key: nat,
                 freed: set<nat>, k: nat)
    requires Closed(deps)
    requires Worklist(deps, done, ready) && Counts(deps, done, remaining) && key in ready
    requires k in done ==> k in deps && deps[k] <= done
    requires LastWaitTaken(remaining, WaitingFor(deps, deps.Keys, key), freed)
    ensures k in ready - {key} + freed <==> k in deps && k !in done + {key} && deps[k] <= done + {key}
  {
    assert key in deps && key !in done && deps[key] <= done;
    assert k in ready <==> k in deps && k !in done && deps[k] <= done;
    assert k in freed <==> k in WaitingFor(deps, deps.Keys, key) && remaining[k] == 1;
    if k in deps {
      ReadyNext(deps, done, remaining, key, k);
    }
    hide Worklist, Counts, LastWaitTaken;
  }

  lemma ReadyNext(deps: Dependencies, done: set<nat>, remaining: map<nat, int>, key: nat, k: nat)
    requires key in deps && k in deps && key !in done && deps[key] <= done
    requires Counts(deps, done, remaining)
    requires k in done ==> deps[k] <= done
    ensures k !in done + {key} && deps[k] <= done + {key}
            <==> (k != key && k !in done && deps[k] <= done) || (key in deps[k] && remaining[k] == 1)
  {
    LastWait(deps[k], done, key);
  }

  lemma LastWait(waits: set<nat>, done: set<nat>, key: nat)
    requires key !in done
    ensures waits <= done + {key} <==> waits <= done || (key in waits && |waits - done| == 1)
  {
    OneFewer(waits, done, key);
    NoneLeft(waits, done + {key});
    NoneLeft(waits, done);
  }

  /** One turn of the worklist. */
  lemma FinishOne(deps: Dependencies, rank: map<nat, nat>, n: nat, ready: set<nat>, remaining: map<nat, int>,
                  key: nat, next: map<nat, int>, freed: set<nat>)
    requires Closed(deps)
    requires PartialRanks(deps, rank, n) && Worklist(deps, rank.Keys, ready) && Counts(deps, rank.Keys, remaining)
    requires key in ready
    requires Decremented(remaining, WaitingFor(deps, deps.Keys, key), next)
    requires LastWaitTaken(remaining, WaitingFor(deps, deps.Keys, key), freed)
    ensures PartialRanks(deps, rank[key := n], n + 1)
    ensures Worklist(deps, rank[key := n].Keys, ready - {key} + freed)
    ensures Counts(deps, rank[key := n].Keys, next)
    ensures rank[key := n].Keys <= deps.Keys
  {
    KeyAdded(rank, key, n);
    FreedAreReady(deps, rank.Keys, ready, remaining, key, freed);
    CountsAfter(deps, rank.Keys, remaining, key, next);
    RankNext(deps, rank, n, key);
  }

  lemma NoRanks(deps: Dependencies, rank: map<nat, nat>)
    requires Closed(deps) && rank.Keys == {}
    ensures PartialRanks(deps, rank, 0)
  {
  }

  lemma FrontOfQueue(deps: Dependencies, followers: Followers, done: set<nat>, ready: set<nat>,
                     remaining: map<nat, int>, key: nat)
    requires Closed(deps) && AreFollowers(followers, deps)
    requires Worklist(deps, done, ready) && Counts(deps, done, remaining) && key in ready
    ensures key in deps && key !in done && key in followers
    ensures followers[key] == WaitingFor(deps, deps.Keys, key) && followers[key] <= remaining.Keys
  {
  }

  lemma KeyAdded(rank: map<nat, nat>, key: nat, n: nat)
    ensures rank[key := n].Keys == rank.Keys + {key}
    ensures key !in rank ==> |rank[key := n].Keys| == |rank.Keys| + 1
  {
    assert rank[key := n].Keys == rank.Keys + {key};
  }

  lemma SubsetSize(small: set<nat>, big: set<nat>)
    requires small <= big
    ensures |small| <= |big|
    ensures |small| == |big| ==> small == big
  {
    assert big == small + (big - small);
  }

  lemma Verdict(deps: Dependencies, rank: map<nat, nat>, n: nat)
    requires Closed(deps) && PartialRanks(deps, rank, n) && Worklist(deps, rank.Keys, {})
    ensures |rank.Keys| == |deps.Keys| <==> Acyclic(deps)
  {
    SubsetSize(rank.Keys, deps.Keys);
    if deps.Keys <= rank.Keys {
      assert deps.Keys == rank.Keys;
      assert Ranks(deps, rank);
    } else {
      Unfinished(deps, rank.Keys);
    }
  }

  lemma Unfinished(deps: Dependencies, done: set<nat>)
    requires Closed(deps) && Worklist(deps, done, {})
    requires !(deps.Keys <= done)
    ensures !Acyclic(deps)
  {
    var stuck := deps.Keys - done;
    forall k | k in stuck ensures deps[k] * stuck != {} {
      var nothing: set<nat> := {};
      assert k !in nothing;
      var d :| d in deps[k] && d !in done;
      assert d in deps[k] * stuck;
    }
    var k :| k in deps.Keys && k !in done;
    assert k in stuck;
    StuckProvesCyclic(deps, stuck);
  }

  method Degrees(deps: Dependencies) returns (degrees: map<nat, int>, ready: set<nat>)
    requires Closed(deps)
    ensures Counts(deps, {}, degrees) && Worklist(deps, {}, ready) && degrees.Keys == deps.Keys
  {
    degrees := map k | k in deps :: |deps[k]|;
    ready := set k | k in deps && degrees[k] == 0;
    InitialCounts(deps, degrees, ready);
  }

  /** True exactly for acyclic relations; also the in-degrees and the followers. */
  method CheckAcyclic(deps: Dependencies) returns (acyclic: bool, degrees: map<nat, int>, followers: Followers)
    requires Closed(deps)
    ensures acyclic <==> Acyclic(deps)
    ensures Counts(deps, {}, degrees)
    ensures AreFollowers(followers, deps)
  {
    hide *;
    followers := FollowersOf(deps);
    var remaining, ready: set<nat>;
    degrees, ready := Degrees(deps);
    remaining := degrees;
    ghost var rank: map<nat, nat> := map[];
    var completed := 0;
    assert rank.Keys == {};
    NoRanks(deps, rank);
    while ready != {}
      invariant PartialRanks(deps, rank, completed)
      invariant Worklist(deps, rank.Keys, ready)
      invariant Counts(deps, rank.Keys, remaining)
      invariant completed == |rank.Keys|
      invariant rank.Keys <= deps.Keys
      decreases deps.Keys - rank.Keys
    {
      var key :| key in ready;
      FrontOfQueue(deps, followers, rank.Keys, ready, remaining, key);
      var next, freed := Decrement(remaining, followers[key]);
      FinishOne(deps, rank, completed, ready, remaining, key, next, freed);
      KeyAdded(rank, key, completed);
      ghost var before := rank.Keys;
      rank := rank[key := completed];
      OneLess(deps.Keys, before, key);
      ready := ready - {key} + freed;
      remaining := next;
      completed := completed + 1;
    }
    acyclic := completed == |degrees.Keys|;
    Verdict(deps, rank, completed);
  }

  lemma OneLess(all: set<nat>, done: set<nat>, key: nat)
    requires key in all && key !in done
    ensures all - (done + {key}) < all - done
  {
    assert key in all - done;
  }

  lemma InitialCounts(deps: Dependencies, degrees: map<nat, int>, ready: set<nat>)
    requires Closed(deps)
    requires degrees.Keys == deps.Keys && forall k :: k in deps ==> degrees[k] == |deps[k]|
    requires forall k :: k in ready <==> k in deps && degrees[k] == 0
    ensures Counts(deps, {}, degrees) && Worklist(deps, {}, ready)
  {
    forall k | k in deps ensures deps[k] - {} == deps[k] && (k in ready <==> deps[k] <= {}) {
      assert deps[k] - {} == deps[k];
      NoneLeft(deps[k], {});
    }
  }
}
