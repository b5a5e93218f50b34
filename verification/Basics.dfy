/** Wrappers, identifier sets and lists, and the latest of some times: what several components share. */
module Basics {

  datatype Option<+T> = None | Some(value: T)

  datatype Result<+T, +E> = Ok(value: T) | Err(error: E)

  function Min(a: real, b: real): real {
    if a <= b then a else b
  }

  function Max(a: real, b: real): real {
    if a <= b then b else a
  }

  // ---------------------------------------------------------------- identifiers

  ghost function Elements(s: seq<nat>): set<nat> {
    set k | k in s
  }

  /** Ids in a list are pairwise distinct. */
  ghost predicate Distinct(s: seq<nat>) {
    forall i, j :: 0 <= i < j < |s| ==> s[i] != s[j]
  }

  lemma SnocElements(s: seq<nat>, k: nat)
    ensures Elements(s + [k]) == Elements(s) + {k}
  {
    forall x | x in Elements(s + [k]) ensures x in Elements(s) + {k} {
    }
    forall x | x in Elements(s) + {k} ensures x in Elements(s + [k]) {
      if x != k {
        var i :| 0 <= i < |s| && s[i] == x;
        assert (s + [k])[i] == x;
      } else {
        assert (s + [k])[|s|] == k;
      }
    }
  }

  lemma HasMember(s: set<nat>)
    requires s != {}
    ensures exists k :: k in s
  {
  }

  method LeastId(ids: set<nat>) returns (least: nat)
    requires ids != {}
    ensures least in ids && forall k :: k in ids ==> least <= k
  {
    HasMember(ids);
    least :| least in ids;
    var rest := ids;
    while rest != {}
      invariant rest <= ids && least in ids
      invariant forall k :: k in ids && k !in rest ==> least <= k
      decreases |rest|
    {
      HasMember(rest);
      var k :| k in rest;
      if k < least {
        least := k;
      }
      rest := rest - {k};
    }
  }

  // ---------------------------------------------------------------- latest ends

  /** The latest of some ends, zero when there are none. */
  ghost predicate IsLatest(ends: map<nat, real>, keys: set<nat>, t: real) {
    && keys <= ends.Keys
    && if keys == {} then t == 0.0
       else (forall k :: k in keys ==> ends[k] <= t) && exists k :: k in keys && ends[k] == t
  }

  lemma LatestUnique(ends: map<nat, real>, keys: set<nat>, a: real, b: real)
    requires IsLatest(ends, keys, a) && IsLatest(ends, keys, b)
    ensures a == b
  {
  }

  /** Later ends elsewhere do not matter. */
  lemma LatestKept(ends: map<nat, real>, more: map<nat, real>, keys: set<nat>, t: real)
    requires keys <= ends.Keys <= more.Keys && forall k :: k in keys ==> more[k] == ends[k]
    ensures IsLatest(ends, keys, t) <==> IsLatest(more, keys, t)
  {
  }

  lemma LatestGrows(ends: map<nat, real>, small: set<nat>, big: set<nat>, a: real, b: real)
    requires small <= big && IsLatest(ends, small, a) && IsLatest(ends, big, b)
    requires forall k :: k in ends ==> ends[k] >= 0.0
    ensures a <= b && 0.0 <= a
  {
  }

  lemma LatestNext(ends: map<nat, real>, keys: set<nat>, k: nat, t: real)
    requires IsLatest(ends, keys, t) && k in ends
    ensures IsLatest(ends, keys + {k}, if keys == {} || t < ends[k] then ends[k] else t)
  {
  }

  lemma {:induction false} LatestExists(ends: map<nat, real>, keys: set<nat>) returns (t: real)
    requires keys <= ends.Keys
    ensures IsLatest(ends, keys, t)
    decreases keys
  {
    if keys == {} {
      t := 0.0;
    } else {
      var k :| k in keys;
      var u := LatestExists(ends, keys - {k});
      LatestNext(ends, keys - {k}, k, u);
      assert keys == keys - {k} + {k};
      t := if keys - {k} == {} || u < ends[k] then ends[k] else u;
    }
  }

  lemma NothingLatest(ends: map<nat, real>)
    ensures IsLatest(ends, {}, 0.0)
  {
  }

  method Latest(ends: map<nat, real>, keys: set<nat>) returns (t: real)
    requires keys <= ends.Keys
    ensures IsLatest(ends, keys, t)
  {
    hide *;
    t := 0.0;
    ghost var done: set<nat> := {};
    var rest := keys;
    NothingLatest(ends);
    while rest != {}
      invariant done + rest == keys && done !! rest
      invariant IsLatest(ends, done, t)
      invariant done == {} ==> rest == keys
      decreases |rest|
    {
      HasMember(rest);
      var k :| k in rest;
      LatestNext(ends, done, k, t);
      if rest == keys || t < ends[k] {
        t := ends[k];
      }
      done, rest := done + {k}, rest - {k};
    }
    assert done == keys;
  }
}
