/** Finite sets of integers in ascending order. */
module Ordering {

  ghost predicate Ascending(s: seq<int>) {
    forall i, j :: 0 <= i < j < |s| ==> s[i] < s[j]
  }

  lemma NoMembers(s: set<int>)
    requires forall t :: t !in s
    ensures s == {}
  {
    var empty: set<int> := {};
    assert forall t :: t in s <==> t in empty;
    assert s == empty;
  }

  lemma HasInt(s: set<int>)
    requires s != {}
    ensures exists t :: t in s
  {
    if forall t :: t !in s {
      NoMembers(s);
    }
  }

  method SortedKeys(keys: set<int>) returns (sorted: seq<int>)
    ensures Ascending(sorted)
    ensures forall t :: t in sorted <==> t in keys
  {
    sorted := [];
    var rest := keys;
    while rest != {}
      invariant rest <= keys
      invariant forall t :: t in keys <==> t in sorted || t in rest
      invariant Ascending(sorted)
      invariant forall t, k :: t in rest && 0 <= k < |sorted| ==> sorted[k] < t
      decreases |rest|
    {
      var least := Minimum(rest);
      sorted := sorted + [least];
      rest := rest - {least};
    }
  }

  /** The members of a set of identifiers, in ascending order. */
  ghost predicate IsSorted(sorted: seq<nat>, keys: set<nat>) {
    && (forall i, j :: 0 <= i < j < |sorted| ==> sorted[i] < sorted[j])
    && forall t :: t in sorted <==> t in keys
  }

  method SortedIds(keys: set<nat>) returns (sorted: seq<nat>)
    ensures IsSorted(sorted, keys)
  {
    sorted := [];
    var rest := keys;
    while rest != {}
      invariant rest <= keys
      invariant forall t :: t in keys <==> t in sorted || t in rest
      invariant forall i, j :: 0 <= i < j < |sorted| ==> sorted[i] < sorted[j]
      invariant forall t, k :: t in rest && 0 <= k < |sorted| ==> sorted[k] < t
      decreases |rest|
    {
      var least: nat := Minimum(rest);
      sorted := sorted + [least];
      rest := rest - {least};
    }
  }

  lemma HasElement(s: seq<nat>)
    requires s != []
    ensures exists t :: t in s
  {
    assert s[0] in s;
  }

  lemma {:induction false} SortedIsUnique(a: seq<nat>, b: seq<nat>, keys: set<nat>)
    requires IsSorted(a, keys) && IsSorted(b, keys)
    ensures a == b
    decreases |a|
  {
    if a != [] {
      HasElement(a);
    }
    if b != [] {
      HasElement(b);
    }
    if a != [] {
      assert a[0] in b && b[0] in a;
      forall t ensures t in a[1..] <==> t in keys - {a[0]} {
        assert t in a <==> t == a[0] || t in a[1..];
      }
      forall t ensures t in b[1..] <==> t in keys - {a[0]} {
        assert t in b <==> t == b[0] || t in b[1..];
      }
      SortedIsUnique(a[1..], b[1..], keys - {a[0]});
      assert a == [a[0]] + a[1..] && b == [b[0]] + b[1..];
    }
  }

  method Minimum(s: set<int>) returns (least: int)
    requires s != {}
    ensures least in s && forall t :: t in s ==> least <= t
  {
    HasInt(s);
    var t :| t in s;
    least := t;
    var rest := s - {least};
    while rest != {}
      invariant rest <= s && least in s
      invariant forall u :: u in s && u !in rest ==> least <= u
      decreases |rest|
    {
      HasInt(rest);
      var u :| u in rest;
      if u < least {
        least := u;
      }
      rest := rest - {u};
    }
  }
}
