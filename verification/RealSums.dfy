/** Sums of a real-valued map over a finite set of keys, independent of the order of summation. */
module RealSums {

  ghost function Pick(s: set<nat>): (x: nat)
    requires s != {}
    ensures x in s
  {
    var x :| x in s; x
  }

  ghost function Total(m: map<nat, real>, s: set<nat>): real
    requires s <= m.Keys
  {
    if s == {} then 0.0
    else
      var x := Pick(s);
      m[x] + Total(m, s - {x})
  }

  lemma {:induction false} TotalAdd(m: map<nat, real>, s: set<nat>, x: nat)
    requires s <= m.Keys && x in m && x !in s
    ensures Total(m, s + {x}) == m[x] + Total(m, s)
    decreases s
  {
    var y := Pick(s + {x});
    if y == x {
      assert s + {x} - {x} == s;
    } else {
      var rest := s - {y};
      assert s + {x} - {y} == rest + {x};
      assert rest + {y} == s;
      TotalAdd(m, rest, x);
      TotalAdd(m, rest, y);
    }
  }

  lemma {:induction false} TotalSame(m: map<nat, real>, n: map<nat, real>, s: set<nat>)
    requires s <= m.Keys && s <= n.Keys
    requires forall k :: k in s ==> m[k] == n[k]
    ensures Total(m, s) == Total(n, s)
    decreases s
  {
    if s != {} {
      TotalSame(m, n, s - {Pick(s)});
    }
  }

  lemma {:induction false} TotalAtMost(m: map<nat, real>, s: set<nat>, bound: real)
    requires s <= m.Keys
    requires forall k :: k in s ==> m[k] <= bound
    ensures Total(m, s) <= bound * (|s| as real)
    decreases s
  {
    if s != {} {
      var x := Pick(s);
      TotalAtMost(m, s - {x}, bound);
      assert |s| == |s - {x}| + 1;
      Distribute(bound, |s - {x}| as real, 1.0);
    }
  }

  lemma Distribute(c: real, x: real, y: real)
    ensures c * (x + y) == c * x + c * y
  {
  }

  /** A sum over s of c[k] = a[k] + b[k] * w splits. */
  lemma {:induction false} TotalLinear(a: map<nat, real>, b: map<nat, real>, w: real, c: map<nat, real>, s: set<nat>)
    requires s <= a.Keys && s <= b.Keys && s <= c.Keys
    requires forall k :: k in s ==> c[k] == a[k] + b[k] * w
    ensures Total(c, s) == Total(a, s) + Total(b, s) * w
    decreases s
  {
    if s == {} {
      assert Total(b, s) * w == 0.0;
    } else {
      var x := Pick(s);
      TotalLinear(a, b, w, c, s - {x});
      Distribute(w, b[x], Total(b, s - {x}));
    }
  }
}
