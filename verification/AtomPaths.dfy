/** Paths of atoms: chains of hops grouped by stage (vericcl/semantics/atom.py), and splicing a stage's path
    behind the path that brought the atom to the stage (vericcl/composer/compose.py, _placeholder_atom). */
module AtomPaths {
  import opened Basics

  datatype Symbol = Symbol(src: nat, dst: nat, ready: real)

  datatype Stage = Stage(id: nat, reduce: bool, symbols: seq<Symbol>)

  type Path = seq<Stage>

  function First(p: Path): Symbol
    requires p != [] && p[0].symbols != []
  {
    p[0].symbols[0]
  }

  function Last(p: Path): Symbol
    requires p != [] && p[|p| - 1].symbols != []
  {
    p[|p| - 1].symbols[|p[|p| - 1].symbols| - 1]
  }

  /** The hop b leaves where a arrived, and not earlier. */
  predicate Joined(a: Symbol, b: Symbol) {
    a.dst == b.src && a.ready <= b.ready
  }

  predicate ValidStage(s: Stage) {
    && s.symbols != []
    && (forall k :: 0 <= k < |s.symbols| ==> s.symbols[k].src != s.symbols[k].dst && s.symbols[k].ready >= 0.0)
    && forall k :: 0 <= k < |s.symbols| - 1 ==> Joined(s.symbols[k], s.symbols[k + 1])
  }

  predicate Follows(a: Stage, b: Stage)
    requires a.symbols != [] && b.symbols != []
  {
    a.id < b.id && Joined(a.symbols[|a.symbols| - 1], b.symbols[0])
  }

  /** What the constructors of stages and atoms check: a contiguous rank chain with ascending stages and
      nondecreasing ready times. */
  predicate ValidPath(p: Path) {
    && (forall i :: 0 <= i < |p| ==> ValidStage(p[i]))
    && forall i :: 0 <= i < |p| - 1 ==> Follows(p[i], p[i + 1])
  }

  /** A nonempty valid path from one rank to another. */
  predicate Walk(p: Path, a: nat, b: nat) {
    p != [] && ValidPath(p) && First(p).src == a && Last(p).dst == b
  }

  /** Where a value rests at rank b after starting at rank a. */
  predicate Brings(p: Path, a: nat, b: nat) {
    if p == [] then a == b else Walk(p, a, b)
  }

  /** When the end of a path is reached; 0 for the empty path. */
  function Arrival(p: Path): real {
    if p == [] || p[|p| - 1].symbols == [] then 0.0 else Last(p).ready
  }

  // ---------------------------------------------------------------- delaying

  function Delay(s: Stage, ready: real): (d: Stage)
    ensures d.id == s.id && d.reduce == s.reduce && |d.symbols| == |s.symbols|
    ensures forall k :: 0 <= k < |s.symbols| ==> d.symbols[k] == s.symbols[k].(ready := Max(ready, s.symbols[k].ready))
  {
    Stage(s.id, s.reduce,
          seq(|s.symbols|, k requires 0 <= k < |s.symbols| => s.symbols[k].(ready := Max(ready, s.symbols[k].ready))))
  }

  /** Every hop waits at least until `ready`. */
  function Delayed(p: Path, ready: real): (d: Path)
    ensures |d| == |p| && forall i :: 0 <= i < |p| ==> d[i] == Delay(p[i], ready)
  {
    seq(|p|, i requires 0 <= i < |p| => Delay(p[i], ready))
  }

  lemma DelayValid(s: Stage, ready: real)
    requires ValidStage(s)
    ensures ValidStage(Delay(s, ready))
  {
  }

  lemma DelayedFollows(a: Stage, b: Stage, ready: real)
    requires a.symbols != [] && b.symbols != [] && Follows(a, b)
    ensures Follows(Delay(a, ready), Delay(b, ready))
  {
  }

  lemma DelayedValid(p: Path, ready: real)
    requires ValidPath(p)
    ensures ValidPath(Delayed(p, ready))
    ensures p != [] ==> First(Delayed(p, ready)) == First(p).(ready := Max(ready, First(p).ready))
    ensures p != [] ==> Last(Delayed(p, ready)) == Last(p).(ready := Max(ready, Last(p).ready))
  {
    hide ValidStage, Follows, Delayed, Delay, Max;
    var d := Delayed(p, ready);
    forall i | 0 <= i < |d| ensures ValidStage(d[i]) {
      DelayValid(p[i], ready);
    }
    StagesNonempty(p);
    StagesNonempty(d);
    forall i | 0 <= i < |d| - 1 ensures Follows(d[i], d[i + 1]) {
      DelayedFollows(p[i], p[i + 1], ready);
    }
  }

  lemma StagesNonempty(p: Path)
    requires forall i :: 0 <= i < |p| ==> ValidStage(p[i])
    ensures forall i :: 0 <= i < |p| ==> p[i].symbols != []
  {
  }

  // ---------------------------------------------------------------- splicing

  lemma ConcatValid(p: Path, q: Path)
    requires ValidPath(p) && ValidPath(q)
    ensures ValidPath(p + q) <==> p == [] || q == [] || Follows(p[|p| - 1], q[0])
  {
    var w := p + q;
    if p != [] && q != [] {
      assert w[|p| - 1] == p[|p| - 1] && w[|p| - 1 + 1] == q[0];
    }
    if p == [] || q == [] || Follows(p[|p| - 1], q[0]) {
      forall i | 0 <= i < |w| ensures ValidStage(w[i]) {
      }
      forall i | 0 <= i < |w| - 1 ensures Follows(w[i], w[i + 1]) {
        if i + 1 < |p| {
          assert w[i] == p[i] && w[i + 1] == p[i + 1];
        } else if |p| <= i {
          assert w[i] == q[i - |p|] && w[i + 1] == q[i - |p| + 1];
        }
      }
    }
  }

  /** The spliced path arrives at the later of the two arrivals. */
  lemma SplicedArrival(prior: Path, q: Path)
    requires ValidPath(prior) && ValidPath(q) && q != [] && ValidPath(prior + Delayed(q, Arrival(prior)))
    ensures Arrival(prior + Delayed(q, Arrival(prior))) == Max(Arrival(prior), Arrival(q))
  {
    DelayedValid(q, Arrival(prior));
    assert Last(prior + Delayed(q, Arrival(prior))) == Last(Delayed(q, Arrival(prior)));
  }

  /** Where the earlier path ends is where the stage's path begins, so the spliced path fails the atom's check
      exactly when the stages do not ascend at the seam; otherwise it leads from the first source to the last
      destination and arrives at the later of the two arrivals. */
  lemma SplicedIsWalk(prior: Path, q: Path, a: nat, b: nat, c: nat)
    requires Brings(prior, a, b) && Walk(q, b, c)
    ensures ValidPath(prior)
    ensures ValidPath(prior + Delayed(q, Arrival(prior))) <==> prior == [] || prior[|prior| - 1].id < q[0].id
    ensures ValidPath(prior + Delayed(q, Arrival(prior))) ==> Walk(prior + Delayed(q, Arrival(prior)), a, c)
    ensures ValidPath(prior + Delayed(q, Arrival(prior))) ==>
        Arrival(prior + Delayed(q, Arrival(prior))) == Max(Arrival(prior), Arrival(q))
  {
    ArrivalIsLast(prior);
    WalkParts(q, b, c);
    DelayedValid(q, Arrival(prior));
    hide ValidStage, Delayed, Delay, Arrival, Max;
    if ValidPath(prior + Delayed(q, Arrival(prior))) {
      BroughtIsValid(prior, a, b);
      SplicedArrival(prior, q);
    }
    var d := Delayed(q, Arrival(prior));
    StagesNonempty(d);
    ConcatValid(prior, d);
    if prior != [] {
      WalkParts(prior, a, b);
      SeamFollows(prior, d);
      assert (prior + d)[0] == prior[0] && (prior + d)[|prior + d| - 1] == d[|d| - 1];
    } else {
      assert prior + d == d;
    }
  }

  lemma BroughtIsValid(p: Path, a: nat, b: nat)
    requires Brings(p, a, b)
    ensures ValidPath(p)
  {
    hide ValidStage, Follows;
  }

  lemma ArrivalIsLast(p: Path)
    requires ValidPath(p) || p == []
    ensures p != [] ==> Nonempty(p) && Arrival(p) == Last(p).ready
    ensures p == [] ==> Arrival(p) == 0.0
  {
  }

  predicate Nonempty(p: Path) {
    p != [] && p[0].symbols != [] && p[|p| - 1].symbols != []
  }

  lemma WalkParts(p: Path, a: nat, b: nat)
    requires Walk(p, a, b)
    ensures Nonempty(p) && ValidPath(p) && First(p).src == a && Last(p).dst == b && Last(p).ready >= 0.0
  {
    assert ValidStage(p[|p| - 1]);
  }

  lemma SeamFollows(p: Path, q: Path)
    requires Nonempty(p) && Nonempty(q)
    ensures Follows(p[|p| - 1], q[0]) <==> p[|p| - 1].id < q[0].id && Joined(Last(p), First(q))
  {
  }

  lemma ReadiesAscend(s: Stage, i: nat, j: nat)
    requires ValidStage(s) && i <= j < |s.symbols|
    ensures s.symbols[i].ready <= s.symbols[j].ready
    decreases j - i
  {
    if i < j {
      assert Joined(s.symbols[j - 1], s.symbols[j - 1 + 1]);
      ReadiesAscend(s, i, j - 1);
    }
  }

  method DelayStage(s: Stage, ready: real) returns (d: Stage)
    ensures d == Delay(s, ready)
  {
    var symbols := [];
    for i := 0 to |s.symbols|
      invariant |symbols| == i
      invariant forall k :: 0 <= k < i ==> symbols[k] == s.symbols[k].(ready := Max(ready, s.symbols[k].ready))
    {
      symbols := symbols + [Symbol(s.symbols[i].src, s.symbols[i].dst, Max(ready, s.symbols[i].ready))];
    }
    d := Stage(s.id, s.reduce, symbols);
    assert d.symbols == Delay(s, ready).symbols;
  }

  /** The running clock before stage i. */
  ghost function ClockBefore(p: Path, ready: real, i: nat): real
    requires ValidPath(p) && i <= |p|
  {
    if i == 0 then ready else Max(ready, p[i - 1].symbols[|p[i - 1].symbols| - 1].ready)
  }

  /** The clock the loop carries is absorbed by the ready times of a valid path. */
  lemma ClockAbsorbed(p: Path, ready: real, i: nat)
    requires ValidPath(p) && i < |p|
    ensures Delay(p[i], ClockBefore(p, ready, i)) == Delay(p[i], ready)
    ensures p[i].symbols != [] && Delay(p[i], ready).symbols[|p[i].symbols| - 1].ready == ClockBefore(p, ready, i + 1)
  {
    assert ValidStage(p[i]);
    if i > 0 {
      assert Follows(p[i - 1], p[i - 1 + 1]);
      forall k | 0 <= k < |p[i].symbols|
        ensures Delay(p[i], ClockBefore(p, ready, i)).symbols[k] == Delay(p[i], ready).symbols[k]
      {
        ReadiesAscend(p[i], 0, k);
      }
      assert Delay(p[i], ClockBefore(p, ready, i)).symbols == Delay(p[i], ready).symbols;
    }
  }

  /** The path of the placeholder and the earliest start it allows. The clock of the loop is carried from stage
      to stage; the result says that it only ever delays each hop to the arrival of the earlier path. */
  method PlaceholderPath(path: Path, st: real, prior: Path) returns (spliced: Path, start: real)
    requires ValidPath(path) && ValidPath(prior) && path != []
    ensures spliced == prior + Delayed(path, Arrival(prior))
    ensures start == Max(st, Max(Arrival(prior), Arrival(path)))
    ensures ValidPath(spliced) ==> start == Max(st, Arrival(spliced))
  {
    var ready := 0.0;
    if prior != [] {
      StagesNonempty(prior);
      ready := Last(prior).ready;
    }
    ClockStarts(path, prior);
    hide *;
    var suffix := [];
    for i := 0 to |path|
      invariant |suffix| == i
      invariant ready == ClockBefore(path, Arrival(prior), i)
      invariant forall k :: 0 <= k < i ==> suffix[k] == Delay(path[k], Arrival(prior))
    {
      ClockAbsorbed(path, Arrival(prior), i);
      var stage := DelayStage(path[i], ready);
      suffix := suffix + [stage];
      ready := stage.symbols[|stage.symbols| - 1].ready;
    }
    assert suffix == Delayed(path, Arrival(prior));
    spliced := prior + suffix;
    start := Max(st, ready);
    ClockEnds(path, prior);
    if ValidPath(spliced) {
      SplicedArrival(prior, path);
    }
  }

  /** The clock starts at the arrival of the earlier path and ends at the later of both arrivals. */
  lemma ClockStarts(path: Path, prior: Path)
    requires ValidPath(path) && ValidPath(prior)
    ensures ClockBefore(path, Arrival(prior), 0)
            == if prior == [] || prior[|prior| - 1].symbols == [] then 0.0 else Last(prior).ready
  {
  }

  lemma ClockEnds(path: Path, prior: Path)
    requires ValidPath(path) && ValidPath(prior) && path != []
    ensures ClockBefore(path, Arrival(prior), |path|) == Max(Arrival(prior), Arrival(path))
  {
    StagesNonempty(path);
    hide ValidStage, Follows;
  }
}
