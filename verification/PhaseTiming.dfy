/** Wall-clock attribution (vericcl/experiments/overhead.py, PhaseTimer).

    Spans may nest and overlap.  At every nanosecond the winning span is the covering one with the
    greatest (priority, start, lowest index).  `BreakdownNs` sweeps the sorted boundaries; it is proved
    to count, for each name, the nanoseconds whose winner has that name. */
module PhaseTiming {
  import opened Ordering

  datatype Event = Event(name: string, start: int, end: int, priority: int)

  ghost predicate WellFormed(events: seq<Event>) {
    forall i :: 0 <= i < |events| ==> events[i].start <= events[i].end
  }

  predicate Covers(e: Event, t: int) {
    e.start <= t < e.end
  }

  function Covering(events: seq<Event>, t: int): set<nat> {
    set i: nat | i < |events| && Covers(events[i], t)
  }

  /** Span i is chosen before span j. */
  predicate Precedes(events: seq<Event>, i: nat, j: nat)
    requires i < |events| && j < |events|
  {
    var a, b := events[i], events[j];
    a.priority > b.priority
    || (a.priority == b.priority && (a.start > b.start || (a.start == b.start && i <= j)))
  }

  ghost predicate Wins(events: seq<Event>, i: nat, among: set<nat>) {
    && i in among
    && i < |events|
    && forall j :: j in among ==> j < |events| && Precedes(events, i, j)
  }

  /** At time t the winning span carries this name. */
  ghost predicate Charged(events: seq<Event>, name: string, t: int) {
    exists i: nat :: Wins(events, i, Covering(events, t)) && events[i].name == name
  }

  ghost function ChargedTimes(events: seq<Event>, name: string, from: int, until: int): set<int> {
    set t: int | from <= t < until && Charged(events, name, t)
  }

  function Earliest(events: seq<Event>): int {
    if |events| == 0 then 0
    else if |events| == 1 || events[|events| - 1].start < Earliest(events[..|events| - 1]) then
      events[|events| - 1].start
    else Earliest(events[..|events| - 1])
  }

  function Latest(events: seq<Event>): int {
    if |events| == 0 then 0
    else if |events| == 1 || events[|events| - 1].end > Latest(events[..|events| - 1]) then events[|events| - 1].end
    else Latest(events[..|events| - 1])
  }

  lemma {:induction false} Extent(events: seq<Event>, i: nat)
    requires i < |events|
    ensures Earliest(events) <= events[i].start && events[i].end <= Latest(events)
    decreases |events|
  {
    if i < |events| - 1 {
      Extent(events[..|events| - 1], i);
    }
  }

  // ---------------------------------------------------------------- boundaries

  /** Boundary changes at one stamp, in the order the first n spans append them: +1 opens, -1 closes. */
  function ChangesAt(events: seq<Event>, n: nat, stamp: int): seq<(int, nat)>
    requires n <= |events|
  {
    if n == 0 then []
    else
      ChangesAt(events, n - 1, stamp)
      + (if events[n - 1].start == stamp then [(1, n - 1)] else [])
      + (if events[n - 1].end == stamp then [(-1, n - 1)] else [])
  }

  function Apply(active: set<nat>, changes: seq<(int, nat)>): set<nat> {
    if changes == [] then active
    else
      var last := changes[|changes| - 1];
      var before := Apply(active, changes[..|changes| - 1]);
      if last.0 == 1 then before + {last.1} else before - {last.1}
  }

  lemma ApplySnoc(active: set<nat>, changes: seq<(int, nat)>, c: (int, nat))
    ensures Apply(active, changes + [c])
            == if c.0 == 1 then Apply(active, changes) + {c.1} else Apply(active, changes) - {c.1}
  {
    assert (changes + [c])[..|changes|] == changes;
  }

  /** After the changes at a stamp, a span is active iff it started earlier or now and does not end now. */
  lemma {:induction false} ApplyChangesAt(events: seq<Event>, n: nat, stamp: int, active: set<nat>, i: nat)
    requires n <= |events|
    ensures i in Apply(active, ChangesAt(events, n, stamp)) <==>
            !(i < n && events[i].end == stamp) && (i in active || (i < n && events[i].start == stamp))
  {
    if n > 0 {
      ApplyChangesAt(events, n - 1, stamp, active, i);
      ApplyLastSpan(active, ChangesAt(events, n - 1, stamp), events[n - 1], n - 1, stamp);
    }
  }

  lemma ApplyLastSpan(active: set<nat>, head: seq<(int, nat)>, e: Event, i: nat, stamp: int)
    ensures var before := Apply(active, head);
            var mid := if e.start == stamp then before + {i} else before;
            Apply(active, head + (if e.start == stamp then [(1, i)] else [])
                  + (if e.end == stamp then [(-1, i)] else []))
            == if e.end == stamp then mid - {i} else mid
  {
    var more := if e.start == stamp then [(1, i)] else [];
    ApplySnoc(active, head, (1, i));
    ApplySnoc(active, head + more, (-1, i));
    assert head + [] == head;
    assert head + more + [] == head + more;
  }

  ghost predicate Boundary(events: seq<Event>, n: nat, t: int) {
    exists i :: 0 <= i < n && i < |events| && (events[i].start == t || events[i].end == t)
  }

  lemma {:induction false} ChangesNonEmpty(events: seq<Event>, n: nat, t: int)
    requires n <= |events|
    ensures ChangesAt(events, n, t) != [] <==> Boundary(events, n, t)
  {
    if n > 0 {
      ChangesNonEmpty(events, n - 1, t);
      if Boundary(events, n - 1, t) {
        var i :| 0 <= i < n - 1 && i < |events| && (events[i].start == t || events[i].end == t);
        assert Boundary(events, n, t);
      }
    }
  }

  ghost predicate IsIndex(events: seq<Event>, n: nat, boundaries: map<int, seq<(int, nat)>>)
    requires n <= |events|
  {
    && (forall t :: t in boundaries <==> ChangesAt(events, n, t) != [])
    && (forall t :: t in boundaries ==> boundaries[t] == ChangesAt(events, n, t))
  }

  /** setdefault(stamp, []).append(change) */
  function Append(boundaries: map<int, seq<(int, nat)>>, stamp: int, change: (int, nat)): map<int, seq<(int, nat)>> {
    boundaries[stamp := (if stamp in boundaries then boundaries[stamp] else []) + [change]]
  }

  lemma IndexOneMore(events: seq<Event>, i: nat, boundaries: map<int, seq<(int, nat)>>)
    requires i < |events| && IsIndex(events, i, boundaries)
    ensures IsIndex(events, i + 1, Append(Append(boundaries, events[i].start, (1, i)), events[i].end, (-1, i)))
  {
    var next := Append(Append(boundaries, events[i].start, (1, i)), events[i].end, (-1, i));
    forall t
      ensures (t in next <==> ChangesAt(events, i + 1, t) != [])
              && (t in next ==> next[t] == ChangesAt(events, i + 1, t))
    {
      var head := ChangesAt(events, i, t);
      assert t in boundaries <==> head != [];
      assert head + [] == head;
    }
  }

  method Boundaries(events: seq<Event>) returns (boundaries: map<int, seq<(int, nat)>>)
    ensures IsIndex(events, |events|, boundaries)
  {
    boundaries := map[];
    for i := 0 to |events|
      invariant IsIndex(events, i, boundaries)
    {
      IndexOneMore(events, i, boundaries);
      boundaries := Append(boundaries, events[i].start, (1, i));
      boundaries := Append(boundaries, events[i].end, (-1, i));
    }
  }

  // ---------------------------------------------------------------- intervals

  /** Between two neighbouring boundaries the covering set does not change. */
  lemma CoveringConstant(events: seq<Event>, previous: int, stamp: int, t: int)
    requires previous <= t < stamp
    requires forall b :: previous < b < stamp ==> !Boundary(events, |events|, b)
    ensures Covering(events, t) == Covering(events, previous)
  {
    forall i: nat | i < |events|
      ensures Covers(events[i], t) <==> Covers(events[i], previous)
    {
      assert events[i].start == events[i].start
          && (previous < events[i].start < stamp ==> Boundary(events, |events|, events[i].start));
      assert previous < events[i].end < stamp ==> Boundary(events, |events|, events[i].end);
    }
  }

  ghost function Interval(from: int, until: int): (s: set<int>)
    requires from <= until
    ensures forall t :: t in s <==> from <= t < until
    ensures |s| == until - from
    decreases until - from
  {
    if from == until then {} else Interval(from, until - 1) + {until - 1}
  }

  lemma WinnerUnique(events: seq<Event>, i: nat, j: nat, among: set<nat>)
    requires Wins(events, i, among) && Wins(events, j, among)
    ensures i == j
  {
  }

  /** Advancing from one boundary to the next charges the whole interval to the winner's name only. */
  lemma ChargeInterval(events: seq<Event>, lo: int, previous: int, stamp: int, winner: nat, name: string)
    requires lo <= previous < stamp
    requires forall b :: previous < b < stamp ==> !Boundary(events, |events|, b)
    requires Wins(events, winner, Covering(events, previous))
    ensures |ChargedTimes(events, name, lo, stamp)|
            == |ChargedTimes(events, name, lo, previous)|
            + (if events[winner].name == name then stamp - previous else 0)
  {
    var old_ := ChargedTimes(events, name, lo, previous);
    var span := Interval(previous, stamp);
    forall t | previous <= t < stamp
      ensures Charged(events, name, t) <==> events[winner].name == name
    {
      CoveringConstant(events, previous, stamp, t);
      if Charged(events, name, t) {
        var i: nat :| Wins(events, i, Covering(events, t)) && events[i].name == name;
        WinnerUnique(events, i, winner, Covering(events, t));
      }
    }
    if events[winner].name == name {
      assert ChargedTimes(events, name, lo, stamp) == old_ + span;
      assert old_ !! span;
    } else {
      assert ChargedTimes(events, name, lo, stamp) == old_;
    }
  }

  lemma IdleInterval(events: seq<Event>, lo: int, previous: int, stamp: int, name: string)
    requires lo <= previous < stamp
    requires forall b :: previous < b < stamp ==> !Boundary(events, |events|, b)
    requires Covering(events, previous) == {}
    ensures ChargedTimes(events, name, lo, stamp) == ChargedTimes(events, name, lo, previous)
  {
    forall t | previous <= t < stamp
      ensures !Charged(events, name, t)
    {
      CoveringConstant(events, previous, stamp, t);
    }
  }

  method SelectWinner(events: seq<Event>, active: set<nat>) returns (winner: nat)
    requires active != {} && forall i :: i in active ==> i < |events|
    ensures Wins(events, winner, active)
  {
    winner :| winner in active;
    var rest := active - {winner};
    while rest != {}
      invariant rest <= active && winner in active
      invariant forall j :: j in active && j !in rest ==> Precedes(events, winner, j)
      decreases |rest|
    {
      var i :| i in rest;
      if Precedes(events, i, winner) {
        winner := i;
      }
      rest := rest - {i};
    }
  }

  ghost predicate Tally(events: seq<Event>, result: map<string, int>, lo: int, until: int) {
    && (forall name :: name in result <==> ChargedTimes(events, name, lo, until) != {})
    && (forall name :: name in result ==> result[name] == |ChargedTimes(events, name, lo, until)|)
  }

  method ApplyChanges(before: set<nat>, changes: seq<(int, nat)>) returns (active: set<nat>)
    ensures active == Apply(before, changes)
  {
    active := before;
    for c := 0 to |changes|
      invariant active == Apply(before, changes[..c])
    {
      ApplySnoc(before, changes[..c], changes[c]);
      assert changes[..c + 1] == changes[..c] + [changes[c]];
      if changes[c].0 == 1 {
        active := active + {changes[c].1};
      } else {
        active := active - {changes[c].1};
      }
    }
    assert changes[..|changes|] == changes;
  }

  ghost predicate AreStamps(events: seq<Event>, stamps: seq<int>) {
    && Ascending(stamps)
    && forall t :: t in stamps <==> Boundary(events, |events|, t)
  }

  lemma SweepsBoundaries(events: seq<Event>, boundaries: map<int, seq<(int, nat)>>, stamps: seq<int>)
    requires IsIndex(events, |events|, boundaries)
    requires Ascending(stamps) && forall t :: t in stamps <==> t in boundaries.Keys
    ensures AreStamps(events, stamps)
  {
    forall t ensures t in stamps <==> Boundary(events, |events|, t) {
      ChangesNonEmpty(events, |events|, t);
    }
  }

  lemma IndexAt(events: seq<Event>, boundaries: map<int, seq<(int, nat)>>, stamps: seq<int>, k: nat)
    requires IsIndex(events, |events|, boundaries) && AreStamps(events, stamps) && k < |stamps|
    ensures stamps[k] in boundaries && boundaries[stamps[k]] == ChangesAt(events, |events|, stamps[k])
  {
    assert stamps[k] in stamps;
    ChangesNonEmpty(events, |events|, stamps[k]);
  }

  /** Stamps lie in the extent, in ascending order. */
  lemma StampsAscend(events: seq<Event>, stamps: seq<int>, k: nat)
    requires WellFormed(events) && AreStamps(events, stamps) && 0 < k < |stamps|
    ensures Earliest(events) <= stamps[k - 1] < stamps[k]
  {
    StampExtent(events, stamps);
    hide WellFormed, Boundary, Earliest, Latest;
  }

  lemma NothingCharged(events: seq<Event>, lo: int)
    ensures Tally(events, map[], lo, lo)
  {
  }

  lemma NoExtent(events: seq<Event>)
    ensures events == [] ==> Earliest(events) == Latest(events)
  {
  }

  lemma NoBoundaryBetween(events: seq<Event>, stamps: seq<int>, k: nat)
    requires AreStamps(events, stamps) && 0 < k < |stamps|
    ensures forall b :: stamps[k - 1] < b < stamps[k] ==> !Boundary(events, |events|, b)
  {
    forall b | stamps[k - 1] < b < stamps[k] ensures b !in stamps {
      if b in stamps {
        StampPosition(stamps, k, b);
      }
    }
  }

  /** The changes at a stamp turn the spans covering the previous stamp into those covering this one. */
  lemma ActiveIsCovering(events: seq<Event>, stamps: seq<int>, k: nat, before: set<nat>)
    requires WellFormed(events) && AreStamps(events, stamps) && k < |stamps|
    requires before == if k == 0 then {} else Covering(events, stamps[k - 1])
    ensures Apply(before, ChangesAt(events, |events|, stamps[k])) == Covering(events, stamps[k])
  {
    var stamp := stamps[k];
    var after := Apply(before, ChangesAt(events, |events|, stamp));
    forall i: nat ensures i in after <==> i in Covering(events, stamp) {
      ApplyChangesAt(events, |events|, stamp, before, i);
      if i < |events| {
        var e := events[i];
        assert Boundary(events, |events|, e.start) && Boundary(events, |events|, e.end);
        StampPosition(stamps, k, e.start);
        StampPosition(stamps, k, e.end);
      }
    }
  }

  lemma StampPosition(stamps: seq<int>, k: nat, t: int)
    requires Ascending(stamps) && k < |stamps| && t in stamps
    ensures t < stamps[k] ==> k > 0 && t <= stamps[k - 1]
  {
    var i :| 0 <= i < |stamps| && stamps[i] == t;
    assert i < k ==> k > 0 && stamps[i] <= stamps[k - 1];
    assert i >= k ==> stamps[i] >= stamps[k];
  }

  lemma {:induction false} ExtentIsBoundary(events: seq<Event>)
    requires events != []
    ensures Boundary(events, |events|, Earliest(events)) && Boundary(events, |events|, Latest(events))
    decreases |events|
  {
    var n := |events| - 1;
    if n == 0 {
      assert events[0].start == Earliest(events) && events[0].end == Latest(events);
    } else {
      ExtentIsBoundary(events[..n]);
      var i :| 0 <= i < n
          && (events[..n][i].start == Earliest(events[..n]) || events[..n][i].end == Earliest(events[..n]));
      var j :| 0 <= j < n && (events[..n][j].start == Latest(events[..n]) || events[..n][j].end == Latest(events[..n]));
      assert events[i] == events[..n][i] && events[j] == events[..n][j] && events[n] == events[n];
    }
  }

  /** The first and last stamps are the ends of the recorded extent. */
  lemma StampExtent(events: seq<Event>, stamps: seq<int>)
    requires WellFormed(events) && AreStamps(events, stamps)
    ensures |stamps| == 0 <==> events == []
    ensures |stamps| > 0 ==> stamps[0] == Earliest(events) && stamps[|stamps| - 1] == Latest(events)
  {
    if |stamps| > 0 {
      assert stamps[0] in stamps;
    }
    if events != [] {
      ExtentIsBoundary(events);
      assert Earliest(events) in stamps && Latest(events) in stamps;
      var last := stamps[|stamps| - 1];
      assert stamps[0] in stamps && last in stamps;
      var i :| 0 <= i < |events| && (events[i].start == stamps[0] || events[i].end == stamps[0]);
      Extent(events, i);
      var j :| 0 <= j < |events| && (events[j].start == last || events[j].end == last);
      Extent(events, j);
    }
  }

  lemma EmptyIsZero(s: set<int>)
    ensures s == {} <==> |s| == 0
  {
  }

  /** Charging one interval to the winner's name carries the tally from one stamp to the next. */
  lemma TallyInterval(events: seq<Event>, result: map<string, int>, lo: int, previous: int, stamp: int, winner: nat)
    requires lo <= previous < stamp
    requires forall b :: previous < b < stamp ==> !Boundary(events, |events|, b)
    requires Wins(events, winner, Covering(events, previous))
    requires Tally(events, result, lo, previous)
    ensures var name := events[winner].name;
            Tally(events, result[name := (if name in result then result[name] else 0) + stamp - previous], lo, stamp)
  {
    var name := events[winner].name;
    var next := result[name := (if name in result then result[name] else 0) + stamp - previous];
    forall n ensures (n in next <==> ChargedTimes(events, n, lo, stamp) != {})
                     && (n in next ==> next[n] == |ChargedTimes(events, n, lo, stamp)|) {
      ChargeInterval(events, lo, previous, stamp, winner, n);
      EmptyIsZero(ChargedTimes(events, n, lo, stamp));
      EmptyIsZero(ChargedTimes(events, n, lo, previous));
    }
  }

  lemma TallyIdle(events: seq<Event>, result: map<string, int>, lo: int, previous: int, stamp: int)
    requires lo <= previous < stamp
    requires forall b :: previous < b < stamp ==> !Boundary(events, |events|, b)
    requires Covering(events, previous) == {}
    requires Tally(events, result, lo, previous)
    ensures Tally(events, result, lo, stamp)
  {
    forall n ensures ChargedTimes(events, n, lo, stamp) == ChargedTimes(events, n, lo, previous) {
      IdleInterval(events, lo, previous, stamp, n);
    }
  }

  // ---------------------------------------------------------------- partition of the union of spans

  ghost function CoveredTimes(events: seq<Event>): set<int> {
    set t: int | Earliest(events) <= t < Latest(events) && Covering(events, t) != {}
  }

  ghost function Sum(result: map<string, int>, names: set<string>): int
    requires names <= result.Keys
  {
    if names == {} then 0
    else
      var name := Pick(names);
      result[name] + Sum(result, names - {name})
  }

  ghost function Pick(names: set<string>): string
    requires names != {}
    ensures Pick(names) in names
  {
    var name :| name in names; name
  }

  lemma {:induction false} SomeWinner(events: seq<Event>, among: set<nat>) returns (winner: nat)
    requires among != {} && forall i :: i in among ==> i < |events|
    ensures Wins(events, winner, among)
    decreases among
  {
    var i :| i in among;
    var rest := among - {i};
    winner := i;
    if rest != {} {
      var other := SomeWinner(events, rest);
      winner := if Precedes(events, i, other) then i else other;
    }
    assert forall j :: j in among ==> j == i || j in rest;
  }

  ghost predicate ChargedSome(events: seq<Event>, names: set<string>, t: int) {
    exists name :: name in names && Charged(events, name, t)
  }

  ghost function ChargedToAny(events: seq<Event>, names: set<string>): set<int> {
    set t: int | Earliest(events) <= t < Latest(events) && ChargedSome(events, names, t)
  }

  lemma {:induction false} SumIsMeasure(events: seq<Event>, result: map<string, int>, names: set<string>)
    requires Tally(events, result, Earliest(events), Latest(events)) && names <= result.Keys
    ensures Sum(result, names) == |ChargedToAny(events, names)|
    decreases names
  {
    if names == {} {
      assert ChargedToAny(events, names) == {};
    } else {
      var name := Pick(names);
      var rest := names - {name};
      SumIsMeasure(events, result, rest);
      var mine := ChargedTimes(events, name, Earliest(events), Latest(events));
      var others := ChargedToAny(events, rest);
      forall t ensures t in ChargedToAny(events, names) <==> t in mine || t in others {
        assert ChargedSome(events, names, t) <==> Charged(events, name, t) || ChargedSome(events, rest, t);
      }
      assert ChargedToAny(events, names) == mine + others;
      forall t | t in mine ensures t !in others {
        OneNameCharged(events, name, rest, t);
      }
      assert mine !! others;
    }
  }

  lemma OneNameCharged(events: seq<Event>, name: string, others: set<string>, t: int)
    requires Charged(events, name, t) && name !in others
    ensures !ChargedSome(events, others, t)
  {
    if ChargedSome(events, others, t) {
      var other :| other in others && Charged(events, other, t);
      var i: nat :| Wins(events, i, Covering(events, t)) && events[i].name == name;
      var j: nat :| Wins(events, j, Covering(events, t)) && events[j].name == other;
      WinnerUnique(events, i, j, Covering(events, t));
    }
  }

  /** The exclusive times of all names add up to the measure of the union of the recorded spans. */
  lemma ExclusiveTimesPartitionUnion(events: seq<Event>, result: map<string, int>)
    requires WellFormed(events)
    requires Tally(events, result, Earliest(events), Latest(events))
    ensures Sum(result, result.Keys) == |CoveredTimes(events)|
  {
    hide *;
    SumIsMeasure(events, result, result.Keys);
    ChargedIsCovered(events, result);
  }

  lemma ChargedIsCovered(events: seq<Event>, result: map<string, int>)
    requires WellFormed(events) && Tally(events, result, Earliest(events), Latest(events))
    ensures ChargedToAny(events, result.Keys) == CoveredTimes(events)
  {
    hide WellFormed, Tally, Earliest, Latest, Covering, ChargedSome;
    forall t | Earliest(events) <= t < Latest(events)
      ensures Covering(events, t) != {} <==> ChargedSome(events, result.Keys, t)
    {
      CoveredIsCharged(events, result, t);
    }
  }

  /** Some name is charged at an instant exactly when a span covers it. */
  lemma CoveredIsCharged(events: seq<Event>, result: map<string, int>, t: int)
    requires WellFormed(events) && Tally(events, result, Earliest(events), Latest(events))
    requires Earliest(events) <= t < Latest(events)
    ensures Covering(events, t) != {} <==> ChargedSome(events, result.Keys, t)
  {
    if Covering(events, t) != {} {
      var winner := SomeWinner(events, Covering(events, t));
      assert Charged(events, events[winner].name, t);
      assert t in ChargedTimes(events, events[winner].name, Earliest(events), Latest(events));
    }
  }

  /** Nothing is recorded outside the extent, so the union above is the whole union. */
  lemma NothingOutsideExtent(events: seq<Event>, t: int)
    requires Covering(events, t) != {}
    ensures t in CoveredTimes(events)
  {
    var i :| i in Covering(events, t);
    Extent(events, i);
  }

  // ---------------------------------------------------------------- what one more span changes

  lemma CoveringNext(events: seq<Event>, e: Event, t: int)
    ensures Covering(events + [e], t) == Covering(events, t) + if Covers(e, t) then {|events|} else {}
    ensures forall i: nat, j: nat :: i < |events| && j < |events| ==>
        (Precedes(events + [e], i, j) <==> Precedes(events, i, j))
  {
    var more := events + [e];
    forall i: nat | i < |events| ensures more[i] == events[i] {
    }
  }

  /** Some span covering t is chosen before this new one. */
  ghost predicate Outranked(events: seq<Event>, e: Event, t: int) {
    exists i: nat :: i in Covering(events, t) && Precedes(events + [e], i, |events|)
  }

  lemma WinsAlike(events: seq<Event>, e: Event, t: int, i: nat)
    requires i < |events| && (Covers(e, t) ==> Outranked(events, e, t))
    ensures Wins(events + [e], i, Covering(events + [e], t)) <==> Wins(events, i, Covering(events, t))
  {
    CoveringNext(events, e, t);
  }

  lemma NewestLoses(events: seq<Event>, e: Event, t: int)
    requires Covers(e, t) ==> Outranked(events, e, t)
    ensures !Wins(events + [e], |events|, Covering(events + [e], t))
  {
    CoveringNext(events, e, t);
    if Covers(e, t) {
      var i: nat :| i in Covering(events, t) && Precedes(events + [e], i, |events|);
      assert i in Covering(events + [e], t);
    }
  }

  lemma NewestWins(events: seq<Event>, e: Event, t: int)
    requires Covers(e, t) && !Outranked(events, e, t)
    ensures Wins(events + [e], |events|, Covering(events + [e], t))
  {
    CoveringNext(events, e, t);
    var more, all := events + [e], Covering(events + [e], t);
    forall j | j in all ensures j < |more| && Precedes(more, |events|, j) {
      if j < |events| {
        assert j in Covering(events, t);
      }
    }
  }

  lemma ChargedBy(events: seq<Event>, name: string, t: int) returns (i: nat)
    requires Charged(events, name, t)
    ensures i < |events| && Wins(events, i, Covering(events, t)) && events[i].name == name
  {
    i :| Wins(events, i, Covering(events, t)) && events[i].name == name;
  }

  /** A further span takes over exactly the instants it covers and at which no earlier span is chosen before it; every
      other
      instant keeps its charge. */
  lemma SpanTakesOver(events: seq<Event>, e: Event, name: string, t: int)
    ensures Charged(events + [e], name, t) <==>
            if Covers(e, t) && !Outranked(events, e, t) then name == e.name else Charged(events, name, t)
  {
    var more, all := events + [e], Covering(events + [e], t);
    var takes := Covers(e, t) && !Outranked(events, e, t);
    hide Outranked, Wins, Covering;
    if takes {
      NewestWins(events, e, t);
    } else {
      NewestLoses(events, e, t);
    }
    if Charged(more, name, t) {
      var i := ChargedBy(more, name, t);
      if takes {
        WinnerUnique(more, i, |events|, all);
      } else {
        WinsAlike(events, e, t, i);
      }
    }
    if !takes && Charged(events, name, t) {
      var i := ChargedBy(events, name, t);
      WinsAlike(events, e, t, i);
      assert more[i].name == name;
    }
  }

  /** One interval of the sweep: the time since the previous stamp goes to the winner among the active spans. */
  method Charge(events: seq<Event>, result: map<string, int>, ghost lo: int, active: set<nat>, previous: int,
                stamp: int)
    returns (charged: map<string, int>)
    requires lo <= previous < stamp
    requires forall b :: previous < b < stamp ==> !Boundary(events, |events|, b)
    requires active == Covering(events, previous)
    requires Tally(events, result, lo, previous)
    ensures Tally(events, charged, lo, stamp)
  {
    if active != {} {
      var selected := SelectWinner(events, active);
      var name := events[selected].name;
      TallyInterval(events, result, lo, previous, stamp, selected);
      charged := result[name := (if name in result then result[name] else 0) + stamp - previous];
    } else {
      TallyIdle(events, result, lo, previous, stamp);
      charged := result;
    }
  }

  class PhaseTimer {
    var events: seq<Event>

    ghost predicate Valid()
      reads this
    {
      WellFormed(events)
    }

    constructor ()
      ensures Valid() && events == []
    {
      events := [];
    }

    /** Leaving a span appends it; a monotonic clock has end no earlier than start. */
    method Span(name: string, priority: int, start: int, end: int)
      requires Valid() && start <= end
      modifies this
      ensures Valid() && events == old(events) + [Event(name, start, end, priority)]
    {
      events := events + [Event(name, start, end, priority)];
    }

    /** Exclusive nanoseconds by name. */
    method BreakdownNs() returns (result: map<string, int>)
      requires Valid()
      ensures Tally(events, result, Earliest(events), Latest(events))
    {
      var boundaries := Boundaries(events);
      var stamps := SortedKeys(boundaries.Keys);
      SweepsBoundaries(events, boundaries, stamps);
      StampExtent(events, stamps);
      IsWellFormed();
      hide *;
      ghost var lo := Earliest(events);
      NothingCharged(events, lo);
      var active: set<nat> := {};
      result := map[];
      var previous := 0;
      for k := 0 to |stamps|
        invariant active == if k == 0 then {} else Covering(events, previous)
        invariant k > 0 ==> previous == stamps[k - 1]
        invariant Tally(events, result, lo, if k == 0 then lo else previous)
      {
        var stamp := stamps[k];
        IndexAt(events, boundaries, stamps, k);
        if k > 0 {
          NoBoundaryBetween(events, stamps, k);
          StampsAscend(events, stamps, k);
          result := Charge(events, result, lo, active, previous, stamp);
        }
        ActiveIsCovering(events, stamps, k, active);
        active := ApplyChanges(active, boundaries[stamp]);
        previous := stamp;
      }
      NoExtent(events);
    }

    lemma IsWellFormed()
      requires Valid()
      ensures WellFormed(events)
    {
    }
  }
}
