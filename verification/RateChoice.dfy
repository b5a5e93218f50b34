/** The rates and the profile of a mode are determined by the mode (vericcl/performance/simulation.py, _profile and
    _rates). */
module RateChoice {
  import opened Basics
  import opened CostModel
  import opened RealSums
  import opened Components
  import opened Rates

  lemma ComponentUnique(ops: Operations, keys: set<nat>, a: set<nat>, b: set<nat>, k: nat)
    requires IsComponent(ops, keys, a) && IsComponent(ops, keys, b) && k in a && k in b
    ensures a == b
  {
    hide Connected;
    forall x ensures x in a <==> x in b {
      assert x in keys ==> (x in a <==> Connected(ops, keys, k, x)) && (x in b <==> Connected(ops, keys, k, x));
    }
  }

  /** Two lists of the same operations. */
  ghost predicate SameMembers(g: seq<nat>, h: seq<nat>) {
    Elements(g) == Elements(h)
  }

  lemma MembersAre(g: seq<nat>, h: seq<nat>)
    requires SameMembers(g, h)
    ensures forall k: nat :: k in g <==> k in h
  {
    forall k: nat ensures k in g <==> k in h {
      assert k in Elements(g) <==> k in Elements(h);
    }
  }

  lemma FlowsDistinct(g: seq<nat>, ops: Operations)
    requires Known(g, ops) && FlowsDiffer(g, ops)
    ensures Distinct(g)
  {
  }

  lemma FlowsSame(g: seq<nat>, h: seq<nat>, ops: Operations)
    requires Known(g, ops) && Known(h, ops) && SameMembers(g, h) && Distinct(h) && FlowsDiffer(g, ops)
    ensures FlowsDiffer(h, ops)
  {
    MembersAre(g, h);
    forall i, j | 0 <= i < j < |h| ensures ops[h[i]].flow != ops[h[j]].flow {
      assert h[i] in g && h[j] in g;
      var a :| 0 <= a < |g| && g[a] == h[i];
      var b :| 0 <= b < |g| && g[b] == h[j];
      assert a < b ==> ops[g[a]].flow != ops[g[b]].flow;
      assert b < a ==> ops[g[b]].flow != ops[g[a]].flow;
    }
  }

  lemma AppliesSame(p: RateProfile, g: seq<nat>, h: seq<nat>, ops: Operations)
    requires Known(g, ops) && Known(h, ops) && SameMembers(g, h) && Distinct(g) && Distinct(h) && Applies(p, g, ops)
    ensures Applies(p, h, ops)
  {
    MembersAre(g, h);
    FlowsSame(g, h, ops);
    hide FlowsDiffer;
    assert (set k | k in g :: ops[k].flow) == (set k | k in h :: ops[k].flow);
    assert ResourcesOf(g, ops) == ResourcesOf(h, ops);
  }

  lemma MatchesSame(m: Model, g: seq<nat>, h: seq<nat>, ops: Operations, i: nat)
    requires Known(g, ops) && Known(h, ops) && SameMembers(g, h) && Distinct(g) && Distinct(h)
    ensures Matches(m, g, ops, i) <==> Matches(m, h, ops, i)
  {
    if Matches(m, g, ops, i) {
      AppliesSame(m.profiles[i], g, h, ops);
    }
    if Matches(m, h, ops, i) {
      AppliesSame(m.profiles[i], h, g, ops);
    }
  }

  /** At most one answer to the profile of a component, however it is listed. */
  lemma ProfileUnique(m: Model, g: seq<nat>, h: seq<nat>, ops: Operations,
                      a: Result<Option<RateProfile>, RateError>, b: Result<Option<RateProfile>, RateError>)
    requires Known(g, ops) && Known(h, ops) && SameMembers(g, h) && Distinct(g) && Distinct(h)
    requires IsProfileOf(m, g, ops, a) && IsProfileOf(m, h, ops, b)
    ensures a == b
  {
    hide Matches, SameMembers, Distinct;
    forall i: nat ensures Matches(m, g, ops, i) <==> Matches(m, h, ops, i) {
      MatchesSame(m, g, h, ops, i);
    }
  }

  lemma FairUnique(ops: Operations, keys: set<nat>, cost: ServiceCost, m: Model, k: nat, a: real, b: real)
    requires k in ops && k in keys && ops[k].resources <= m.resources.Keys && cost.Valid()
    requires IsFairRate(ops, keys, cost, m, k, a) && IsFairRate(ops, keys, cost, m, k, b)
    ensures a == b
  {
    hide Share;
  }

  lemma GroupUnique(ops: Operations, costs: map<nat, ServiceCost>, m: Model, g: seq<nat>, h: seq<nat>,
                    a: map<nat, real>, b: map<nat, real>, k: nat)
    requires Known(g, ops) && Known(h, ops) && SameMembers(g, h) && Costed(ops, costs, m, Elements(g))
    requires Costed(ops, costs, m, Elements(h))
    requires GroupRated(ops, costs, m, g, a) && GroupRated(ops, costs, m, h, b) && k in a
    ensures k in b && a[k] == b[k]
  {
    FlowsDistinct(g, ops);
    FlowsDistinct(h, ops);
    MembersAre(g, h);
    hide FlowsDiffer, IsProfileOf, IsFairRate, Distinct, Costed;
    if p :| IsProfileOf(m, g, ops, Ok(Some(p))) && ByProfile(p, ops, g, a) {
      ByProfileUnique(ops, costs, m, g, h, b, p);
      assert k in Elements(g);
    } else if q :| IsProfileOf(m, h, ops, Ok(Some(q))) && ByProfile(q, ops, h, b) {
      ProfileUnique(m, g, h, ops, Ok(None), Ok(Some(q)));
    } else {
      assert k in Elements(g) && k in Elements(h);
      CostedAt(ops, costs, m, Elements(g), k);
      FairUnique(ops, Elements(g), costs[k], m, k, a[k], b[k]);
    }
  }

  lemma CostedAt(ops: Operations, costs: map<nat, ServiceCost>, m: Model, keys: set<nat>, k: nat)
    requires Costed(ops, costs, m, keys) && k in keys
    ensures k in ops && k in costs && costs[k].Valid() && ops[k].resources <= m.resources.Keys
  {
  }

  lemma ByProfileUnique(ops: Operations, costs: map<nat, ServiceCost>, m: Model, g: seq<nat>, h: seq<nat>,
                        b: map<nat, real>, p: RateProfile)
    requires Known(g, ops) && Known(h, ops) && SameMembers(g, h) && Distinct(g) && Distinct(h)
    requires Costed(ops, costs, m, Elements(h))
    requires IsProfileOf(m, g, ops, Ok(Some(p))) && GroupRated(ops, costs, m, h, b)
    ensures ByProfile(p, ops, h, b)
  {
    hide FlowsDiffer, IsProfileOf, IsFairRate, Distinct, Costed, ByProfile;
    if q :| IsProfileOf(m, h, ops, Ok(Some(q))) && ByProfile(q, ops, h, b) {
      ProfileUnique(m, g, h, ops, Ok(Some(p)), Ok(Some(q)));
    } else {
      ProfileUnique(m, g, h, ops, Ok(Some(p)), Ok(None));
    }
  }

  lemma CommunicatingUnique(ops: Operations, costs: map<nat, ServiceCost>, m: Model, active: set<nat>,
                            a: map<nat, real>, b: map<nat, real>, k: nat)
    requires Costed(ops, costs, m, active) && Rated(ops, costs, m, active, a) && Rated(ops, costs, m, active, b)
    requires k in Communicating(ops, active)
    ensures k in a && k in b && a[k] == b[k]
  {
    hide GroupRated, IsComponent, WithinCapacity;
    var keys := Communicating(ops, active);
    assert RatedInGroup(ops, costs, m, keys, k, a) && RatedInGroup(ops, costs, m, keys, k, b);
    var g: seq<nat> :| k in g && Known(g, ops) && IsComponent(ops, keys, Elements(g))
        && Costed(ops, costs, m, Elements(g))
                       && GroupRated(ops, costs, m, g, Restrict(a, Elements(g)));
    var h: seq<nat> :| k in h && Known(h, ops) && IsComponent(ops, keys, Elements(h))
        && Costed(ops, costs, m, Elements(h))
                       && GroupRated(ops, costs, m, h, Restrict(b, Elements(h)));
    ComponentUnique(ops, keys, Elements(g), Elements(h), k);
    assert k in Restrict(a, Elements(g));
    GroupUnique(ops, costs, m, g, h, Restrict(a, Elements(g)), Restrict(b, Elements(h)), k);
  }

  /** A mode has at most one rate vector. */
  lemma RatedUnique(ops: Operations, costs: map<nat, ServiceCost>, m: Model, active: set<nat>, a: map<nat, real>,
                    b: map<nat, real>)
    requires Costed(ops, costs, m, active) && Rated(ops, costs, m, active, a) && Rated(ops, costs, m, active, b)
    ensures a == b
  {
    hide RatedInGroup, WithinCapacity;
    forall k | k in active ensures k in a && k in b && a[k] == b[k] {
      if ops[k].Communicates() {
        assert k in Communicating(ops, active);
        CommunicatingUnique(ops, costs, m, active, a, b, k);
      }
    }
  }

  // ---------------------------------------------------------------- refusals

  /** A refused component has no rates of its own. */
  lemma RefusedGroup(ops: Operations, costs: map<nat, ServiceCost>, m: Model, g: seq<nat>, h: seq<nat>,
                     a: map<nat, real>, e: RateError)
    requires Known(g, ops) && Known(h, ops) && SameMembers(g, h) && Distinct(g) && Costed(ops, costs, m, Elements(h))
    requires Refused(ops, m, g, e) && GroupRated(ops, costs, m, h, a)
    ensures exists r ::
        e == OverCapacity(r) && r in m.resources && Total(a, Users(ops, Elements(h), r)) > m.resources[r]
  {
    FlowsDistinct(h, ops);
    hide IsFairRate, Costed;
    match e
    case SharedFlow =>
      FlowsSame(h, g, ops);
    case AmbiguousProfile =>
      hide FlowsDiffer, IsProfileOf, Distinct;
      if p :| IsProfileOf(m, h, ops, Ok(Some(p))) && ByProfile(p, ops, h, a) {
        ProfileUnique(m, g, h, ops, Err(AmbiguousProfile), Ok(Some(p)));
      } else {
        ProfileUnique(m, g, h, ops, Err(AmbiguousProfile), Ok(None));
      }
    case OverCapacity(r) =>
      hide FlowsDiffer, IsProfileOf, Distinct;
      var p, rates: map<nat, real> :|
        IsProfileOf(m, g, ops, Ok(Some(p))) && ByProfile(p, ops, g, rates)
        && r in m.resources && Total(rates, Users(ops, Elements(g), r)) > m.resources[r];
      ByProfileUnique(ops, costs, m, g, h, a, p);
      TotalSame(a, rates, Users(ops, Elements(h), r));
  }

  /** All users of a resource are in the component of any one of them. */
  lemma UsersOfComponent(ops: Operations, active: set<nat>, group: set<nat>, r: nat)
    requires ValidOperations(ops) && IsComponent(ops, Communicating(ops, active), group) && Users(ops, group, r) != {}
    ensures Users(ops, active, r) == Users(ops, group, r)
  {
    var keys := Communicating(ops, active);
    ComponentApart(ops, keys, group);
    hide IsComponent;
    var x :| x in Users(ops, group, r);
    forall y | y in Users(ops, active, r) ensures y in group {
      assert ops[y].Valid();
      assert y in keys;
      assert r in ops[x].resources * ops[y].resources;
      assert Linked(ops, x, y);
    }
    assert group <= keys by {
      ComponentWithin(ops, keys, group);
    }
  }

  lemma ComponentWithin(ops: Operations, keys: set<nat>, group: set<nat>)
    requires IsComponent(ops, keys, group)
    ensures group <= keys && group != {}
  {
    hide Connected;
  }

  lemma OverfullIsUnrated(ops: Operations, m: Model, active: set<nat>, group: set<nat>, a: map<nat, real>, r: nat)
    requires ValidOperations(ops) && m.Valid() && IsComponent(ops, Communicating(ops, active), group)
    requires a.Keys == active && r in m.resources
    requires Restrict(a, group).Keys == group && Total(Restrict(a, group), Users(ops, group, r)) > m.resources[r]
    ensures !WithinCapacity(ops, m, a)
  {
    hide IsComponent, ValidOperations;
    SomeTotal(Restrict(a, group), Users(ops, group, r), m.resources[r]);
    UsersOfComponent(ops, active, group, r);
    TotalSame(Restrict(a, group), a, Users(ops, group, r));
  }

  lemma SomeTotal(a: map<nat, real>, users: set<nat>, cap: real)
    requires users <= a.Keys && Total(a, users) > cap > 0.0
    ensures users != {}
  {
  }

  /** A mode with a refused component has no rates. */
  lemma RefusedIsUnrated(ops: Operations, costs: map<nat, ServiceCost>, m: Model, active: set<nat>, a: map<nat, real>,
                         e: RateError)
    requires ValidOperations(ops) && Costed(ops, costs, m, active)
    requires SomeGroupRefused(ops, m, Communicating(ops, active), e)
    ensures !Rated(ops, costs, m, active, a)
  {
    hide ValidOperations, IsComponent, GroupRated, WithinCapacity, Refused;
    var keys := Communicating(ops, active);
    var g: seq<nat> :| Known(g, ops) && Distinct(g) && IsComponent(ops, keys, Elements(g)) && Refused(ops, m, g, e);
    ComponentWithin(ops, keys, Elements(g));
    var k :| k in Elements(g);
    if Rated(ops, costs, m, active, a) {
      assert RatedInGroup(ops, costs, m, keys, k, a);
      var h: seq<nat> :| k in h && Known(h, ops) && IsComponent(ops, keys, Elements(h))
          && Costed(ops, costs, m, Elements(h))
                         && GroupRated(ops, costs, m, h, Restrict(a, Elements(h)));
      ComponentUnique(ops, keys, Elements(g), Elements(h), k);
      RefusedGroup(ops, costs, m, g, h, Restrict(a, Elements(h)), e);
      var r :| e == OverCapacity(r) && r in m.resources
          && Total(Restrict(a, Elements(h)), Users(ops, Elements(h), r)) > m.resources[r];
      ComponentWithin(ops, keys, Elements(h));
      OverfullIsUnrated(ops, m, active, Elements(h), a, r);
    }
  }

  /** Every component of a mode has its profile decided. */
  ghost predicate Decided(ops: Operations, m: Model, mode: set<nat>) {
    forall k :: k in Communicating(ops, mode) ==> exists found :: DecidedFor(ops, m, mode, k, found)
  }

  /** The profile, if any, of the component of k in a mode. */
  ghost predicate DecidedFor(ops: Operations, m: Model, mode: set<nat>, k: nat, found: Option<RateProfile>) {
    exists group: seq<nat> ::
      && k in group && Known(group, ops) && Distinct(group)
      && IsComponent(ops, Communicating(ops, mode), Elements(group))
      && IsProfileOf(m, group, ops, Result<Option<RateProfile>, RateError>.Ok(found))
  }

  lemma DecidedUnique(ops: Operations, m: Model, mode: set<nat>, other: set<nat>, k: nat, a: Option<RateProfile>,
                      b: Option<RateProfile>)
    requires Communicating(ops, mode) == Communicating(ops, other)
    requires DecidedFor(ops, m, mode, k, a) && DecidedFor(ops, m, other, k, b)
    ensures a == b
  {
    hide IsComponent, IsProfileOf;
    var keys := Communicating(ops, mode);
    var g: seq<nat> :| k in g && Known(g, ops) && Distinct(g) && IsComponent(ops, keys, Elements(g))
        && IsProfileOf(m, g, ops, Result<Option<RateProfile>, RateError>.Ok(a));
    var h: seq<nat> :| k in h && Known(h, ops) && Distinct(h) && IsComponent(ops, keys, Elements(h))
        && IsProfileOf(m, h, ops, Result<Option<RateProfile>, RateError>.Ok(b));
    ComponentUnique(ops, keys, Elements(g), Elements(h), k);
    ProfileUnique(m, g, h, ops, Ok(a), Ok(b));
  }

  /** A mode in which several profiles fit one component is undecided. */
  lemma AmbiguousIsUndecided(ops: Operations, m: Model, mode: set<nat>, g: seq<nat>)
    requires Known(g, ops) && Distinct(g) && IsComponent(ops, Communicating(ops, mode), Elements(g))
    requires IsProfileOf(m, g, ops, Err(AmbiguousProfile))
    ensures !Decided(ops, m, mode)
  {
    hide IsComponent, IsProfileOf;
    var keys := Communicating(ops, mode);
    ComponentWithin(ops, keys, Elements(g));
    var k :| k in Elements(g);
    if Decided(ops, m, mode) {
      var found :| DecidedFor(ops, m, mode, k, found);
      var h: seq<nat> :| k in h && Known(h, ops) && Distinct(h) && IsComponent(ops, keys, Elements(h))
          && IsProfileOf(m, h, ops, Result<Option<RateProfile>, RateError>.Ok(found));
      ComponentUnique(ops, keys, Elements(g), Elements(h), k);
      ProfileUnique(m, g, h, ops, Err(AmbiguousProfile), Ok(found));
    }
  }

  lemma DecidedSame(ops: Operations, m: Model, mode: set<nat>, other: set<nat>)
    requires Communicating(ops, mode) == Communicating(ops, other) && Decided(ops, m, mode)
    ensures Decided(ops, m, other)
  {
    hide IsComponent, IsProfileOf;
    forall k | k in Communicating(ops, other) ensures exists found :: DecidedFor(ops, m, other, k, found) {
      var found :| DecidedFor(ops, m, mode, k, found);
      var h: seq<nat> :| k in h && Known(h, ops) && Distinct(h)
          && IsComponent(ops, Communicating(ops, mode), Elements(h))
                         && IsProfileOf(m, h, ops, Result<Option<RateProfile>, RateError>.Ok(found));
      assert DecidedFor(ops, m, other, k, found);
    }
  }
}
