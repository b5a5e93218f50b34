/** Byte rates of concurrently active operations (vericcl/performance/simulation.py, _profile and _rates). */
module Rates {
  import opened Basics
  import opened CostModel
  import opened RealSums
  import opened Components

  datatype RateError =
    | SharedFlow                     // two competing operations carry one flow identity
    | AmbiguousProfile               // several profiles apply to one mode
    | OverCapacity(resource: nat)    // a measured rate vector exceeds a resource

  ghost function Users(ops: Operations, keys: set<nat>, r: nat): set<nat> {
    set k | k in keys && k in ops && r in ops[k].resources
  }

  /** The least of the operation's own service rate and its equal share of each resource it uses. */
  ghost predicate IsFairRate(ops: Operations, keys: set<nat>, cost: ServiceCost, m: Model, k: nat, rate: real)
    requires k in ops && k in keys && ops[k].resources <= m.resources.Keys && cost.Valid()
  {
    && rate <= 1.0 / cost.beta
    && (forall r :: r in ops[k].resources ==> rate <= Share(ops, keys, m, k, r))
    && (rate == 1.0 / cost.beta || exists r :: r in ops[k].resources && rate == Share(ops, keys, m, k, r))
  }

  ghost function Share(ops: Operations, keys: set<nat>, m: Model, k: nat, r: nat): real
    requires k in ops && k in keys && r in ops[k].resources && r in m.resources
  {
    assert k in Users(ops, keys, r);
    m.resources[r] / (|Users(ops, keys, r)| as real)
  }

  /** Operations whose service cost and resource capacities are known. */
  ghost predicate Costed(ops: Operations, costs: map<nat, ServiceCost>, m: Model, keys: set<nat>) {
    && m.Valid()
    && forall k :: k in keys ==> k in ops && k in costs && costs[k].Valid() && ops[k].resources <= m.resources.Keys
  }

  ghost predicate WithinCapacity(ops: Operations, m: Model, rates: map<nat, real>) {
    forall r :: r in m.resources ==> Total(rates, Users(ops, rates.Keys, r)) <= m.resources[r]
  }

  // ---------------------------------------------------------------- profiles

  ghost predicate Matches(m: Model, group: seq<nat>, ops: Operations, i: nat)
    requires Known(group, ops)
  {
    i < |m.profiles| && Applies(m.profiles[i], group, ops)
  }

  /** The one profile that applies, none, or an error when several do. */
  ghost predicate IsProfileOf(m: Model, group: seq<nat>, ops: Operations, found: Result<Option<RateProfile>, RateError>)
    requires Known(group, ops)
  {
    match found
    case Ok(None) => forall i: nat :: !Matches(m, group, ops, i)
    case Ok(Some(p)) => exists i: nat :: Matches(m, group, ops, i) && p == m.profiles[i]
                                         && forall j: nat :: Matches(m, group, ops, j) ==> j == i
    case Err(e) =>
      && e == AmbiguousProfile
      && exists i: nat, j: nat :: i < j && Matches(m, group, ops, i) && Matches(m, group, ops, j)
  }

  ghost predicate Ascending(s: seq<nat>) {
    forall x, y :: 0 <= x < y < |s| ==> s[x] < s[y]
  }

  method ProfileOf(m: Model, group: seq<nat>, ops: Operations) returns (found: Result<Option<RateProfile>, RateError>)
    requires Known(group, ops)
    ensures IsProfileOf(m, group, ops, found)
  {
    var matches: seq<nat> := [];
    for i := 0 to |m.profiles|
      invariant forall x :: x in matches ==> x < i
      invariant forall x: nat :: x < i ==> (x in matches <==> Matches(m, group, ops, x))
      invariant Ascending(matches)
    {
      assert Matches(m, group, ops, i) <==> Applies(m.profiles[i], group, ops);
      ghost var before := matches;
      if Applies(m.profiles[i], group, ops) {
        matches := matches + [i];
        assert Ascending(matches) by {
          forall x | 0 <= x < |before| ensures before[x] < i {
            assert before[x] in before;
          }
        }
      }
      forall x: nat | x < i + 1 ensures x in matches <==> Matches(m, group, ops, x) {
        assert x in before ==> x < i;
      }
    }
    if |matches| > 1 {
      assert matches[0] in matches && matches[1] in matches;
      return Err(AmbiguousProfile);
    }
    if |matches| == 0 {
      return Ok(None);
    }
    assert matches[0] in matches;
    return Ok(Some(m.profiles[matches[0]]));
  }

  // ---------------------------------------------------------------- fair sharing

  method CountUsers(ops: Operations, group: seq<nat>, r: nat) returns (count: nat)
    requires Known(group, ops) && Distinct(group)
    ensures count == |Users(ops, Elements(group), r)|
  {
    count := 0;
    assert Users(ops, Elements(group[..0]), r) == {};
    for i := 0 to |group|
      invariant count == |Users(ops, Elements(group[..i]), r)|
    {
      ScanSplit(group, i);
      UsersSnoc(ops, Elements(group[..i]), group[i], r);
      if r in ops[group[i]].resources {
        count := count + 1;
      }
    }
    assert group[..|group|] == group;
  }

  lemma UsersSnoc(ops: Operations, keys: set<nat>, k: nat, r: nat)
    requires k in ops && k !in keys
    ensures Users(ops, keys + {k}, r)
        == if r in ops[k].resources then Users(ops, keys, r) + {k} else Users(ops, keys, r)
    ensures k !in Users(ops, keys, r)
  {
  }

  method FairRate(ops: Operations, group: seq<nat>, cost: ServiceCost, m: Model, k: nat) returns (rate: real)
    requires Known(group, ops) && Distinct(group) && k in group
    requires cost.Valid() && m.Valid() && ops[k].resources <= m.resources.Keys
    ensures k in Elements(group) && IsFairRate(ops, Elements(group), cost, m, k, rate)
    ensures rate > 0.0
  {
    rate := 1.0 / cost.beta;
    assert k in Elements(group);
    ghost var keys := Elements(group);
    var rest := ops[k].resources;
    while rest != {}
      invariant rest <= ops[k].resources
      invariant rate > 0.0 && rate <= 1.0 / cost.beta
      invariant forall r :: r in ops[k].resources && r !in rest ==> rate <= Share(ops, keys, m, k, r)
      invariant rate == 1.0 / cost.beta || exists r :: r in ops[k].resources && rate == Share(ops, keys, m, k, r)
      decreases |rest|
    {
      var r :| r in rest;
      var count := CountUsers(ops, group, r);
      assert k in Users(ops, keys, r);
      SharePositive(m.resources[r], count);
      var share := m.resources[r] / (count as real);
      assert share == Share(ops, keys, m, k, r);
      if share < rate {
        rate := share;
      }
      rest := rest - {r};
    }
  }

  lemma SharePositive(capacity: real, count: nat)
    requires capacity > 0.0 && count > 0
    ensures capacity / (count as real) > 0.0
    ensures (capacity / (count as real)) * (count as real) == capacity
  {
  }

  /** Equal shares of a resource never add up to more than it has. */
  lemma FairSharesFit(ops: Operations, costs: map<nat, ServiceCost>, m: Model, keys: set<nat>, rates: map<nat, real>,
                      r: nat)
    requires Costed(ops, costs, m, keys) && rates.Keys == keys && r in m.resources
    requires forall k :: k in keys ==> IsFairRate(ops, keys, costs[k], m, k, rates[k])
    ensures Total(rates, Users(ops, keys, r)) <= m.resources[r]
  {
    var users := Users(ops, keys, r);
    if users != {} {
      forall k | k in users ensures rates[k] <= m.resources[r] / (|users| as real) {
        assert rates[k] <= Share(ops, keys, m, k, r);
      }
      EqualParts(rates, users, m.resources[r]);
    }
  }

  lemma EqualParts(rates: map<nat, real>, users: set<nat>, capacity: real)
    requires users != {} && users <= rates.Keys && capacity > 0.0
    requires forall k :: k in users ==> rates[k] <= capacity / (|users| as real)
    ensures Total(rates, users) <= capacity
  {
    hide *;
    NonemptySize(users);
    SharePositive(capacity, |users|);
    TotalAtMost(rates, users, capacity / (|users| as real));
  }

  lemma NonemptySize(s: set<nat>)
    requires s != {}
    ensures |s| > 0
  {
  }

  // ---------------------------------------------------------------- one component

  ghost predicate ByProfile(p: RateProfile, ops: Operations, group: seq<nat>, rates: map<nat, real>)
    requires Known(group, ops)
  {
    && rates.Keys == Elements(group)
    && forall k :: k in group ==> ops[k].flow in p.rates && rates[k] == p.rates[ops[k].flow]
  }

  /** The sum of profile rates through one resource. */
  method Assigned(ops: Operations, group: seq<nat>, rates: map<nat, real>, r: nat) returns (sum: real)
    requires Known(group, ops) && Distinct(group) && rates.Keys == Elements(group)
    ensures sum == Total(rates, Users(ops, Elements(group), r))
  {
    sum := 0.0;
    assert Users(ops, Elements(group[..0]), r) == {};
    for i := 0 to |group|
      invariant Users(ops, Elements(group[..i]), r) <= rates.Keys
      invariant sum == Total(rates, Users(ops, Elements(group[..i]), r))
    {
      ScanSplit(group, i);
      UsersSnoc(ops, Elements(group[..i]), group[i], r);
      assert group[i] in rates;
      if r in ops[group[i]].resources {
        TotalAdd(rates, Users(ops, Elements(group[..i]), r), group[i]);
        sum := sum + rates[group[i]];
      }
    }
    assert group[..|group|] == group;
  }

  /** What one component is given: a measured vector that fits, or fair shares. */
  ghost predicate GroupRated(ops: Operations, costs: map<nat, ServiceCost>, m: Model, group: seq<nat>,
                             rates: map<nat, real>)
    requires Known(group, ops) && Costed(ops, costs, m, Elements(group))
  {
    && rates.Keys == Elements(group)
    && FlowsDiffer(group, ops)
    && (forall k :: k in rates ==> rates[k] > 0.0)
    && ((exists p :: IsProfileOf(m, group, ops, Ok(Some(p))) && ByProfile(p, ops, group, rates))
        || (IsProfileOf(m, group, ops, Ok(None))
            && forall k :: k in Elements(group) ==> IsFairRate(ops, Elements(group), costs[k], m, k, rates[k])))
  }

  /** Why a component is refused. */
  ghost predicate Refused(ops: Operations, m: Model, group: seq<nat>, e: RateError)
    requires Known(group, ops)
  {
    match e
    case SharedFlow => !FlowsDiffer(group, ops)
    case AmbiguousProfile => IsProfileOf(m, group, ops, Err(AmbiguousProfile))
    case OverCapacity(r) =>
      exists p, rates: map<nat, real> ::
        && IsProfileOf(m, group, ops, Ok(Some(p))) && ByProfile(p, ops, group, rates)
        && r in m.resources && Total(rates, Users(ops, Elements(group), r)) > m.resources[r]
  }

  method GroupRates(ops: Operations, costs: map<nat, ServiceCost>, m: Model, group: seq<nat>)
    returns (r: Result<map<nat, real>, RateError>)
    requires Known(group, ops) && Distinct(group) && Costed(ops, costs, m, Elements(group))
    ensures r.Ok? ==> GroupRated(ops, costs, m, group, r.value) && WithinCapacity(ops, m, r.value)
    ensures r.Err? ==> Refused(ops, m, group, r.error)
  {
    if !FlowsDiffer(group, ops) {
      return Err(SharedFlow);
    }
    var found := ProfileOf(m, group, ops);
    if found.Err? {
      return Err(found.error);
    }
    if found.value.Some? {
      r := ProfiledRates(ops, costs, m, group, found.value.value);
    } else {
      var rates := FairRates(ops, costs, m, group);
      r := Ok(rates);
    }
  }

  method FairRates(ops: Operations, costs: map<nat, ServiceCost>, m: Model, group: seq<nat>)
    returns (rates: map<nat, real>)
    requires Known(group, ops) && Distinct(group) && Costed(ops, costs, m, Elements(group))
    ensures rates.Keys == Elements(group)
    ensures forall k :: k in rates ==> rates[k] > 0.0
    ensures forall k :: k in Elements(group) ==> IsFairRate(ops, Elements(group), costs[k], m, k, rates[k])
    ensures WithinCapacity(ops, m, rates)
  {
    rates := map[];
    for i := 0 to |group|
      invariant rates.Keys == Elements(group[..i])
      invariant forall k :: k in rates ==>
          rates[k] > 0.0 && k in Elements(group) && IsFairRate(ops, Elements(group), costs[k], m, k, rates[k])
    {
      ScanSplit(group, i);
      var k := group[i];
      assert k in Elements(group);
      var rate := FairRate(ops, group, costs[k], m, k);
      rates := rates[k := rate];
    }
    assert group[..|group|] == group;
    forall r | r in m.resources ensures Total(rates, Users(ops, rates.Keys, r)) <= m.resources[r] {
      FairSharesFit(ops, costs, m, Elements(group), rates, r);
    }
  }

  method ProfiledRates(ops: Operations, costs: map<nat, ServiceCost>, m: Model, group: seq<nat>, p: RateProfile)
    returns (r: Result<map<nat, real>, RateError>)
    requires Known(group, ops) && Distinct(group) && Costed(ops, costs, m, Elements(group))
    requires FlowsDiffer(group, ops)
    requires IsProfileOf(m, group, ops, Ok(Some(p)))
    ensures r.Ok? ==> GroupRated(ops, costs, m, group, r.value) && WithinCapacity(ops, m, r.value)
    ensures r.Err? ==> Refused(ops, m, group, r.error)
  {
    ProfileCovers(ops, m, group, p);
    var rates := map k | k in group :: p.rates[ops[k].flow];
    assert ByProfile(p, ops, group, rates);
    ProfiledIsRated(ops, costs, m, group, p, rates);
    hide *;
    var overfull := Overfull(ops, costs, m, group, rates);
    if overfull.Some? {
      OverfullIsRefused(ops, m, group, p, rates, overfull.value);
      return Err(OverCapacity(overfull.value));
    }
    return Ok(rates);
  }

  /** Some resource of the group that the rates exceed. */
  method Overfull(ops: Operations, ghost costs: map<nat, ServiceCost>, m: Model, group: seq<nat>, rates: map<nat, real>)
    returns (overfull: Option<nat>)
    requires Known(group, ops) && Distinct(group) && Costed(ops, costs, m, Elements(group))
    requires rates.Keys == Elements(group)
    ensures overfull.Some? ==>
              overfull.value in m.resources
                && Total(rates, Users(ops, Elements(group), overfull.value)) > m.resources[overfull.value]
    ensures overfull.None? ==> WithinCapacity(ops, m, rates)
  {
    hide Costed, WithinCapacity, Total, Distinct, Elements, ResourcesOf;
    var rest := ResourcesOf(group, ops);
    ghost var all := rest;
    while rest != {}
      invariant rest <= all
      invariant forall x :: x in all && x !in rest && x in m.resources ==>
          Total(rates, Users(ops, Elements(group), x)) <= m.resources[x]
      decreases |rest|
    {
      var x :| x in rest;
      ResourceKnown(ops, costs, m, group, x);
      var sum := Assigned(ops, group, rates, x);
      if sum > m.resources[x] {
        return Some(x);
      }
      rest := rest - {x};
    }
    CheckedFits(ops, costs, m, group, rates);
    return None;
  }

  lemma ProfiledIsRated(ops: Operations, costs: map<nat, ServiceCost>, m: Model, group: seq<nat>, p: RateProfile,
                        rates: map<nat, real>)
    requires Known(group, ops) && Costed(ops, costs, m, Elements(group)) && FlowsDiffer(group, ops)
    requires IsProfileOf(m, group, ops, Ok(Some(p))) && ByProfile(p, ops, group, rates)
    ensures GroupRated(ops, costs, m, group, rates) && rates.Keys == Elements(group)
  {
    CostedIsValid(ops, costs, m, Elements(group));
    ProfileCovers(ops, m, group, p);
    hide IsProfileOf, FlowsDiffer, Costed;
  }

  lemma CostedIsValid(ops: Operations, costs: map<nat, ServiceCost>, m: Model, keys: set<nat>)
    requires Costed(ops, costs, m, keys)
    ensures m.Valid()
  {
  }

  lemma OverfullIsRefused(ops: Operations, m: Model, group: seq<nat>, p: RateProfile, rates: map<nat, real>, x: nat)
    requires Known(group, ops) && IsProfileOf(m, group, ops, Ok(Some(p))) && ByProfile(p, ops, group, rates)
    requires x in m.resources && Total(rates, Users(ops, Elements(group), x)) > m.resources[x]
    ensures Refused(ops, m, group, OverCapacity(x))
  {
    hide IsProfileOf, ByProfile, Known;
  }

  lemma CheckedFits(ops: Operations, costs: map<nat, ServiceCost>, m: Model, group: seq<nat>, rates: map<nat, real>)
    requires Known(group, ops) && Costed(ops, costs, m, Elements(group)) && rates.Keys == Elements(group)
    requires forall x :: x in ResourcesOf(group, ops) && x in m.resources ==>
        Total(rates, Users(ops, Elements(group), x)) <= m.resources[x]
    ensures WithinCapacity(ops, m, rates)
  {
    CostedIsValid(ops, costs, m, Elements(group));
    hide Costed, Known, Total, Users, ResourcesOf;
    forall x | x in m.resources ensures Total(rates, Users(ops, rates.Keys, x)) <= m.resources[x] {
      if x !in ResourcesOf(group, ops) {
        UnusedResource(ops, m, group, rates, x);
      }
    }
  }

  lemma UnusedResource(ops: Operations, m: Model, group: seq<nat>, rates: map<nat, real>, x: nat)
    requires m.Valid() && Known(group, ops) && rates.Keys == Elements(group) && x in m.resources
    requires x !in ResourcesOf(group, ops)
    ensures Total(rates, Users(ops, rates.Keys, x)) <= m.resources[x]
  {
    assert Users(ops, Elements(group), x) == {};
  }

  lemma ResourceKnown(ops: Operations, costs: map<nat, ServiceCost>, m: Model, group: seq<nat>, x: nat)
    requires Known(group, ops) && Costed(ops, costs, m, Elements(group)) && x in ResourcesOf(group, ops)
    ensures x in m.resources
  {
    var k :| k in group && x in ops[k].resources;
    assert k in Elements(group);
  }

  lemma ProfileCovers(ops: Operations, m: Model, group: seq<nat>, p: RateProfile)
    requires m.Valid() && Known(group, ops) && IsProfileOf(m, group, ops, Ok(Some(p)))
    ensures forall k :: k in group ==> ops[k].flow in p.rates && p.rates[ops[k].flow] > 0.0
  {
    forall k | k in group ensures ops[k].flow in p.mode {
      assert ops[k].flow in (set x | x in group :: ops[x].flow);
    }
  }

  // ---------------------------------------------------------------- all active operations

  ghost function Communicating(ops: Operations, keys: set<nat>): set<nat> {
    set k | k in keys && k in ops && ops[k].Communicates()
  }

  function Restrict(rates: map<nat, real>, keys: set<nat>): map<nat, real> {
    map k | k in keys && k in rates :: rates[k]
  }

  /** The component of k is rated as a whole. */
  ghost predicate RatedInGroup(ops: Operations, costs: map<nat, ServiceCost>, m: Model, keys: set<nat>, k: nat,
                               rates: map<nat, real>) {
    exists group: seq<nat> ::
      && k in group && Known(group, ops) && IsComponent(ops, keys, Elements(group))
      && Costed(ops, costs, m, Elements(group))
      && GroupRated(ops, costs, m, group, Restrict(rates, Elements(group)))
  }

  /** Local work runs at its service rate; every communication component is rated as a whole; resources suffice. */
  ghost predicate Rated(ops: Operations, costs: map<nat, ServiceCost>, m: Model, active: set<nat>,
                        rates: map<nat, real>)
    requires Costed(ops, costs, m, active)
  {
    && rates.Keys == active
    && (forall k :: k in active ==> rates[k] > 0.0)
    && (forall k :: k in active && !ops[k].Communicates() ==> rates[k] == 1.0 / costs[k].beta)
    && (forall k :: k in Communicating(ops, active) ==>
      RatedInGroup(ops, costs, m, Communicating(ops, active), k, rates))
    && WithinCapacity(ops, m, rates)
  }

  ghost predicate SomeGroupRefused(ops: Operations, m: Model, keys: set<nat>, e: RateError) {
    exists group: seq<nat> ::
      Known(group, ops) && Distinct(group) && IsComponent(ops, keys, Elements(group)) && Refused(ops, m, group, e)
  }

  lemma ComponentApart(ops: Operations, keys: set<nat>, group: set<nat>)
    requires IsComponent(ops, keys, group)
    ensures Apart(ops, group, keys - group)
  {
    forall a, b | a in group && b in keys - group ensures !Linked(ops, a, b) {
      if Linked(ops, a, b) {
        assert Walk(ops, keys, [a, b]);
        assert Connected(ops, keys, a, b);
      }
    }
  }

  /** Rate maps of groups that share no resource can be merged. */
  lemma MergeCapacity(ops: Operations, m: Model, a: map<nat, real>, b: map<nat, real>)
    requires WithinCapacity(ops, m, a) && WithinCapacity(ops, m, b)
    requires a.Keys !! b.Keys && Apart(ops, b.Keys, a.Keys)
    ensures WithinCapacity(ops, m, a + b)
  {
    var c := a + b;
    forall r | r in m.resources ensures Total(c, Users(ops, c.Keys, r)) <= m.resources[r] {
      var ua, ub := Users(ops, a.Keys, r), Users(ops, b.Keys, r);
      assert c.Keys == a.Keys + b.Keys;
      assert Users(ops, c.Keys, r) == ua + ub;
      if ub == {} {
        assert ua + ub == ua;
        TotalSame(c, a, ua);
      } else {
        var y :| y in ub;
        forall x | x in ua ensures false {
          assert r in ops[y].resources * ops[x].resources;
          assert Linked(ops, y, x);
        }
        assert ua == {};
        assert ua + ub == ub;
        TotalSame(c, b, ub);
      }
    }
  }

  method LocalRates(ops: Operations, costs: map<nat, ServiceCost>, ghost m: Model, active: seq<nat>)
    returns (rates: map<nat, real>, communication: seq<nat>)
    requires Distinct(active) && Costed(ops, costs, m, Elements(active)) && ValidOperations(ops)
    ensures Elements(communication) == Communicating(ops, Elements(active)) && Distinct(communication)
        && Known(communication, ops)
    ensures IsLocal(ops, costs, Elements(active), rates)
    ensures WithinCapacity(ops, m, rates)
  {
    hide *;
    rates, communication := map[], [];
    NothingLocal(ops, costs);
    for i := 0 to |active|
      invariant LocalSoFar(ops, costs, Elements(active[..i]), rates, communication)
    {
      ScanSplit(active, i);
      var k := active[i];
      LocalCost(ops, costs, m, active, i);
      LocalNext(ops, costs, Elements(active[..i]), rates, communication, k);
      if ops[k].Communicates() {
        communication := communication + [k];
      } else {
        rates := rates[k := 1.0 / costs[k].beta];
      }
    }
    assert active[..|active|] == active;
    LocalEnds(ops, costs, Elements(active), rates, communication);
    CostedIsValid(ops, costs, m, Elements(active));
    LocalFits(ops, m, rates);
  }

  /** These operations split into those that communicate and the rates of the others. */
  ghost predicate LocalSoFar(ops: Operations, costs: map<nat, ServiceCost>, keys: set<nat>, rates: map<nat, real>,
                             communication: seq<nat>)
  {
    && Elements(communication) == Communicating(ops, keys) && Distinct(communication) && Known(communication, ops)
    && IsLocal(ops, costs, keys, rates)
  }

  lemma NothingLocal(ops: Operations, costs: map<nat, ServiceCost>)
    ensures LocalSoFar(ops, costs, Elements([]), map[], [])
  {
  }

  lemma LocalCost(ops: Operations, costs: map<nat, ServiceCost>, m: Model, active: seq<nat>, i: nat)
    requires Costed(ops, costs, m, Elements(active)) && i < |active|
    ensures active[i] in ops && active[i] in costs && costs[active[i]].Valid() && costs[active[i]].beta > 0.0
  {
    assert active[i] in Elements(active);
  }

  lemma LocalNext(ops: Operations, costs: map<nat, ServiceCost>, keys: set<nat>, rates: map<nat, real>,
                  communication: seq<nat>, k: nat)
    requires LocalSoFar(ops, costs, keys, rates, communication) && k !in keys && k in ops && k in costs
    requires costs[k].Valid() && costs[k].beta > 0.0
    ensures ops[k].Communicates() ==> LocalSoFar(ops, costs, keys + {k}, rates, communication + [k])
    ensures !ops[k].Communicates() ==>
        LocalSoFar(ops, costs, keys + {k}, rates[k := 1.0 / costs[k].beta], communication)
  {
    SnocElements(communication, k);
    if ops[k].Communicates() {
      assert k !in Elements(communication);
      assert forall x :: x in communication ==> x in Elements(communication);
    }
  }

  lemma LocalEnds(ops: Operations, costs: map<nat, ServiceCost>, keys: set<nat>, rates: map<nat, real>,
                  communication: seq<nat>)
    requires LocalSoFar(ops, costs, keys, rates, communication)
    ensures Elements(communication) == Communicating(ops, keys) && Distinct(communication) && Known(communication, ops)
    ensures IsLocal(ops, costs, keys, rates) && forall k :: k in rates ==> k in ops && !ops[k].Communicates()
  {
    hide Distinct, Known;
  }

  /** What does not communicate uses no resource. */
  lemma LocalFits(ops: Operations, m: Model, rates: map<nat, real>)
    requires ValidOperations(ops) && m.Valid() && forall k :: k in rates ==> k in ops && !ops[k].Communicates()
    ensures WithinCapacity(ops, m, rates)
  {
    forall r | r in m.resources ensures Total(rates, Users(ops, rates.Keys, r)) <= m.resources[r] {
      assert Users(ops, rates.Keys, r) == {};
    }
  }

  method ActiveRates(ops: Operations, costs: map<nat, ServiceCost>, m: Model, active: seq<nat>)
    returns (r: Result<map<nat, real>, RateError>)
    requires Distinct(active) && Costed(ops, costs, m, Elements(active)) && ValidOperations(ops)
    ensures r.Ok? ==> Rated(ops, costs, m, Elements(active), r.value)
    ensures r.Err? ==> SomeGroupRefused(ops, m, Communicating(ops, Elements(active)), r.error)
  {
    hide *;
    var rates, communication := LocalRates(ops, costs, m, active);
    ghost var local := rates;
    var groups := FindComponents(ops, communication);
    LocalIsMerged(ops, costs, m, Elements(active), local, groups);
    for g := 0 to |groups|
      invariant Merged(ops, costs, m, Elements(active), local, groups, g, rates)
    {
      GroupFacts(ops, costs, m, Elements(active), groups, g);
      var result := GroupRates(ops, costs, m, groups[g]);
      if result.Err? {
        RefusedGroup(ops, m, Communicating(ops, Elements(active)), groups, g, result.error);
        return Err(result.error);
      }
      MergeGroup(ops, costs, m, Elements(active), local, groups, g, rates, result.value);
      rates := rates + result.value;
    }
    AllMerged(ops, costs, m, Elements(active), local, groups, rates);
    return Ok(rates);
  }

  ghost predicate GroupDone(ops: Operations, costs: map<nat, ServiceCost>, m: Model, group: seq<nat>,
                            rates: map<nat, real>) {
    && Known(group, ops) && Costed(ops, costs, m, Elements(group))
    && Elements(group) <= rates.Keys
    && GroupRated(ops, costs, m, group, Restrict(rates, Elements(group)))
  }

  ghost predicate IsLocal(ops: Operations, costs: map<nat, ServiceCost>, active: set<nat>, local: map<nat, real>) {
    && local.Keys == active - Communicating(ops, active)
    && forall k :: k in local ==>
      k in ops && k in costs && costs[k].Valid() && local[k] == 1.0 / costs[k].beta && local[k] > 0.0
  }

  /** The local rates and those of the first g components. */
  ghost predicate Merged(ops: Operations, costs: map<nat, ServiceCost>, m: Model, active: set<nat>,
                         local: map<nat, real>, groups: seq<seq<nat>>, g: nat, rates: map<nat, real>)
  {
    && g <= |groups|
    && ValidOperations(ops)
    && IsLocal(ops, costs, active, local)
    && AreComponents(ops, Communicating(ops, active), groups)
    && rates.Keys == local.Keys + Union(groups[..g])
    && (forall k :: k in local ==> rates[k] == local[k])
    && (forall k :: k in rates ==> rates[k] > 0.0)
    && WithinCapacity(ops, m, rates)
    && forall h :: 0 <= h < g ==> GroupDone(ops, costs, m, groups[h], rates)
  }

  lemma LocalIsMerged(ops: Operations, costs: map<nat, ServiceCost>, m: Model, active: set<nat>, local: map<nat, real>,
                      groups: seq<seq<nat>>)
    requires Costed(ops, costs, m, active) && ValidOperations(ops)
    requires AreComponents(ops, Communicating(ops, active), groups)
    requires IsLocal(ops, costs, active, local)
    requires WithinCapacity(ops, m, local)
    ensures Merged(ops, costs, m, active, local, groups, 0, local)
  {
    assert groups[..0] == [];
  }

  lemma RefusedGroup(ops: Operations, m: Model, keys: set<nat>, groups: seq<seq<nat>>, g: nat, e: RateError)
    requires AreComponents(ops, keys, groups) && g < |groups| && Refused(ops, m, groups[g], e)
    ensures SomeGroupRefused(ops, m, keys, e)
  {
    assert IsComponent(ops, keys, Elements(groups[g]));
  }

  lemma GroupFacts(ops: Operations, costs: map<nat, ServiceCost>, m: Model, active: set<nat>, groups: seq<seq<nat>>,
                   g: nat)
    requires Costed(ops, costs, m, active)
    requires AreComponents(ops, Communicating(ops, active), groups) && g < |groups|
    ensures Known(groups[g], ops) && Distinct(groups[g]) && Costed(ops, costs, m, Elements(groups[g]))
    ensures Elements(groups[g]) <= Communicating(ops, active)
  {
  }

  lemma EarlierGroupsDisjoint(groups: seq<seq<nat>>, g: nat)
    requires g < |groups| && forall i, j :: 0 <= i < j < |groups| ==> Elements(groups[i]) !! Elements(groups[j])
    ensures Union(groups[..g]) !! Elements(groups[g])
    ensures Union(groups[..g + 1]) == Union(groups[..g]) + Elements(groups[g])
    ensures Union(groups[..g]) <= Union(groups)
  {
    assert groups[..g + 1] == groups[..g] + [groups[g]];
    UnionSnoc(groups[..g], groups[g]);
    forall k | k in Union(groups[..g]) ensures k !in Elements(groups[g]) && k in Union(groups) {
      InUnion(groups[..g], k);
      var h :| 0 <= h < g && k in Elements(groups[..g][h]);
      assert k in Elements(groups[h]);
      InUnion(groups, k);
    }
  }

  lemma NewGroupApart(ops: Operations, active: set<nat>, local: set<nat>, groups: seq<seq<nat>>, g: nat)
    requires ValidOperations(ops) && g < |groups|
    requires AreComponents(ops, Communicating(ops, active), groups)
    requires local == active - Communicating(ops, active)
    ensures Elements(groups[g]) !! local + Union(groups[..g])
    ensures Apart(ops, Elements(groups[g]), local + Union(groups[..g]))
  {
    var keys, group := Communicating(ops, active), Elements(groups[g]);
    EarlierGroupsDisjoint(groups, g);
    assert IsComponent(ops, keys, group);
    ComponentApart(ops, keys, group);
    forall a, b | a in group && b in local + Union(groups[..g]) ensures !Linked(ops, a, b) {
      if b in local && b in ops {
        assert ops[b].resources == {};
      }
    }
  }

  lemma DoneKept(ops: Operations, costs: map<nat, ServiceCost>, m: Model, group: seq<nat>, rates: map<nat, real>,
                 more: map<nat, real>)
    requires GroupDone(ops, costs, m, group, rates) && rates.Keys !! more.Keys
    ensures GroupDone(ops, costs, m, group, rates + more)
  {
    assert Restrict(rates + more, Elements(group)) == Restrict(rates, Elements(group));
  }

  lemma DoneNow(ops: Operations, costs: map<nat, ServiceCost>, m: Model, group: seq<nat>, rates: map<nat, real>,
                more: map<nat, real>)
    requires Known(group, ops) && Costed(ops, costs, m, Elements(group)) && GroupRated(ops, costs, m, group, more)
    ensures GroupDone(ops, costs, m, group, rates + more)
    ensures more.Keys == Elements(group)
    ensures forall k :: k in more ==> more[k] > 0.0
  {
    assert Restrict(rates + more, Elements(group)) == more;
  }

  lemma MergeGroup(ops: Operations, costs: map<nat, ServiceCost>, m: Model, active: set<nat>,
                   local: map<nat, real>, groups: seq<seq<nat>>, g: nat, rates: map<nat, real>, more: map<nat, real>)
    requires Merged(ops, costs, m, active, local, groups, g, rates) && g < |groups|
    requires Known(groups[g], ops) && Costed(ops, costs, m, Elements(groups[g]))
    requires GroupRated(ops, costs, m, groups[g], more)
    requires WithinCapacity(ops, m, more)
    ensures Merged(ops, costs, m, active, local, groups, g + 1, rates + more)
  {
    hide *;
    MergedParts(ops, costs, m, active, local, groups, g, rates);
    ComponentsDisjoint(ops, Communicating(ops, active), groups);
    LocalKeys(ops, costs, active, local);
    DoneNow(ops, costs, m, groups[g], rates, more);
    NewGroupApart(ops, active, local.Keys, groups, g);
    EarlierGroupsDisjoint(groups, g);
    MergeCapacity(ops, m, rates, more);
    forall h | 0 <= h < g + 1 ensures GroupDone(ops, costs, m, groups[h], rates + more) {
      if h < g {
        DoneKept(ops, costs, m, groups[h], rates, more);
      }
    }
    MergedWhole(ops, costs, m, active, local, groups, g + 1, rates + more);
  }

  lemma MergedParts(ops: Operations, costs: map<nat, ServiceCost>, m: Model, active: set<nat>,
                    local: map<nat, real>, groups: seq<seq<nat>>, g: nat, rates: map<nat, real>)
    requires Merged(ops, costs, m, active, local, groups, g, rates)
    ensures g <= |groups| && ValidOperations(ops) && IsLocal(ops, costs, active, local)
    ensures AreComponents(ops, Communicating(ops, active), groups)
    ensures rates.Keys == local.Keys + Union(groups[..g])
    ensures (forall k :: k in local ==> rates[k] == local[k]) && (forall k :: k in rates ==> rates[k] > 0.0)
    ensures WithinCapacity(ops, m, rates) && forall h :: 0 <= h < g ==> GroupDone(ops, costs, m, groups[h], rates)
  {
    hide ValidOperations, IsLocal, AreComponents, WithinCapacity, GroupDone, Union;
  }

  lemma MergedWhole(ops: Operations, costs: map<nat, ServiceCost>, m: Model, active: set<nat>,
                    local: map<nat, real>, groups: seq<seq<nat>>, g: nat, rates: map<nat, real>)
    requires g <= |groups| && ValidOperations(ops) && IsLocal(ops, costs, active, local)
    requires AreComponents(ops, Communicating(ops, active), groups)
    requires rates.Keys == local.Keys + Union(groups[..g])
    requires (forall k :: k in local ==> rates[k] == local[k]) && (forall k :: k in rates ==> rates[k] > 0.0)
    requires WithinCapacity(ops, m, rates) && forall h :: 0 <= h < g ==> GroupDone(ops, costs, m, groups[h], rates)
    ensures Merged(ops, costs, m, active, local, groups, g, rates)
  {
    hide ValidOperations, IsLocal, AreComponents, WithinCapacity, GroupDone, Union;
  }

  lemma ComponentsDisjoint(ops: Operations, keys: set<nat>, groups: seq<seq<nat>>)
    requires AreComponents(ops, keys, groups)
    ensures forall i, j :: 0 <= i < j < |groups| ==> Elements(groups[i]) !! Elements(groups[j])
  {
    hide IsComponent, Elements, Union;
  }

  lemma LocalKeys(ops: Operations, costs: map<nat, ServiceCost>, active: set<nat>, local: map<nat, real>)
    requires IsLocal(ops, costs, active, local)
    ensures local.Keys == active - Communicating(ops, active)
  {
  }

  lemma AllMerged(ops: Operations, costs: map<nat, ServiceCost>, m: Model, active: set<nat>,
                  local: map<nat, real>, groups: seq<seq<nat>>, rates: map<nat, real>)
    requires Costed(ops, costs, m, active)
    requires Merged(ops, costs, m, active, local, groups, |groups|, rates)
    ensures Rated(ops, costs, m, active, rates)
  {
    hide RatedInGroup, GroupDone, GroupRated, IsComponent;
    assert groups[..|groups|] == groups;
    forall k | k in Communicating(ops, active)
      ensures RatedInGroup(ops, costs, m, Communicating(ops, active), k, rates)
    {
      RatedMember(ops, costs, m, Communicating(ops, active), groups, rates, k);
    }
    LocalPart(ops, costs, m, active, local, groups, rates);
  }

  lemma LocalPart(ops: Operations, costs: map<nat, ServiceCost>, m: Model, active: set<nat>,
                  local: map<nat, real>, groups: seq<seq<nat>>, rates: map<nat, real>)
    requires Costed(ops, costs, m, active)
    requires Merged(ops, costs, m, active, local, groups, |groups|, rates)
    ensures rates.Keys == active
    ensures forall k :: k in active && !ops[k].Communicates() ==> rates[k] == 1.0 / costs[k].beta
  {
    hide RatedInGroup, GroupDone, WithinCapacity, GroupRated, IsComponent;
    assert groups[..|groups|] == groups;
    forall k | k in active && !ops[k].Communicates() ensures k in local {
      assert k !in Communicating(ops, active);
    }
  }

  lemma RatedMember(ops: Operations, costs: map<nat, ServiceCost>, m: Model, keys: set<nat>, groups: seq<seq<nat>>,
                    rates: map<nat, real>, k: nat)
    requires AreComponents(ops, keys, groups) && k in keys
    requires forall h :: 0 <= h < |groups| ==> GroupDone(ops, costs, m, groups[h], rates)
    ensures RatedInGroup(ops, costs, m, keys, k, rates)
  {
    hide RatedInGroup, GroupDone, GroupRated;
    InUnion(groups, k);
    var g :| 0 <= g < |groups| && k in Elements(groups[g]);
    assert GroupDone(ops, costs, m, groups[g], rates);
    RatedThere(ops, costs, m, keys, groups[g], k, rates);
  }

  lemma RatedThere(ops: Operations, costs: map<nat, ServiceCost>, m: Model, keys: set<nat>, group: seq<nat>, k: nat,
                   rates: map<nat, real>)
    requires GroupDone(ops, costs, m, group, rates) && IsComponent(ops, keys, Elements(group)) && k in Elements(group)
    ensures RatedInGroup(ops, costs, m, keys, k, rates)
  {
  }

  // ---------------------------------------------------------------- consequences

  /** All users of a resource are in one component, so shares count every active user. */
  lemma FairAcrossGroups(ops: Operations, cost: ServiceCost, m: Model, keys: set<nat>, group: set<nat>, k: nat,
                         rate: real)
    requires IsComponent(ops, keys, group) && k in group && k in ops && cost.Valid()
    requires ops[k].resources <= m.resources.Keys
    requires IsFairRate(ops, group, cost, m, k, rate)
    ensures IsFairRate(ops, keys, cost, m, k, rate)
  {
    ComponentApart(ops, keys, group);
    forall r | r in ops[k].resources ensures Share(ops, keys, m, k, r) == Share(ops, group, m, k, r) {
      forall x | x in Users(ops, keys, r) ensures x in group {
        assert r in ops[k].resources * ops[x].resources;
        assert Linked(ops, k, x);
      }
      assert Users(ops, keys, r) == Users(ops, group, r);
    }
  }

  /** Without profiles every communication rate is the fair rate among all active communication. */
  lemma RatesWithoutProfiles(ops: Operations, costs: map<nat, ServiceCost>, m: Model, active: set<nat>,
                             rates: map<nat, real>, k: nat)
    requires Costed(ops, costs, m, active) && Rated(ops, costs, m, active, rates)
    requires m.profiles == [] && k in active
    ensures rates[k] <= 1.0 / costs[k].beta
    ensures ops[k].Communicates() ==> IsFairRate(ops, Communicating(ops, active), costs[k], m, k, rates[k])
  {
    if ops[k].Communicates() {
      FairInGroup(ops, costs, m, Communicating(ops, active), rates, k);
    }
  }

  lemma FairInGroup(ops: Operations, costs: map<nat, ServiceCost>, m: Model, keys: set<nat>, rates: map<nat, real>,
                    k: nat)
    requires RatedInGroup(ops, costs, m, keys, k, rates) && m.profiles == []
    ensures k in ops && k in keys && k in rates && k in costs && costs[k].Valid()
        && ops[k].resources <= m.resources.Keys
    ensures IsFairRate(ops, keys, costs[k], m, k, rates[k])
  {
    var group: seq<nat> :|
      && k in group && Known(group, ops) && IsComponent(ops, keys, Elements(group))
      && Costed(ops, costs, m, Elements(group))
      && GroupRated(ops, costs, m, group, Restrict(rates, Elements(group)));
    assert k in Elements(group);
    NoProfileMatches(ops, costs, m, group, Restrict(rates, Elements(group)), k);
    FairAcrossGroups(ops, costs[k], m, keys, Elements(group), k, rates[k]);
  }

  lemma NoProfileMatches(ops: Operations, costs: map<nat, ServiceCost>, m: Model, group: seq<nat>,
                         rates: map<nat, real>, k: nat)
    requires Known(group, ops) && Costed(ops, costs, m, Elements(group)) && GroupRated(ops, costs, m, group, rates)
    requires m.profiles == [] && k in Elements(group)
    ensures IsFairRate(ops, Elements(group), costs[k], m, k, rates[k])
  {
  }
}
