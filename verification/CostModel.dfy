/** Physical work and measured costs: the records of vericcl/performance/events.py, model.py and profiles.py.

    Operation, cost, resource and flow identities are strings in the source; only equality matters, and
    for operations their order, so they are numbers here.  Bandwidths, startups and times are exact. */
module CostModel {
  import opened Basics
  import opened Graphs

  datatype Kind = Send | Rrc | Copy | Reduce | Nop

  datatype WorkOperation = WorkOperation(
    kind: Kind,
    costKey: nat,
    payload: nat,
    dependencies: set<nat>,
    resources: set<nat>,
    flow: nat,
    notBefore: real)
  {
    /** Only sends and receive-reduce-copies share links. */
    predicate Communicates() {
      kind.Send? || kind.Rrc?
    }

    predicate Valid() {
      && (kind.Nop? <==> payload == 0)
      && (!Communicates() ==> resources == {})
      && notBefore >= 0.0
    }
  }

  datatype ServiceCost = ServiceCost(alpha: real, beta: real, minBytes: nat, maxBytes: Option<nat>) {
    predicate Valid() {
      alpha >= 0.0 && beta > 0.0 && minBytes >= 1 && (maxBytes.Some? ==> minBytes <= maxBytes.value)
    }

    predicate Covers(size: nat) {
      minBytes <= size && (maxBytes.None? || size <= maxBytes.value)
    }
  }

  /** A measured rate vector for one exact set of concurrent flows. */
  datatype RateProfile = RateProfile(
    mode: set<nat>,
    rates: map<nat, real>,
    resources: set<nat>,
    minBytes: nat,
    maxBytes: Option<nat>,
    startup: map<nat, real>,
    flowResources: map<nat, set<nat>>)
  {
    ghost predicate Valid() {
      && mode != {}
      && rates.Keys == mode
      && (forall f :: f in mode ==> rates[f] > 0.0)
      && startup.Keys <= mode
      && (forall f :: f in startup ==> startup[f] >= 0.0)
      && (flowResources != map[] ==> flowResources.Keys == mode)
    }
  }

  type Operations = map<nat, WorkOperation>

  predicate FlowsDiffer(group: seq<nat>, ops: Operations)
    requires forall k :: k in group ==> k in ops
  {
    forall i, j :: 0 <= i < j < |group| ==> ops[group[i]].flow != ops[group[j]].flow
  }

  function ResourcesOf(group: seq<nat>, ops: Operations): set<nat>
    requires forall k :: k in group ==> k in ops
  {
    set k, r | k in group && r in ops[k].resources :: r
  }

  /** RateProfile.applies: the flows are exactly the mode, and resources and sizes match. */
  predicate Applies(p: RateProfile, group: seq<nat>, ops: Operations)
    requires forall k :: k in group ==> k in ops
  {
    && FlowsDiffer(group, ops)
    && (set k | k in group :: ops[k].flow) == p.mode
    && ResourcesOf(group, ops) == p.resources
    && (p.flowResources == map[]
        || forall k :: k in group ==>
          ops[k].flow in p.flowResources && p.flowResources[ops[k].flow] == ops[k].resources)
    && (forall k :: k in group ==>
      p.minBytes <= ops[k].payload && (p.maxBytes.None? || ops[k].payload <= p.maxBytes.value))
  }

  datatype Model = Model(services: map<nat, seq<ServiceCost>>, resources: map<nat, real>, profiles: seq<RateProfile>) {
    ghost predicate Valid() {
      && (forall key :: key in services ==> OrderedDomains(services[key]))
      && (forall r :: r in resources ==> resources[r] > 0.0)
      && (forall i :: 0 <= i < |profiles| ==> profiles[i].Valid())
    }

    /** The first covering cost. */
    function ServiceFor(key: nat, size: nat): Option<ServiceCost> {
      if key in services then FirstCovering(services[key], size) else None
    }
  }

  /** Neighbouring size domains do not overlap. */
  ghost predicate OrderedDomains(costs: seq<ServiceCost>) {
    && (forall i :: 0 <= i < |costs| ==> costs[i].Valid())
    && (forall i :: 0 <= i < |costs| - 1 ==> costs[i].maxBytes.Some? && costs[i].maxBytes.value < costs[i + 1].minBytes)
  }

  function FirstCovering(costs: seq<ServiceCost>, size: nat): (r: Option<ServiceCost>)
    ensures r.Some? ==> r.value in costs && r.value.Covers(size)
    ensures r.None? ==> forall i :: 0 <= i < |costs| ==> !costs[i].Covers(size)
  {
    if costs == [] then None
    else if costs[0].Covers(size) then Some(costs[0])
    else FirstCovering(costs[1..], size)
  }

  lemma {:induction false} DomainsAscend(costs: seq<ServiceCost>, i: nat, j: nat)
    requires OrderedDomains(costs) && i < j < |costs|
    ensures costs[i].maxBytes.Some? && costs[i].maxBytes.value < costs[j].minBytes
    decreases j - i
  {
    if i + 1 < j {
      DomainsAscend(costs, i + 1, j);
    }
  }

  /** With disjoint size domains at most one cost covers a size, so taking the first is no choice. */
  lemma ServiceIsUnique(m: Model, key: nat, size: nat, i: nat)
    requires m.Valid() && key in m.services && i < |m.services[key]| && m.services[key][i].Covers(size)
    ensures m.ServiceFor(key, size) == Some(m.services[key][i])
  {
    var costs := m.services[key];
    var found := FirstCovering(costs, size);
    var j :| 0 <= j < |costs| && costs[j] == found.value;
    if j < i {
      DomainsAscend(costs, j, i);
    } else if i < j {
      DomainsAscend(costs, i, j);
    }
  }

  ghost function Dependencies(ops: Operations): Graphs.Dependencies {
    map k | k in ops :: ops[k].dependencies
  }

  ghost predicate ValidOperations(ops: Operations) {
    && (forall k :: k in ops ==> ops[k].Valid())
    && (forall k :: k in ops ==> ops[k].dependencies <= ops.Keys)
  }
}
