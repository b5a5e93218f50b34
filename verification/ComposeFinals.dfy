/** What the final outputs of a composed plan wait for (vericcl/composer/compose.py, the end of _compose_schedules). */
module ComposeFinals {
  import opened Basics
  import opened AtomPaths
  import opened Composition
  import opened ComposeSafety
  import opened ComposeOrder
  import G = Graphs

  ghost predicate Produces(plan: Plan, s: Slot, n: nat) {
    n in plan.nodes && s in plan.finals && s in plan.nodes[n].output && plan.nodes[n].output[s] == plan.finals[s]
  }

  /** The producer of the highest stage, and of the highest identifier within it. */
  ghost predicate IsFinalProducer(plan: Plan, s: Slot, n: nat) {
    && Produces(plan, s, n)
    && forall x: nat :: Produces(plan, s, x) ==>
         plan.nodes[x].stage < plan.nodes[n].stage || (plan.nodes[x].stage == plan.nodes[n].stage && x <= n)
  }

  method FinalProducer(plan: Plan, s: Slot) returns (best: Option<nat>)
    requires s in plan.finals
    ensures best.Some? ==> IsFinalProducer(plan, s, best.value)
    ensures best.None? ==> forall x: nat :: !Produces(plan, s, x)
  {
    best := None;
    var rest := plan.nodes.Keys;
    while rest != {}
      invariant rest <= plan.nodes.Keys
      invariant best.Some? ==> Produces(plan, s, best.value)
      invariant forall x: nat :: Produces(plan, s, x) && x !in rest ==>
        best.Some?
          && (plan.nodes[x].stage < plan.nodes[best.value].stage
          || (plan.nodes[x].stage == plan.nodes[best.value].stage && x <= best.value))
      decreases rest
    {
      var n :| n in rest;
      if s in plan.nodes[n].output && plan.nodes[n].output[s] == plan.finals[s] {
        if best.None? || plan.nodes[best.value].stage < plan.nodes[n].stage
            || (plan.nodes[best.value].stage == plan.nodes[n].stage && best.value <= n) {
          best := Some(n);
        }
      }
      rest := rest - {n};
    }
  }

  ghost predicate WaitsFor(plan: Plan, c: Composition, s: Slot, n: nat, deps: set<nat>) {
    IsFinalProducer(plan, s, n) && Key(n, s) in c.values && deps == c.values[Key(n, s)].deps
  }

  /** Refused exactly when some final output has no producing node. */
  method FinalDependencies(plan: Plan, c: Composition) returns (r: Option<map<Slot, set<nat>>>)
    requires forall n, s :: n in plan.nodes && s in plan.nodes[n].output ==> Key(n, s) in c.values
    ensures r.None? <==> exists s :: s in plan.finals && forall n: nat :: !Produces(plan, s, n)
    ensures r.Some? ==> r.value.Keys == plan.finals.Keys
    ensures r.Some? ==> forall s :: s in r.value ==> exists n :: WaitsFor(plan, c, s, n, r.value[s])
  {
    hide IsFinalProducer;
    var all: map<Slot, set<nat>> := map[];
    var rest := plan.finals.Keys;
    while rest != {}
      invariant rest <= plan.finals.Keys && all.Keys == plan.finals.Keys - rest
      invariant forall s :: s in all ==> exists n :: WaitsFor(plan, c, s, n, all[s])
      decreases rest
    {
      var s :| s in rest;
      var producer := FinalProducer(plan, s);
      if producer.None? {
        return None;
      }
      FinalProduces(plan, s, producer.value);
      assert WaitsFor(plan, c, s, producer.value, c.values[Key(producer.value, s)].deps);
      all := all[s := c.values[Key(producer.value, s)].deps];
      rest := rest - {s};
    }
    forall s | s in plan.finals ensures exists n: nat :: Produces(plan, s, n) {
      var n :| WaitsFor(plan, c, s, n, all[s]);
      FinalProduces(plan, s, n);
    }
    return Some(all);
  }

  lemma FinalProduces(plan: Plan, s: Slot, n: nat)
    requires IsFinalProducer(plan, s, n)
    ensures Produces(plan, s, n)
  {
  }

  /** Every contribution of a final output has come from the rank of its slice to the rank of the output, the
      output waits for transfers of the composition only, and for at least one when a contribution had to move. */
  lemma FinalOutputsArrive(plan: Plan, c: Composition, s: Slot, n: nat, m: nat)
    requires ValidPlan(plan) && G.Closed(NodeWaits(plan)) && G.Acyclic(NodeWaits(plan)) && IsComposition(plan, c)
    requires IsFinalProducer(plan, s, n) && m in plan.finals[s]
    ensures Key(n, s) in c.values && m in c.values[Key(n, s)].paths
        && Brings(c.values[Key(n, s)].paths[m], Origin(plan, m), s.rank)
    ensures c.values[Key(n, s)].deps <= c.transfers.Keys
    ensures Origin(plan, m) != s.rank ==> c.values[Key(n, s)].deps != {}
  {
    PlanParts(plan);
    hide ValidPlan, NodeWaits, NodeComposed, G.Closed, G.Acyclic, Origin;
    EveryValueArrives(plan, c, n, s, m);
    if Origin(plan, m) != s.rank {
      TravelledIsAwaited(plan, c, Key(n, s), m);
    }
  }
}
