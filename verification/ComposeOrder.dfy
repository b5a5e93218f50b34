/** Composed transfers wait for each other without a cycle (vericcl/composer/compose.py, _compose_schedules). */
module ComposeOrder {
  import opened Basics
  import opened AtomPaths
  import opened Composition
  import opened ComposeSafety
  import G = Graphs

  function Semantic(node: Node): G.Dependencies {
    map k | k in node.transfers :: node.transfers[k].semantic
  }

  ghost predicate AcyclicSchedules(plan: Plan) {
    forall n :: n in plan.nodes ==> G.Closed(Semantic(plan.nodes[n])) && G.Acyclic(Semantic(plan.nodes[n]))
  }

  function Predecessors(c: Composition): G.Dependencies {
    map k | k in c.transfers :: c.transfers[k].predecessors
  }

  /** The dependencies among the transfers of some nodes. */
  function Within(c: Composition, ids: set<nat>): G.Dependencies {
    map k | k in ids && k in c.transfers :: c.transfers[k].predecessors
  }

  ghost predicate AcyclicOn(plan: Plan, c: Composition, done: set<nat>) {
    && TransfersOf(plan, done) <= c.transfers.Keys
    && G.Closed(Within(c, TransfersOf(plan, done))) && G.Acyclic(Within(c, TransfersOf(plan, done)))
  }

  lemma DepsOfWithin(inputs: Inputs, slots: set<Slot>, ids: set<nat>)
    requires DepsWithin(inputs, ids)
    ensures DepsOf(inputs, slots) <= ids
  {
  }

  /** A composed transfer waits for its schedule's dependencies and for transfers of earlier nodes. */
  lemma CrossDependencies(node: Node, inputs: Inputs, id: nat, t: NodeTransfer, c: Composed, ids: set<nat>)
    requires IsComposed(node, inputs, id, t, c) && DepsWithin(inputs, ids)
    ensures c.predecessors <= t.semantic + ids
  {
    hide IsSpliced, IsStart, DepsWithin, DepsOf, SlotsAt, ReceiverSlots;
    DepsOfWithin(inputs, ReceiverSlots(node, t), ids);
    forall m | m in t.atoms ensures AtomDeps(node, inputs, t, m) <= ids {
      DepsOfWithin(inputs, SlotsAt(node, t.src, m), ids);
    }
  }

  lemma WithinIs(c: Composition, ids: set<nat>)
    requires ids <= c.transfers.Keys
    ensures Within(c, ids).Keys == ids && forall k :: k in ids ==> Within(c, ids)[k] == c.transfers[k].predecessors
  {
  }

  lemma SemanticIs(node: Node)
    ensures Semantic(node).Keys == node.transfers.Keys
        && forall k :: k in node.transfers ==> Semantic(node)[k] == node.transfers[k].semantic
  {
  }

  lemma OrderOne(plan: Plan, c: Composition, done: set<nat>, n: nat)
    requires AcyclicOn(plan, c, done) && n in plan.nodes && NodeComposed(plan, c, n)
    requires DepsWithin(InputsOf(plan, c.values, n), TransfersOf(plan, done))
    requires G.Closed(Semantic(plan.nodes[n])) && G.Acyclic(Semantic(plan.nodes[n]))
    ensures AcyclicOn(plan, c, done + {n})
  {
    var node, inputs := plan.nodes[n], InputsOf(plan, c.values, n);
    ghost var base, ids := TransfersOf(plan, done), TransfersOf(plan, done + {n});
    MoreTransfers(plan, done, n);
    hide TransfersOf, IsComposed, IsOutput, DepsWithin, InputsOf, G.Closed, G.Acyclic, Within, Semantic;
    forall k | k in node.transfers
      ensures k in c.transfers && c.transfers[k].predecessors <= node.transfers[k].semantic + base
    {
      CrossDependencies(node, inputs, k, node.transfers[k], c.transfers[k], base);
    }
    WithinIs(c, base);
    SemanticIs(node);
    hide NodeComposed;
    WithinIs(c, ids);
    G.LayerAcyclic(Within(c, base), Semantic(node), Within(c, ids));
  }

  lemma {:induction false} OrderAll(plan: Plan, c: Composition, done: set<nat>)
    requires ValidPlan(plan) && G.Closed(NodeWaits(plan)) && G.Acyclic(NodeWaits(plan)) && IsComposition(plan, c)
    requires AcyclicSchedules(plan)
    requires done <= plan.nodes.Keys && Settled(plan, c, done) && AcyclicOn(plan, c, done)
    ensures AcyclicOn(plan, c, plan.nodes.Keys)
    decreases plan.nodes.Keys - done
  {
    WaitsAreClosed(plan);
    hide ValidPlan, Settled, NodeWaits, NodeComposed, G.Closed, G.Acyclic, Covers, AcyclicOn;
    if done != plan.nodes.Keys {
      SomeLeft(plan.nodes.Keys, done);
      var n := G.SomeNodeReady(NodeWaits(plan), done);
      SettleOne(plan, c, done, n);
      InputsSettled(plan, c, done, n);
      OrderOne(plan, c, done, n);
      OrderAll(plan, c, done + {n});
    }
  }

  /** For an acyclic plan of acyclic node schedules the composed predecessor relation is acyclic, also when a
      transfer identifier occurs in several nodes. */
  lemma ComposedIsAcyclic(plan: Plan, c: Composition)
    requires ValidPlan(plan) && G.Closed(NodeWaits(plan)) && G.Acyclic(NodeWaits(plan)) && IsComposition(plan, c)
    requires AcyclicSchedules(plan)
    ensures G.Closed(Predecessors(c)) && G.Acyclic(Predecessors(c))
  {
    NothingYet(plan, c);
    hide ValidPlan, Settled, NodeWaits, NodeComposed, G.Closed, G.Acyclic, Covers, AcyclicSchedules;
    OrderAll(plan, c, {});
    TransfersAre(plan, c);
    hide *;
    OrderedIs(plan, c);
  }

  lemma OrderedIs(plan: Plan, c: Composition)
    requires AcyclicOn(plan, c, plan.nodes.Keys) && c.transfers.Keys == TransfersOf(plan, plan.nodes.Keys)
    ensures G.Closed(Predecessors(c)) && G.Acyclic(Predecessors(c))
  {
    hide TransfersOf, G.Closed, G.Acyclic;
    assert Predecessors(c) == Within(c, c.transfers.Keys);
  }

  lemma NothingYet(plan: Plan, c: Composition)
    requires plan.sliceCount > 0
    ensures Settled(plan, c, {}) && AcyclicOn(plan, c, {})
  {
    assert TransfersOf(plan, {}) == {};
    NoDependencies(Within(c, {}));
  }

  lemma NoDependencies(deps: G.Dependencies)
    requires deps.Keys == {}
    ensures G.Closed(deps) && G.Acyclic(deps)
  {
    var none: map<nat, nat> := map[];
    assert G.Ranks(deps, none);
  }

  // ---------------------------------------------------------------- untouched values

  ghost predicate Untouched(v: Value) {
    v.deps == {} ==> forall m :: m in v.paths ==> v.paths[m] == []
  }

  ghost predicate UntouchedInputs(inputs: Inputs) {
    forall s :: s in inputs ==> Untouched(inputs[s])
  }

  /** A value that waits for nothing is passed through from an input whose contributions it keeps. */
  lemma PassedThrough(node: Node, inputs: Inputs, transfers: map<nat, Composed>, slot: Slot, v: Value)
    requires slot in node.output && IsOutput(node, inputs, transfers, slot, v) && UntouchedInputs(inputs)
    ensures Untouched(v)
  {
    hide IsMatches;
    if v.deps == {} {
      var matches, candidates :| IsOutputOver(node, inputs, transfers, slot, matches, candidates, v);
      if matches != [] {
        SomeElement(matches);
      } else {
        var p :| Passthrough(node, slot) == {p} && p in inputs && v.deps == inputs[p].deps;
        assert p in Passthrough(node, slot);
        forall m | m in v.paths ensures v.paths[m] == [] {
          assert IsOutputPath(node, inputs, transfers, slot, m, candidates, v.paths[m]);
          assert IsPrior(node, inputs, slot.rank, m, v.paths[m]);
          assert p in SlotsAt(node, slot.rank, m);
          assert Untouched(inputs[p]);
        }
      }
    }
  }

  lemma SomeElement(s: seq<nat>)
    requires s != []
    ensures Elements(s) != {}
  {
    assert s[0] in Elements(s);
  }

  ghost predicate AllUntouched(plan: Plan, c: Composition, done: set<nat>) {
    forall x :: x in c.values && x.node in done ==> Untouched(c.values[x])
  }

  lemma UntouchedOne(plan: Plan, c: Composition, done: set<nat>, n: nat)
    requires ValidPlan(plan) && n in plan.nodes && NodeComposed(plan, c, n) && Covers(plan, c, plan.nodes.Keys)
    requires AllUntouched(plan, c, done) && n in NodeWaits(plan) && NodeWaits(plan)[n] <= done
    ensures AllUntouched(plan, c, done + {n})
  {
    var node, inputs := plan.nodes[n], InputsOf(plan, c.values, n);
    hide ValidPlan, NodeWaits, IsOutput, IsComposed, ProducerOf;
    forall s | s in inputs ensures Untouched(inputs[s]) {
      ProducerFits(plan, n, s);
    }
    forall x | x in c.values && x.node == n ensures Untouched(c.values[x]) {
      assert x == Key(n, x.slot);
      PassedThrough(node, inputs, c.transfers, x.slot, c.values[x]);
    }
  }

  lemma {:induction false} UntouchedAll(plan: Plan, c: Composition, done: set<nat>)
    requires ValidPlan(plan) && G.Closed(NodeWaits(plan)) && G.Acyclic(NodeWaits(plan)) && IsComposition(plan, c)
    requires done <= plan.nodes.Keys && AllUntouched(plan, c, done)
    ensures AllUntouched(plan, c, plan.nodes.Keys)
    decreases plan.nodes.Keys - done
  {
    WaitsAreClosed(plan);
    hide ValidPlan, AllUntouched, NodeWaits, NodeComposed, G.Closed, G.Acyclic, Covers;
    if done != plan.nodes.Keys {
      SomeLeft(plan.nodes.Keys, done);
      var n := G.SomeNodeReady(NodeWaits(plan), done);
      UntouchedOne(plan, c, done, n);
      UntouchedAll(plan, c, done + {n});
    }
  }

  /** A contribution that has travelled is never handed on without a transfer to wait for. */
  lemma TravelledIsAwaited(plan: Plan, c: Composition, x: Key, m: nat)
    requires ValidPlan(plan) && G.Closed(NodeWaits(plan)) && G.Acyclic(NodeWaits(plan)) && IsComposition(plan, c)
    requires x in c.values && m in c.values[x].paths && c.values[x].paths[m] != []
    ensures c.values[x].deps != {}
  {
    hide ValidPlan, NodeWaits, NodeComposed, G.Closed, G.Acyclic;
    UntouchedAll(plan, c, {});
    assert Untouched(c.values[x]);
  }
}
