/** A plan with an acyclic node graph has at most one composition: the order in which nodes and transfers are
    processed does not reach the result (vericcl/composer/compose.py, _compose_schedules). */
module ComposeUnique {
  import opened Basics
  import opened AtomPaths
  import opened Ordering
  import opened Composition
  import opened ComposeSafety
  import G = Graphs

  // ---------------------------------------------------------------- transfers

  lemma PriorUnique(node: Node, inputs: Inputs, rank: nat, m: nat, p: Path, q: Path)
    requires IsPrior(node, inputs, rank, m, p) && IsPrior(node, inputs, rank, m, q)
    ensures p == q
  {
    hide SlotsAt;
    var s :| SlotsAt(node, rank, m) == {s} && s in inputs && m in inputs[s].paths && p == inputs[s].paths[m];
    assert s in SlotsAt(node, rank, m);
  }

  lemma SplicedUnique(node: Node, inputs: Inputs, t: NodeTransfer, m: nat, p: Path, q: Path)
    requires m in t.atoms && IsSpliced(node, inputs, t, m, p) && IsSpliced(node, inputs, t, m, q)
    ensures p == q
  {
    hide IsPrior, Delayed, Arrival, ValidPath;
    var x :| IsPrior(node, inputs, t.atoms[m].root, m, x) && p == x + Delayed(t.atoms[m].path, Arrival(x));
    var y :| IsPrior(node, inputs, t.atoms[m].root, m, y) && q == y + Delayed(t.atoms[m].path, Arrival(y));
    PriorUnique(node, inputs, t.atoms[m].root, m, x, y);
  }

  lemma StartUnique(atoms: map<nat, Path>, st: real, a: real, b: real)
    requires IsStart(atoms, st, a) && IsStart(atoms, st, b)
    ensures a == b
  {
    hide Arrival;
  }

  lemma ComposedUnique(node: Node, inputs: Inputs, id: nat, t: NodeTransfer, c: Composed, d: Composed)
    requires IsComposed(node, inputs, id, t, c) && IsComposed(node, inputs, id, t, d)
    ensures c == d
  {
    hide IsSpliced, IsStart, ReceiverSlots, ReceiverDeps, AtomsDeps;
    forall m | m in t.atoms ensures c.atoms[m] == d.atoms[m] {
      SplicedUnique(node, inputs, t, m, c.atoms[m], d.atoms[m]);
    }
    assert c.atoms == d.atoms;
    StartUnique(c.atoms, t.st, c.st, d.st);
  }

  // ---------------------------------------------------------------- outputs

  lemma MatchesUnique(node: Node, slot: Slot, a: seq<nat>, b: seq<nat>)
    requires slot in node.output && IsMatches(node, slot, a) && IsMatches(node, slot, b)
    ensures a == b
  {
    hide IsSorted, Delivering;
    if !node.routing {
      SortedIsUnique(a, b, Delivering(node, slot));
    }
  }

  lemma ClosureUnique(node: Node, matches: set<nat>, a: set<nat>, b: set<nat>)
    requires IsClosure(node, matches, a) && IsClosure(node, matches, b)
    ensures a == b
  {
    hide ClosedUnder;
  }

  lemma CandidatesUnique(node: Node, matches: seq<nat>, a: seq<nat>, b: seq<nat>)
    requires IsCandidates(node, matches, a) && IsCandidates(node, matches, b)
    ensures a == b
  {
    hide IsClosure, IsSorted, Elements;
    if node.routing && matches != [] {
      var x, u :| IsExtended(node, matches, x, u, a);
      var y, w :| IsExtended(node, matches, y, w, b);
      ClosureUnique(node, Elements(matches), x, y);
      SortedIsUnique(u, w, x - Elements(matches));
    }
  }

  lemma FirstUnique(node: Node, slot: Slot, m: nat, candidates: seq<nat>, i: nat, j: nat)
    requires FirstSupplier(node, slot, m, candidates, i) && FirstSupplier(node, slot, m, candidates, j)
    ensures i == j
  {
    hide Supplies;
  }

  lemma OutputPathUnique(node: Node, inputs: Inputs, transfers: map<nat, Composed>, transfers': map<nat, Composed>,
                         slot: Slot, m: nat,
                         candidates: seq<nat>, p: Path, q: Path)
    requires IsOutputPath(node, inputs, transfers, slot, m, candidates, p)
    requires IsOutputPath(node, inputs, transfers', slot, m, candidates, q)
    requires forall k :: k in node.transfers && k in transfers && k in transfers' ==> transfers[k] == transfers'[k]
    ensures p == q
  {
    hide IsPrior;
    if x: nat :| FirstSupplier(node, slot, m, candidates, x) {
      var i: nat :| FirstSupplier(node, slot, m, candidates, i) && candidates[i] in transfers
          && m in transfers[candidates[i]].atoms
                    && p == transfers[candidates[i]].atoms[m];
      var j: nat :| FirstSupplier(node, slot, m, candidates, j) && candidates[j] in transfers'
          && m in transfers'[candidates[j]].atoms
                    && q == transfers'[candidates[j]].atoms[m];
      FirstUnique(node, slot, m, candidates, i, j);
    } else {
      PriorUnique(node, inputs, slot.rank, m, p, q);
    }
  }

  lemma OutputDepsUnique(node: Node, inputs: Inputs, slot: Slot, matches: seq<nat>, a: set<nat>, b: set<nat>)
    requires slot in node.output && IsOutputDeps(node, inputs, slot, matches, a)
    requires IsOutputDeps(node, inputs, slot, matches, b)
    ensures a == b
  {
    hide Passthrough;
    if matches == [] {
      var s :| Passthrough(node, slot) == {s} && s in inputs && a == inputs[s].deps;
      assert s in Passthrough(node, slot);
    }
  }

  lemma OutputUnique(node: Node, inputs: Inputs, transfers: map<nat, Composed>, transfers': map<nat, Composed>,
                     slot: Slot, v: Value, w: Value)
    requires slot in node.output && IsOutput(node, inputs, transfers, slot, v)
    requires IsOutput(node, inputs, transfers', slot, w)
    requires forall k :: k in node.transfers && k in transfers && k in transfers' ==> transfers[k] == transfers'[k]
    ensures v == w
  {
    hide IsMatches, IsCandidates, IsOutputDeps, IsOutputPath;
    var a, c :| IsOutputOver(node, inputs, transfers, slot, a, c, v);
    var b, d :| IsOutputOver(node, inputs, transfers', slot, b, d, w);
    MatchesUnique(node, slot, a, b);
    CandidatesUnique(node, a, c, d);
    OutputDepsUnique(node, inputs, slot, a, v.deps, w.deps);
    forall m | m in v.paths ensures v.paths[m] == w.paths[m] {
      OutputPathUnique(node, inputs, transfers, transfers', slot, m, c, v.paths[m], w.paths[m]);
    }
    assert v.paths == w.paths;
  }

  // ---------------------------------------------------------------- node by node

  ghost predicate NodeAgrees(plan: Plan, a: Composition, b: Composition, n: nat)
    requires n in plan.nodes
  {
    && (forall k :: k in plan.nodes[n].transfers ==>
      k in a.transfers && k in b.transfers && a.transfers[k] == b.transfers[k])
    && forall s :: s in plan.nodes[n].output ==>
      Key(n, s) in a.values && Key(n, s) in b.values && a.values[Key(n, s)] == b.values[Key(n, s)]
  }

  ghost predicate Agree(plan: Plan, a: Composition, b: Composition, done: set<nat>) {
    forall n :: n in done && n in plan.nodes ==> NodeAgrees(plan, a, b, n)
  }

  lemma SameNode(plan: Plan, a: Composition, b: Composition, n: nat)
    requires n in plan.nodes && NodeComposed(plan, a, n) && NodeComposed(plan, b, n)
    requires InputsOf(plan, a.values, n) == InputsOf(plan, b.values, n)
    ensures NodeAgrees(plan, a, b, n)
  {
    var node, inputs := plan.nodes[n], InputsOf(plan, a.values, n);
    hide IsComposed, IsOutput, InputsOf;
    forall k | k in node.transfers ensures a.transfers[k] == b.transfers[k] {
      ComposedUnique(node, inputs, k, node.transfers[k], a.transfers[k], b.transfers[k]);
    }
    forall s | s in node.output ensures a.values[Key(n, s)] == b.values[Key(n, s)] {
      OutputUnique(node, inputs, a.transfers, b.transfers, s, a.values[Key(n, s)], b.values[Key(n, s)]);
    }
  }

  /** What a node receives depends on its producers only. */
  lemma SameInputs(plan: Plan, a: Composition, b: Composition, done: set<nat>, n: nat)
    requires ValidPlan(plan) && n in plan.nodes && n in NodeWaits(plan) && NodeWaits(plan)[n] <= done
    requires Agree(plan, a, b, done)
    ensures InputsOf(plan, a.values, n) == InputsOf(plan, b.values, n)
  {
    hide ValidPlan, NodeWaits, ProducerOf;
    forall s | s in plan.nodes[n].input ensures InputAt(plan, a.values, n, s) == InputAt(plan, b.values, n, s) {
      ProducerFits(plan, n, s);
      match ProducerOf(plan.edges, n, s)
      case Some(p) => assert NodeAgrees(plan, a, b, p);
      case None =>
    }
  }

  lemma AgreeNext(plan: Plan, a: Composition, b: Composition, done: set<nat>, n: nat)
    requires ValidPlan(plan) && n in plan.nodes && n in NodeWaits(plan) && NodeWaits(plan)[n] <= done
    requires Agree(plan, a, b, done)
    requires NodeComposed(plan, a, n) && NodeComposed(plan, b, n)
    ensures Agree(plan, a, b, done + {n})
  {
    SameInputs(plan, a, b, done, n);
    SameNode(plan, a, b, n);
    hide ValidPlan, NodeWaits, NodeComposed, NodeAgrees;
  }

  lemma {:induction false} AgreeAll(plan: Plan, a: Composition, b: Composition, done: set<nat>)
    requires ValidPlan(plan) && G.Closed(NodeWaits(plan)) && G.Acyclic(NodeWaits(plan))
    requires IsComposition(plan, a) && IsComposition(plan, b) && done <= plan.nodes.Keys && Agree(plan, a, b, done)
    ensures Agree(plan, a, b, plan.nodes.Keys)
    decreases plan.nodes.Keys - done
  {
    WaitsAreClosed(plan);
    hide ValidPlan, Agree, NodeWaits, NodeComposed, G.Closed, G.Acyclic, Covers;
    if done != plan.nodes.Keys {
      SomeLeft(plan.nodes.Keys, done);
      var n := G.SomeNodeReady(NodeWaits(plan), done);
      AgreeNext(plan, a, b, done, n);
      AgreeAll(plan, a, b, done + {n});
    }
  }

  lemma TransferAgrees(plan: Plan, a: Composition, b: Composition, k: nat)
    requires Agree(plan, a, b, plan.nodes.Keys) && Covers(plan, a, plan.nodes.Keys) && k in a.transfers
    ensures k in b.transfers && a.transfers[k] == b.transfers[k]
  {
    var n :| n in plan.nodes && k in plan.nodes[n].transfers;
    assert NodeAgrees(plan, a, b, n);
  }

  lemma AgreeSwap(plan: Plan, a: Composition, b: Composition, done: set<nat>)
    requires Agree(plan, a, b, done)
    ensures Agree(plan, b, a, done)
  {
    forall n | n in done && n in plan.nodes ensures NodeAgrees(plan, b, a, n) {
      assert NodeAgrees(plan, a, b, n);
    }
  }

  lemma SameTransfers(plan: Plan, a: Composition, b: Composition)
    requires Agree(plan, a, b, plan.nodes.Keys) && Covers(plan, a, plan.nodes.Keys) && Covers(plan, b, plan.nodes.Keys)
    ensures a.transfers == b.transfers
  {
    AgreeSwap(plan, a, b, plan.nodes.Keys);
    hide Agree, Covers;
    forall k | k in a.transfers ensures k in b.transfers && a.transfers[k] == b.transfers[k] {
      TransferAgrees(plan, a, b, k);
    }
    forall k | k in b.transfers ensures k in a.transfers {
      TransferAgrees(plan, b, a, k);
    }
  }

  lemma SameValues(plan: Plan, a: Composition, b: Composition)
    requires Agree(plan, a, b, plan.nodes.Keys) && Covers(plan, a, plan.nodes.Keys) && Covers(plan, b, plan.nodes.Keys)
    ensures a.values == b.values
  {
    forall x | x in a.values ensures x in b.values && a.values[x] == b.values[x] {
      assert NodeAgrees(plan, a, b, x.node) && x == Key(x.node, x.slot);
    }
    forall x | x in b.values ensures x in a.values {
      assert NodeAgrees(plan, a, b, x.node) && x == Key(x.node, x.slot);
    }
  }

  /** A plan has at most one composition. */
  lemma CompositionIsUnique(plan: Plan, a: Composition, b: Composition)
    requires ValidPlan(plan) && G.Closed(NodeWaits(plan)) && G.Acyclic(NodeWaits(plan))
    requires IsComposition(plan, a) && IsComposition(plan, b)
    ensures a == b
  {
    AgreeAll(plan, a, b, {});
    hide ValidPlan, Agree, NodeWaits, NodeComposed, Covers, G.Closed, G.Acyclic;
    SameTransfers(plan, a, b);
    SameValues(plan, a, b);
  }
}
