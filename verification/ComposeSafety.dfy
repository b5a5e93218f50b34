/** What holds of every composition of a plan (vericcl/composer/compose.py, _compose_schedules): its transfers
    wait for each other without a cycle, its paths lead from the source of a slice, and there is only one. */
module ComposeSafety {
  import opened Basics
  import opened AtomPaths
  import opened Ordering
  import opened Composition
  import G = Graphs
  import P = PlanOrder

  // ---------------------------------------------------------------- paths

  /** Every value a node receives rests at the rank of its slot. */
  ghost predicate InputsBring(plan: Plan, node: Node, inputs: Inputs)
    requires plan.sliceCount > 0
  {
    && inputs.Keys == node.input.Keys
    && forall s :: s in node.input ==> ValueBrings(plan, s, node.input[s], inputs[s])
  }

  ghost predicate ValueBrings(plan: Plan, s: Slot, contributors: set<nat>, v: Value)
    requires plan.sliceCount > 0
  {
    v.paths.Keys == contributors && forall m :: m in v.paths ==> Brings(v.paths[m], Origin(plan, m), s.rank)
  }

  /** What the constructors of a global schedule check of a transfer: every atom walks from the source of its
      slice, makes the transfer's hop last, and has arrived before the transfer starts. */
  ghost predicate GlobalTransfer(plan: Plan, c: Composed)
    requires plan.sliceCount > 0
  {
    && c.src != c.dst && 0.0 <= c.st <= c.ed && c.atoms != map[]
    && forall m :: m in c.atoms ==> GlobalAtom(plan, c, m, c.atoms[m])
  }

  ghost predicate GlobalAtom(plan: Plan, c: Composed, m: nat, path: Path)
    requires plan.sliceCount > 0
  {
    && Walk(path, Origin(plan, m), c.dst) && Last(path).src == c.src && Last(path).ready <= c.st
    && path[|path| - 1].id == c.stage && path[|path| - 1].reduce == c.reduce
  }

  lemma PriorBrings(plan: Plan, node: Node, inputs: Inputs, rank: nat, m: nat, prior: Path)
    requires plan.sliceCount > 0 && InputsBring(plan, node, inputs) && IsPrior(node, inputs, rank, m, prior)
    ensures Brings(prior, Origin(plan, m), rank)
  {
    hide Brings, Origin;
    var s :| SlotsAt(node, rank, m) == {s} && s in inputs && m in inputs[s].paths && prior == inputs[s].paths[m];
    assert s in SlotsAt(node, rank, m);
    assert ValueBrings(plan, s, node.input[s], inputs[s]);
  }

  lemma LastOfSpliced(prior: Path, q: Path)
    requires ValidPath(q) && q != [] && ValidPath(prior)
    ensures var w := prior + Delayed(q, Arrival(prior));
            w[|w| - 1].id == q[|q| - 1].id && w[|w| - 1].reduce == q[|q| - 1].reduce
            && w[|w| - 1].symbols != [] && Last(w).src == Last(q).src
            && Last(w).ready == Max(Arrival(prior), Last(q).ready)
  {
    DelayedValid(q, Arrival(prior));
    hide Arrival;
  }

  /** The spliced path of an atom passes every check of the constructors but one: a stage out of order. */
  lemma AtomWalks(plan: Plan, node: Node, inputs: Inputs, id: nat, t: NodeTransfer, c: Composed, m: nat)
    requires plan.sliceCount > 0 && InputsBring(plan, node, inputs) && ValidTransfer(t)
    requires IsComposed(node, inputs, id, t, c)
    requires m in t.atoms
    ensures m in c.atoms && GlobalAtom(plan, c, m, c.atoms[m])
  {
    hide InputsBring, IsPrior, IsStart, ReceiverSlots, ReceiverDeps, AtomsDeps, Walk, Brings, ValidPath, Origin,
    Arrival;
    assert IsSpliced(node, inputs, t, m, c.atoms[m]);
    assert ValidAtom(t, t.atoms[m]);
    var a := t.atoms[m];
    var prior :| IsPrior(node, inputs, a.root, m, prior) && c.atoms[m] == prior + Delayed(a.path, Arrival(prior));
    PriorBrings(plan, node, inputs, a.root, m, prior);
    SplicedIsWalk(prior, a.path, Origin(plan, m), a.root, t.dst);
    WalkParts(a.path, a.root, t.dst);
    LastOfSpliced(prior, a.path);
    ArrivalIsLast(c.atoms[m]);
    StartsAfter(c.atoms, t.st, c.st, m);
  }

  /** An atom can be spliced exactly when one input holds its contribution and the stages ascend at the seam. */
  lemma SplicedExactly(plan: Plan, node: Node, inputs: Inputs, t: NodeTransfer, m: nat)
    requires plan.sliceCount > 0 && InputsBring(plan, node, inputs) && ValidTransfer(t) && m in t.atoms
    ensures (exists p :: IsSpliced(node, inputs, t, m, p))
            <==> exists prior: Path :: IsPrior(node, inputs, t.atoms[m].root, m, prior)
                                 && (prior == [] || prior[|prior| - 1].id < t.atoms[m].path[0].id)
  {
    hide InputsBring, IsPrior, Walk, Brings, ValidPath, Origin, Arrival, Delayed;
    var a := t.atoms[m];
    assert ValidAtom(t, a);
    WalkParts(a.path, a.root, t.dst);
    if p :| IsSpliced(node, inputs, t, m, p) {
      var prior :| IsPrior(node, inputs, a.root, m, prior) && p == prior + Delayed(a.path, Arrival(prior));
      PriorBrings(plan, node, inputs, a.root, m, prior);
      SplicedIsWalk(prior, a.path, Origin(plan, m), a.root, t.dst);
    }
    if prior: Path :| IsPrior(node, inputs, a.root, m, prior) && (prior == [] || prior[|prior| - 1].id < a.path[0].id) {
      PriorBrings(plan, node, inputs, a.root, m, prior);
      SplicedIsWalk(prior, a.path, Origin(plan, m), a.root, t.dst);
      assert IsSpliced(node, inputs, t, m, prior + Delayed(a.path, Arrival(prior)));
    }
  }

  lemma StartsAfter(atoms: map<nat, Path>, st: real, start: real, m: nat)
    requires IsStart(atoms, st, start) && m in atoms
    ensures Arrival(atoms[m]) <= start
  {
  }

  lemma TransferWalks(plan: Plan, node: Node, inputs: Inputs, id: nat, t: NodeTransfer, c: Composed)
    requires plan.sliceCount > 0 && InputsBring(plan, node, inputs) && ValidTransfer(t)
    requires IsComposed(node, inputs, id, t, c)
    ensures GlobalTransfer(plan, c) && c.dst == t.dst && c.atoms.Keys == t.atoms.Keys
  {
    hide GlobalAtom, InputsBring, IsSpliced, ValidAtom, ReceiverSlots, ReceiverDeps, AtomsDeps;
    forall m | m in c.atoms ensures GlobalAtom(plan, c, m, c.atoms[m]) {
      AtomWalks(plan, node, inputs, id, t, c, m);
    }
    assert t.atoms.Keys != {};
  }

  ghost predicate AllWalk(plan: Plan, node: Node, transfers: map<nat, Composed>)
    requires plan.sliceCount > 0
  {
    forall k :: k in node.transfers ==>
      k in transfers && GlobalTransfer(plan, transfers[k]) && transfers[k].dst == node.transfers[k].dst
  }

  lemma WalkOf(plan: Plan, node: Node, transfers: map<nat, Composed>, k: nat, m: nat)
    requires plan.sliceCount > 0 && AllWalk(plan, node, transfers) && k in node.transfers && k in transfers
    requires m in transfers[k].atoms
    ensures Brings(transfers[k].atoms[m], Origin(plan, m), node.transfers[k].dst)
  {
    hide ValidPath, Origin;
    assert GlobalAtom(plan, transfers[k], m, transfers[k].atoms[m]);
  }

  /** Whatever a node hands on rests at the rank of the slot it is handed on in. */
  lemma OutputPathBrings(plan: Plan, node: Node, inputs: Inputs, transfers: map<nat, Composed>, slot: Slot, m: nat,
                         candidates: seq<nat>, path: Path)
    requires plan.sliceCount > 0 && InputsBring(plan, node, inputs) && AllWalk(plan, node, transfers)
    requires IsOutputPath(node, inputs, transfers, slot, m, candidates, path)
    ensures Brings(path, Origin(plan, m), slot.rank)
  {
    hide InputsBring, AllWalk, Brings, Origin, IsPrior;
    if i: nat :| FirstSupplier(node, slot, m, candidates, i) {
      var j: nat :| FirstSupplier(node, slot, m, candidates, j) && candidates[j] in transfers
          && m in transfers[candidates[j]].atoms
                    && path == transfers[candidates[j]].atoms[m];
      WalkOf(plan, node, transfers, candidates[j], m);
    } else {
      PriorBrings(plan, node, inputs, slot.rank, m, path);
    }
  }

  lemma OutputBrings(plan: Plan, node: Node, inputs: Inputs, transfers: map<nat, Composed>, slot: Slot, v: Value)
    requires plan.sliceCount > 0 && InputsBring(plan, node, inputs) && AllWalk(plan, node, transfers)
    requires slot in node.output && IsOutput(node, inputs, transfers, slot, v)
    ensures ValueBrings(plan, slot, node.output[slot], v)
  {
    hide InputsBring, AllWalk, Brings, Origin, IsOutputPath, IsMatches, IsCandidates, IsOutputDeps;
    var matches, candidates :| IsOutputOver(node, inputs, transfers, slot, matches, candidates, v);
    forall m | m in v.paths ensures Brings(v.paths[m], Origin(plan, m), slot.rank) {
      OutputPathBrings(plan, node, inputs, transfers, slot, m, candidates, v.paths[m]);
    }
  }

  // ---------------------------------------------------------------- node by node

  function NodeWaits(plan: Plan): G.Dependencies {
    P.Waits(plan.nodes.Keys, LinksOf(plan.edges))
  }

  function TransfersOf(plan: Plan, done: set<nat>): set<nat> {
    set n, k | n in done && n in plan.nodes && k in plan.nodes[n].transfers :: k
  }

  lemma WaitsAreClosed(plan: Plan)
    requires ValidPlan(plan)
    ensures G.Closed(NodeWaits(plan)) && NodeWaits(plan).Keys == plan.nodes.Keys
  {
    var links := LinksOf(plan.edges);
    forall i | 0 <= i < |links| ensures links[i].producer in plan.nodes && links[i].consumer in plan.nodes {
      assert ValidEdge(plan, plan.edges[i]);
    }
    P.WaitsClosed(plan.nodes.Keys, links);
    P.WaitsKeys(plan.nodes.Keys, links);
  }

  /** The producer of an input is a node its consumer waits for, and makes exactly what is consumed. */
  lemma ProducerFits(plan: Plan, n: nat, s: Slot)
    requires ValidPlan(plan) && n in plan.nodes && s in plan.nodes[n].input
    ensures match ProducerOf(plan.edges, n, s)
            case Some(p) => p in NodeWaits(plan)[n] && p in plan.nodes && s in plan.nodes[p].output
              && plan.nodes[p].output[s] == plan.nodes[n].input[s]
            case None => s in plan.initial && plan.initial[s] == plan.nodes[n].input[s]
  {
    match ProducerOf(plan.edges, n, s)
    case Some(p) =>
      var i :| 0 <= i < |plan.edges| && plan.edges[i].consumer == n && s in plan.edges[i].interface
          && plan.edges[i].producer == p;
      assert ValidEdge(plan, plan.edges[i]);
      assert LinksOf(plan.edges)[i] == P.Link(p, n);
      P.ProducerIsLinked(LinksOf(plan.edges), p, n);
    case None =>
      assert Supplied(plan, n);
  }

  lemma OriginOf(rank: nat, offset: nat, count: nat)
    requires offset < count
    ensures (rank * count + offset) / count == rank
  {
    var x := rank * count + offset;
    var q := x / count;
    var r := x % count;
    assert x == q * count + r && 0 <= r < count;
    if q > rank {
      AtLeastOnce(q, rank, count);
    } else if q < rank {
      AtLeastOnce(rank, q, count);
    }
  }

  lemma AtLeastOnce(a: int, b: int, count: nat)
    requires a > b
    ensures a * count >= b * count + count
  {
    assert (a - b - 1) * count >= 0;
    assert a * count == (a - b - 1) * count + b * count + count;
  }

  lemma InitialBrings(plan: Plan, s: Slot, contributors: set<nat>)
    requires ValidPlan(plan) && s in plan.initial && plan.initial[s] == contributors
    ensures ValueBrings(plan, s, contributors, Value({}, map m | m in contributors :: []))
  {
    assert s.offset < plan.sliceCount && contributors == {s.rank * plan.sliceCount + s.offset};
    hide ValidPlan;
    OriginOf(s.rank, s.offset, plan.sliceCount);
  }

  ghost predicate ValueSettled(plan: Plan, c: Composition, done: set<nat>, n: nat, s: Slot)
    requires plan.sliceCount > 0 && n in plan.nodes && s in plan.nodes[n].output
  {
    && Key(n, s) in c.values && ValueBrings(plan, s, plan.nodes[n].output[s], c.values[Key(n, s)])
    && c.values[Key(n, s)].deps <= TransfersOf(plan, done)
  }

  ghost predicate Settled(plan: Plan, c: Composition, done: set<nat>)
    requires plan.sliceCount > 0
  {
    forall n, s :: n in done && n in plan.nodes && s in plan.nodes[n].output ==> ValueSettled(plan, c, done, n, s)
  }

  ghost predicate DepsWithin(inputs: Inputs, ids: set<nat>) {
    forall s :: s in inputs ==> inputs[s].deps <= ids
  }

  lemma InputSettled(plan: Plan, c: Composition, done: set<nat>, n: nat, s: Slot)
    requires ValidPlan(plan) && Settled(plan, c, done) && n in plan.nodes && n in NodeWaits(plan)
    requires NodeWaits(plan)[n] <= done
    requires s in plan.nodes[n].input
    ensures ValueBrings(plan, s, plan.nodes[n].input[s], InputAt(plan, c.values, n, s))
    ensures InputAt(plan, c.values, n, s).deps <= TransfersOf(plan, done)
  {
    ProducerFits(plan, n, s);
    PlanParts(plan);
    hide ProducerOf, NodeWaits, TransfersOf, ValidPlan, ValueBrings;
    match ProducerOf(plan.edges, n, s)
    case Some(p) =>
      assert ValueSettled(plan, c, done, p, s);
    case None =>
      InitialBrings(plan, s, plan.nodes[n].input[s]);
  }

  lemma InputsSettled(plan: Plan, c: Composition, done: set<nat>, n: nat)
    requires ValidPlan(plan) && Settled(plan, c, done) && n in plan.nodes && n in NodeWaits(plan)
    requires NodeWaits(plan)[n] <= done
    ensures InputsBring(plan, plan.nodes[n], InputsOf(plan, c.values, n))
    ensures DepsWithin(InputsOf(plan, c.values, n), TransfersOf(plan, done))
  {
    hide ValidPlan, Settled, NodeWaits, TransfersOf, ValueBrings, InputAt;
    assert plan.sliceCount > 0 by {
      PlanParts(plan);
    }
    forall s | s in plan.nodes[n].input
      ensures ValueBrings(plan, s, plan.nodes[n].input[s], InputAt(plan, c.values, n, s))
      ensures InputAt(plan, c.values, n, s).deps <= TransfersOf(plan, done)
    {
      InputSettled(plan, c, done, n, s);
    }
  }

  lemma PlanParts(plan: Plan)
    requires ValidPlan(plan)
    ensures plan.sliceCount > 0
    ensures forall n, k :: n in plan.nodes && k in plan.nodes[n].transfers ==> ValidTransfer(plan.nodes[n].transfers[k])
  {
  }

  lemma NodeWalks(plan: Plan, c: Composition, n: nat)
    requires ValidPlan(plan) && n in plan.nodes && NodeComposed(plan, c, n)
    requires InputsBring(plan, plan.nodes[n], InputsOf(plan, c.values, n))
    ensures AllWalk(plan, plan.nodes[n], c.transfers)
  {
    PlanParts(plan);
    var node, inputs := plan.nodes[n], InputsOf(plan, c.values, n);
    hide ValidPlan, InputsBring, IsComposed, IsOutput, GlobalTransfer, ValidTransfer, InputsOf;
    forall k | k in node.transfers
      ensures k in c.transfers && GlobalTransfer(plan, c.transfers[k]) && c.transfers[k].dst == node.transfers[k].dst
    {
      TransferWalks(plan, node, inputs, k, node.transfers[k], c.transfers[k]);
    }
  }

  lemma OutputDepsWithin(node: Node, inputs: Inputs, transfers: map<nat, Composed>, slot: Slot, v: Value, ids: set<nat>)
    requires slot in node.output && IsOutput(node, inputs, transfers, slot, v)
    requires DepsWithin(inputs, ids)
    ensures v.deps <= ids + node.transfers.Keys
  {
    hide IsOutputPath, IsCandidates, Passthrough;
    var matches, candidates :| IsOutputOver(node, inputs, transfers, slot, matches, candidates, v);
    forall d | d in v.deps ensures d in ids + node.transfers.Keys {
      if matches != [] {
        assert d in matches;
        if !node.routing {
          assert d in Delivering(node, slot);
        }
      }
    }
  }

  lemma NodeSettles(plan: Plan, c: Composition, done: set<nat>, n: nat, s: Slot)
    requires ValidPlan(plan) && n in plan.nodes && NodeComposed(plan, c, n) && s in plan.nodes[n].output
    requires InputsBring(plan, plan.nodes[n], InputsOf(plan, c.values, n))
    requires DepsWithin(InputsOf(plan, c.values, n), TransfersOf(plan, done))
    ensures ValueSettled(plan, c, done + {n}, n, s)
  {
    PlanParts(plan);
    NodeWalks(plan, c, n);
    var node, inputs := plan.nodes[n], InputsOf(plan, c.values, n);
    hide ValidPlan, InputsBring, IsComposed, IsOutput, DepsWithin, AllWalk, ValueBrings, InputsOf;
    OutputBrings(plan, node, inputs, c.transfers, s, c.values[Key(n, s)]);
    OutputDepsWithin(node, inputs, c.transfers, s, c.values[Key(n, s)], TransfersOf(plan, done));
    MoreTransfers(plan, done, n);
  }

  lemma MoreTransfers(plan: Plan, done: set<nat>, n: nat)
    requires n in plan.nodes
    ensures TransfersOf(plan, done + {n}) == TransfersOf(plan, done) + plan.nodes[n].transfers.Keys
  {
  }

  lemma SettleOne(plan: Plan, c: Composition, done: set<nat>, n: nat)
    requires ValidPlan(plan) && Settled(plan, c, done) && n in plan.nodes && NodeComposed(plan, c, n)
    requires n in NodeWaits(plan) && NodeWaits(plan)[n] <= done
    ensures Settled(plan, c, done + {n})
  {
    PlanParts(plan);
    InputsSettled(plan, c, done, n);
    MoreTransfers(plan, done, n);
    hide ValidPlan, NodeComposed, InputsBring, DepsWithin, TransfersOf, ValueBrings, NodeWaits, InputsOf;
    forall x, s | x in done + {n} && x in plan.nodes && s in plan.nodes[x].output
      ensures ValueSettled(plan, c, done + {n}, x, s)
    {
      if x == n {
        NodeSettles(plan, c, done, n, s);
      } else {
        assert ValueSettled(plan, c, done, x, s);
      }
    }
  }

  lemma {:induction false} AllSettle(plan: Plan, c: Composition, done: set<nat>)
    requires ValidPlan(plan) && G.Closed(NodeWaits(plan)) && G.Acyclic(NodeWaits(plan)) && IsComposition(plan, c)
    requires done <= plan.nodes.Keys && Settled(plan, c, done)
    ensures Settled(plan, c, plan.nodes.Keys)
    decreases plan.nodes.Keys - done
  {
    WaitsAreClosed(plan);
    hide ValidPlan, Settled, NodeWaits, NodeComposed, G.Closed, G.Acyclic, Covers;
    if done != plan.nodes.Keys {
      SomeLeft(plan.nodes.Keys, done);
      var n := G.SomeNodeReady(NodeWaits(plan), done);
      SettleOne(plan, c, done, n);
      AllSettle(plan, c, done + {n});
    }
  }

  lemma SomeLeft(all: set<nat>, done: set<nat>)
    requires done <= all && done != all
    ensures all - done != {}
  {
    assert all == done + (all - done);
  }

  /** Every value in a composition rests at its slot's rank, each contribution having come from its source. */
  lemma EveryValueArrives(plan: Plan, c: Composition, n: nat, s: Slot, m: nat)
    requires ValidPlan(plan) && G.Closed(NodeWaits(plan)) && G.Acyclic(NodeWaits(plan)) && IsComposition(plan, c)
    requires n in plan.nodes && s in plan.nodes[n].output && m in plan.nodes[n].output[s]
    ensures Key(n, s) in c.values && m in c.values[Key(n, s)].paths
    ensures Brings(c.values[Key(n, s)].paths[m], Origin(plan, m), s.rank)
    ensures c.values[Key(n, s)].deps <= c.transfers.Keys
  {
    AllSettle(plan, c, {});
    assert ValueSettled(plan, c, plan.nodes.Keys, n, s);
    TransfersAre(plan, c);
  }

  lemma TransfersAre(plan: Plan, c: Composition)
    requires IsComposition(plan, c)
    ensures c.transfers.Keys == TransfersOf(plan, plan.nodes.Keys)
  {
    hide IsComposed, IsOutput;
    forall k | k in TransfersOf(plan, plan.nodes.Keys) ensures k in c.transfers {
      var n :| n in plan.nodes && k in plan.nodes[n].transfers;
      assert NodeComposed(plan, c, n);
    }
  }

  /** Every composed transfer passes the checks of a global schedule: each of its atoms is a contiguous walk from
      the source of its slice, with nondecreasing ready times, ending with the transfer itself. */
  lemma EveryTransferIsGlobal(plan: Plan, c: Composition, k: nat)
    requires ValidPlan(plan) && G.Closed(NodeWaits(plan)) && G.Acyclic(NodeWaits(plan)) && IsComposition(plan, c)
    requires k in c.transfers
    ensures GlobalTransfer(plan, c.transfers[k])
  {
    AllSettle(plan, c, {});
    WaitsAreClosed(plan);
    var n :| n in plan.nodes && k in plan.nodes[n].transfers;
    assert NodeComposed(plan, c, n);
    hide ValidPlan, Settled, NodeWaits, NodeComposed, G.Acyclic, Covers, GlobalTransfer, InputsBring;
    WaitsWithin(NodeWaits(plan), n);
    InputsSettled(plan, c, plan.nodes.Keys, n);
    NodeWalks(plan, c, n);
  }

  lemma WaitsWithin(deps: G.Dependencies, n: nat)
    requires G.Closed(deps) && n in deps
    ensures deps[n] <= deps.Keys
  {
  }
}
