/** What it means for a schedule to be the composition of the node schedules of a plan
    (vericcl/composer/compose.py, _compose_schedules).

    A composition is described without an order of nodes: each composed transfer and each value handed from
    one node to the next is related to the values the node receives.  Identifiers are numbers, times exact. */
module Composition {
  import opened Basics
  import opened AtomPaths
  import opened Ordering
  import P = PlanOrder

  datatype Slot = Slot(rank: nat, offset: nat)

  /** Which contributions rest in which slot. */
  type Interface = map<Slot, set<nat>>

  /** `root` is the rank at which the stage takes the contribution up. */
  datatype NodeAtom = NodeAtom(root: nat, path: Path)

  datatype NodeTransfer = NodeTransfer(
    reduce: bool, src: nat, dst: nat, channel: nat, stage: nat, st: real, ed: real,
    semantic: set<nat>, contributors: set<nat>, atoms: map<nat, NodeAtom>, slots: map<nat, nat>)

  /** A plan node with its schedule; the last two fields are the metadata of a routing-only schedule. */
  datatype Node = Node(
    stage: nat, input: Interface, output: Interface, transfers: map<nat, NodeTransfer>,
    routing: bool, finalOutputs: Interface, finalDependencies: map<Slot, seq<nat>>)

  datatype Edge = Edge(producer: nat, consumer: nat, interface: Interface)

  datatype Plan = Plan(sliceCount: nat, initial: Interface, nodes: map<nat, Node>, edges: seq<Edge>, finals: Interface)

  /** The transfers that deliver a value, and the path of each contribution in it. */
  datatype Value = Value(deps: set<nat>, paths: map<nat, Path>)

  type Inputs = map<Slot, Value>

  datatype Composed = Composed(
    reduce: bool, src: nat, dst: nat, channel: nat, stage: nat, st: real, ed: real,
    predecessors: set<nat>, atoms: map<nat, Path>, slots: map<nat, nat>)

  datatype Key = Key(node: nat, slot: Slot)

  datatype Composition = Composition(transfers: map<nat, Composed>, values: map<Key, Value>)

  datatype ComposeError =
    | NoProducer | NoInputSlot | NoReceiverInput | BadPath | DependsOnItself | ConflictingReuse
    | InconsistentOutput | MissingFinalDependency | MissingPredecessor | NoPassthrough | NoInputPath

  // ---------------------------------------------------------------- well-formed plans

  /** What the constructors of transfers and stage-suffix schedules guarantee. */
  ghost predicate ValidTransfer(t: NodeTransfer) {
    && t.src != t.dst && 0.0 <= t.st <= t.ed && t.atoms != map[]
    && forall m :: m in t.atoms ==> ValidAtom(t, t.atoms[m])
  }

  ghost predicate ValidAtom(t: NodeTransfer, a: NodeAtom) {
    && Walk(a.path, a.root, t.dst) && Last(a.path).src == t.src && Last(a.path).ready <= t.st
    && a.path[|a.path| - 1].id == t.stage && a.path[|a.path| - 1].reduce == t.reduce
  }

  function LinksOf(edges: seq<Edge>): (links: seq<P.Link>)
    ensures |links| == |edges|
  {
    seq(|edges|, i requires 0 <= i < |edges| => P.Link(edges[i].producer, edges[i].consumer))
  }

  /** An edge hands over values its producer makes and its consumer takes. */
  ghost predicate ValidEdge(plan: Plan, e: Edge) {
    && e.producer in plan.nodes && e.consumer in plan.nodes
    && forall s :: s in e.interface ==>
         && s in plan.nodes[e.producer].output && plan.nodes[e.producer].output[s] == e.interface[s]
         && s in plan.nodes[e.consumer].input && plan.nodes[e.consumer].input[s] == e.interface[s]
  }

  /** Slice m starts at rank m / sliceCount. */
  function Origin(plan: Plan, m: nat): nat
    requires plan.sliceCount > 0
  {
    m / plan.sliceCount
  }

  /** The checks of the plan's constructor, acyclicity apart. */
  ghost predicate ValidPlan(plan: Plan) {
    && plan.sliceCount > 0
    && (forall s :: s in plan.initial ==>
      s.offset < plan.sliceCount && plan.initial[s] == {s.rank * plan.sliceCount + s.offset})
    && (forall i :: 0 <= i < |plan.edges| ==> ValidEdge(plan, plan.edges[i]))
    && (forall n :: n in plan.nodes ==> Supplied(plan, n))
    && forall n, k :: n in plan.nodes && k in plan.nodes[n].transfers ==> ValidTransfer(plan.nodes[n].transfers[k])
  }

  /** Every input comes over an edge or is there from the start. */
  ghost predicate Supplied(plan: Plan, n: nat)
    requires n in plan.nodes
  {
    forall s :: s in plan.nodes[n].input && ProducerOf(plan.edges, n, s).None? ==>
      s in plan.initial && plan.initial[s] == plan.nodes[n].input[s]
  }

  /** The producer named by the last edge into node n that carries slot s. */
  function ProducerOf(edges: seq<Edge>, n: nat, s: Slot): (p: Option<nat>)
    ensures p.Some? ==> exists i ::
        0 <= i < |edges| && edges[i].consumer == n && s in edges[i].interface && edges[i].producer == p.value
    ensures p.None? ==> forall i :: 0 <= i < |edges| ==> edges[i].consumer != n || s !in edges[i].interface
  {
    if edges == [] then None
    else
      var e := edges[|edges| - 1];
      if e.consumer == n && s in e.interface then Some(e.producer) else ProducerOf(edges[..|edges| - 1], n, s)
  }

  // ---------------------------------------------------------------- what a node receives

  /** The value of slot s at node n: what its producer made, or the untouched initial contributions. */
  function InputAt(plan: Plan, values: map<Key, Value>, n: nat, s: Slot): Value
    requires n in plan.nodes && s in plan.nodes[n].input
  {
    match ProducerOf(plan.edges, n, s)
    case Some(p) => if Key(p, s) in values then values[Key(p, s)] else Value({}, map[])
    case None => Value({}, map m | m in plan.nodes[n].input[s] :: [])
  }

  function InputsOf(plan: Plan, values: map<Key, Value>, n: nat): (inputs: Inputs)
    requires n in plan.nodes
    ensures inputs.Keys == plan.nodes[n].input.Keys
  {
    map s | s in plan.nodes[n].input :: InputAt(plan, values, n, s)
  }

  // ---------------------------------------------------------------- a composed transfer

  /** The inputs of a rank that hold contribution m. */
  function SlotsAt(node: Node, rank: nat, m: nat): set<Slot> {
    set s | s in node.input && s.rank == rank && m in node.input[s]
  }

  /** The accumulators a reduction can add to. */
  function ReceiverSlots(node: Node, t: NodeTransfer): set<Slot> {
    set s | s in node.input && s.rank == t.dst && node.input[s] <= t.contributors
  }

  function DepsOf(inputs: Inputs, slots: set<Slot>): set<nat> {
    set s, d | s in slots && s in inputs && d in inputs[s].deps :: d
  }

  /** An atom waits for its input only where the stage takes it up; a forwarding hop waits for the hop before. */
  function AtomDeps(node: Node, inputs: Inputs, t: NodeTransfer, m: nat): set<nat>
    requires m in t.atoms
  {
    if t.atoms[m].root == t.src then DepsOf(inputs, SlotsAt(node, t.src, m)) else {}
  }

  function AtomsDeps(node: Node, inputs: Inputs, t: NodeTransfer, members: set<nat>): set<nat> {
    set m, d | m in members && m in t.atoms && d in AtomDeps(node, inputs, t, m) :: d
  }

  function ReceiverDeps(node: Node, inputs: Inputs, t: NodeTransfer): set<nat> {
    if t.reduce then DepsOf(inputs, ReceiverSlots(node, t)) else {}
  }

  /** The path behind which the stage's path of atom m is spliced. */
  ghost predicate IsPrior(node: Node, inputs: Inputs, rank: nat, m: nat, prior: Path) {
    exists s :: SlotsAt(node, rank, m) == {s} && s in inputs && m in inputs[s].paths && prior == inputs[s].paths[m]
  }

  ghost predicate IsSpliced(node: Node, inputs: Inputs, t: NodeTransfer, m: nat, path: Path)
    requires m in t.atoms
  {
    && ValidPath(path)
    && exists prior ::
      IsPrior(node, inputs, t.atoms[m].root, m, prior) && path == prior + Delayed(t.atoms[m].path, Arrival(prior))
  }

  /** The latest of a time and the arrivals of some paths. */
  ghost predicate IsStart(atoms: map<nat, Path>, st: real, start: real) {
    && st <= start && (forall m :: m in atoms ==> Arrival(atoms[m]) <= start)
    && (start == st || exists m :: m in atoms && Arrival(atoms[m]) == start)
  }

  ghost predicate IsComposed(node: Node, inputs: Inputs, id: nat, t: NodeTransfer, c: Composed) {
    && c.reduce == t.reduce && c.src == t.src && c.dst == t.dst && c.channel == t.channel && c.stage == t.stage
    && c.slots == t.slots
    && c.atoms.Keys == t.atoms.Keys
    && (forall m :: m in t.atoms ==> IsSpliced(node, inputs, t, m, c.atoms[m]))
    && IsStart(c.atoms, t.st, c.st) && c.ed == c.st + (t.ed - t.st)
    && (t.reduce ==> exists s :: ReceiverSlots(node, t) == {s})
    && c.predecessors == t.semantic + ReceiverDeps(node, inputs, t) + AtomsDeps(node, inputs, t, t.atoms.Keys)
    && id !in c.predecessors
  }

  // ---------------------------------------------------------------- what a node hands on

  function Delivering(node: Node, slot: Slot): set<nat>
    requires slot in node.output
  {
    set k | k in node.transfers && node.transfers[k].dst == slot.rank
      && node.transfers[k].contributors == node.output[slot]
  }

  /** The transfers on which an output waits: those named by the metadata, or those that deliver it, by identifier. */
  ghost predicate IsMatches(node: Node, slot: Slot, matches: seq<nat>)
    requires slot in node.output
  {
    if node.routing then
      && NamedOutput(node, slot) == node.output[slot]
      && matches == NamedDependencies(node, slot) && forall k :: k in matches ==> k in node.transfers
    else IsSorted(matches, Delivering(node, slot))
  }

  /** The contributors the metadata names for a slot, none when it does not. */
  function NamedOutput(node: Node, slot: Slot): set<nat> {
    if slot in node.finalOutputs then node.finalOutputs[slot] else {}
  }

  function NamedDependencies(node: Node, slot: Slot): seq<nat> {
    if slot in node.finalDependencies then node.finalDependencies[slot] else []
  }

  ghost predicate ClosedUnder(node: Node, ids: set<nat>) {
    && ids <= node.transfers.Keys
    && forall k :: k in ids ==> node.transfers[k].semantic <= ids
  }

  /** The least set of transfers that holds the matches and every semantic predecessor of its members. */
  ghost predicate IsClosure(node: Node, matches: set<nat>, closure: set<nat>) {
    && matches <= closure && ClosedUnder(node, closure)
    && forall other :: matches <= other && ClosedUnder(node, other) ==> closure <= other
  }

  /** The matches first, then their other ancestors by identifier. */
  ghost predicate IsCandidates(node: Node, matches: seq<nat>, candidates: seq<nat>) {
    if !node.routing || matches == [] then candidates == matches
    else exists closure, others :: IsExtended(node, matches, closure, others, candidates)
  }

  ghost predicate IsExtended(node: Node, matches: seq<nat>, closure: set<nat>, others: seq<nat>, candidates: seq<nat>) {
    && IsClosure(node, Elements(matches), closure) && IsSorted(others, closure - Elements(matches))
    && candidates == matches + others
  }

  /** Transfer k arrives at the output's rank with contribution m. */
  predicate Supplies(node: Node, slot: Slot, m: nat, k: nat) {
    k in node.transfers && node.transfers[k].dst == slot.rank && m in node.transfers[k].atoms
  }

  ghost predicate FirstSupplier(node: Node, slot: Slot, m: nat, candidates: seq<nat>, i: nat) {
    i < |candidates| && Supplies(node, slot, m, candidates[i])
      && forall j :: 0 <= j < i ==> !Supplies(node, slot, m, candidates[j])
  }

  ghost predicate IsOutputPath(node: Node, inputs: Inputs, transfers: map<nat, Composed>, slot: Slot, m: nat,
                               candidates: seq<nat>, path: Path) {
    if exists i: nat :: FirstSupplier(node, slot, m, candidates, i) then
      exists i: nat ::
        FirstSupplier(node, slot, m, candidates, i) && candidates[i] in transfers && m in transfers[candidates[i]].atoms
                  && path == transfers[candidates[i]].atoms[m]
    else IsPrior(node, inputs, slot.rank, m, path)
  }

  function Passthrough(node: Node, slot: Slot): set<Slot>
    requires slot in node.output
  {
    set s | s in node.input && s.rank == slot.rank && node.input[s] == node.output[slot]
  }

  ghost predicate IsOutputDeps(node: Node, inputs: Inputs, slot: Slot, matches: seq<nat>, deps: set<nat>)
    requires slot in node.output
  {
    if matches != [] then deps == Elements(matches)
    else exists s :: Passthrough(node, slot) == {s} && s in inputs && deps == inputs[s].deps
  }

  ghost predicate IsOutputOver(node: Node, inputs: Inputs, transfers: map<nat, Composed>, slot: Slot, matches: seq<nat>,
                               candidates: seq<nat>, v: Value)
    requires slot in node.output
  {
    && IsMatches(node, slot, matches) && IsCandidates(node, matches, candidates)
    && IsOutputDeps(node, inputs, slot, matches, v.deps)
    && v.paths.Keys == node.output[slot]
    && forall m :: m in v.paths ==> IsOutputPath(node, inputs, transfers, slot, m, candidates, v.paths[m])
  }

  ghost predicate IsOutput(node: Node, inputs: Inputs, transfers: map<nat, Composed>, slot: Slot, v: Value)
    requires slot in node.output
  {
    exists matches, candidates :: IsOutputOver(node, inputs, transfers, slot, matches, candidates, v)
  }

  // ---------------------------------------------------------------- the whole composition

  ghost predicate NodeComposed(plan: Plan, c: Composition, n: nat)
    requires n in plan.nodes
  {
    var node := plan.nodes[n];
    var inputs := InputsOf(plan, c.values, n);
    && (forall k :: k in node.transfers ==>
      k in c.transfers && IsComposed(node, inputs, k, node.transfers[k], c.transfers[k]))
    && forall s :: s in node.output ==>
      Key(n, s) in c.values && IsOutput(node, inputs, c.transfers, s, c.values[Key(n, s)])
  }

  /** Exactly the transfers and values of the given nodes. */
  ghost predicate Covers(plan: Plan, c: Composition, done: set<nat>) {
    && (forall k :: k in c.transfers ==> exists n :: n in done && n in plan.nodes && k in plan.nodes[n].transfers)
    && forall x :: x in c.values ==> x.node in done && x.node in plan.nodes && x.slot in plan.nodes[x.node].output
  }

  ghost predicate ComposedOn(plan: Plan, c: Composition, done: set<nat>) {
    && done <= plan.nodes.Keys && Covers(plan, c, done)
    && forall n :: n in done ==> NodeComposed(plan, c, n)
  }

  ghost predicate IsComposition(plan: Plan, c: Composition) {
    ComposedOn(plan, c, plan.nodes.Keys)
  }
}
