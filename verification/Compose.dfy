/** The composer itself (vericcl/composer/compose.py, _compose_schedules and the helpers it calls).  It succeeds
    exactly when the plan has a composition, and then returns it.

    Loops over dictionaries and sets whose order cannot be observed take any next element; which of several
    errors is named depends on that order. */
module Compose {
  import opened Basics
  import opened AtomPaths
  import opened Ordering
  import opened Composition
  import opened ComposeSafety
  import opened ComposeUnique
  import G = Graphs
  import P = PlanOrder

  // ---------------------------------------------------------------- inputs of a node

  ghost predicate AreProducers(edges: seq<Edge>, producers: map<Key, nat>) {
    forall n, s :: ProducerOf(edges, n, s) == if Key(n, s) in producers then Some(producers[Key(n, s)]) else None
  }

  /** _incoming_producers: the last edge that carries a slot wins. */
  method IncomingProducers(edges: seq<Edge>) returns (producers: map<Key, nat>)
    ensures AreProducers(edges, producers)
  {
    producers := map[];
    for i := 0 to |edges|
      invariant AreProducers(edges[..i], producers)
    {
      var e := edges[i];
      ghost var before := producers;
      var rest := e.interface.Keys;
      while rest != {}
        invariant rest <= e.interface.Keys
        invariant forall x ::
            x in producers <==> x in before || (x.node == e.consumer && x.slot in e.interface && x.slot !in rest)
        invariant forall x :: x in producers ==>
          producers[x] == if x.node == e.consumer && x.slot in e.interface && x.slot !in rest then e.producer
                          else if x in before then before[x] else 0
        decreases rest
      {
        var s :| s in rest;
        producers := producers[Key(e.consumer, s) := e.producer];
        rest := rest - {s};
      }
      EdgeAdded(edges[..i], e, before, producers);
      assert edges[..i + 1] == edges[..i] + [e];
    }
    assert edges[..|edges|] == edges;
  }

  lemma EdgeAdded(edges: seq<Edge>, e: Edge, before: map<Key, nat>, producers: map<Key, nat>)
    requires AreProducers(edges, before)
    requires forall x :: x in producers <==> x in before || (x.node == e.consumer && x.slot in e.interface)
    requires forall x :: x in producers ==>
        producers[x]
        == if x.node == e.consumer && x.slot in e.interface then e.producer else if x in before then before[x] else 0
    ensures AreProducers(edges + [e], producers)
  {
    forall n, s
      ensures ProducerOf(edges + [e], n, s) == if Key(n, s) in producers then Some(producers[Key(n, s)]) else None
    {
      assert (edges + [e])[..|edges|] == edges;
      assert ProducerOf(edges + [e], n, s)
             == if e.consumer == n && s in e.interface then Some(e.producer) else ProducerOf(edges, n, s);
    }
  }

  /** The values a node receives; refused exactly when some input has no producer and is not there initially. */
  method GatherInputs(plan: Plan, producers: map<Key, nat>, values: map<Key, Value>, n: nat)
    returns (r: Result<Inputs, ComposeError>)
    requires n in plan.nodes && AreProducers(plan.edges, producers)
    requires forall s :: s in plan.nodes[n].input && Key(n, s) in producers ==> Key(producers[Key(n, s)], s) in values
    ensures r.Ok? <==> Supplied(plan, n)
    ensures r.Ok? ==> r.value == InputsOf(plan, values, n)
    ensures r.Err? ==> r.error == NoProducer
  {
    hide ProducerOf;
    var input := plan.nodes[n].input;
    var inputs: Inputs := map[];
    var rest := input.Keys;
    while rest != {}
      invariant rest <= input.Keys && inputs.Keys == input.Keys - rest
      invariant forall s :: s in inputs ==> inputs[s] == InputAt(plan, values, n, s)
      invariant forall s :: s in inputs && ProducerOf(plan.edges, n, s).None? ==>
          s in plan.initial && plan.initial[s] == input[s]
      decreases rest
    {
      var s :| s in rest;
      if Key(n, s) !in producers {
        if s !in plan.initial || plan.initial[s] != input[s] {
          return Err(NoProducer);
        }
        inputs := inputs[s := Value({}, map m | m in input[s] :: [])];
      } else {
        inputs := inputs[s := values[Key(producers[Key(n, s)], s)]];
      }
      rest := rest - {s};
    }
    assert inputs == InputsOf(plan, values, n);
    return Ok(inputs);
  }

  // ---------------------------------------------------------------- one transfer

  ghost predicate InputsFit(node: Node, inputs: Inputs) {
    && inputs.Keys == node.input.Keys
    && forall s :: s in inputs ==> inputs[s].paths.Keys == node.input[s] && forall m :: m in inputs[s].paths ==>
      ValidPath(inputs[s].paths[m])
  }

  method Single(slots: set<Slot>) returns (s: Option<Slot>)
    ensures s.Some? ==> slots == {s.value}
    ensures s.None? ==> forall x :: slots != {x}
  {
    if |slots| != 1 {
      return None;
    }
    var x :| x in slots;
    Singleton(slots, x);
    return Some(x);
  }

  lemma Singleton(slots: set<Slot>, x: Slot)
    requires |slots| == 1 && x in slots
    ensures slots == {x}
  {
    assert |slots - {x}| == 0;
    assert slots == slots - {x} + {x};
  }

  lemma DepsOfOne(inputs: Inputs, s: Slot)
    requires s in inputs
    ensures DepsOf(inputs, {s}) == inputs[s].deps
  {
  }

  /** _input_slot and the path found there. */
  method PriorPath(node: Node, inputs: Inputs, rank: nat, m: nat) returns (s: Option<Slot>)
    requires InputsFit(node, inputs)
    ensures s.Some? ==> s.value in inputs && m in inputs[s.value].paths && ValidPath(inputs[s.value].paths[m])
    ensures s.Some? ==> SlotsAt(node, rank, m) == {s.value} && IsPrior(node, inputs, rank, m, inputs[s.value].paths[m])
    ensures s.None? ==> forall p :: !IsPrior(node, inputs, rank, m, p)
  {
    s := Single(SlotsAt(node, rank, m));
    if s.Some? {
      assert s.value in SlotsAt(node, rank, m);
    }
  }

  /** The rebuilt atoms of some members and what they add to the transfer. */
  ghost predicate Spliced(node: Node, inputs: Inputs, t: NodeTransfer, members: set<nat>, atoms: map<nat, Path>,
                          cross: set<nat>, start: real) {
    && members <= t.atoms.Keys && atoms.Keys == members
    && (forall m :: m in members ==> IsSpliced(node, inputs, t, m, atoms[m]))
    && cross == AtomsDeps(node, inputs, t, members) && IsStart(atoms, t.st, start)
  }

  lemma NextStart(atoms: map<nat, Path>, st: real, start: real, m: nat, path: Path)
    requires IsStart(atoms, st, start) && m !in atoms
    ensures IsStart(atoms[m := path], st, Max(start, Arrival(path)))
  {
    hide Arrival;
    var more := atoms[m := path];
    if start >= Arrival(path) {
      if start != st {
        var x :| x in atoms && Arrival(atoms[x]) == start;
        assert x in more && Arrival(more[x]) == start;
      }
    } else {
      assert m in more && Arrival(more[m]) == Arrival(path);
    }
  }

  lemma NextAtomDeps(node: Node, inputs: Inputs, t: NodeTransfer, members: set<nat>, m: nat)
    requires m in t.atoms
    ensures AtomsDeps(node, inputs, t, members + {m})
        == AtomsDeps(node, inputs, t, members) + AtomDeps(node, inputs, t, m)
  {
    hide AtomDeps;
  }

  lemma NextSpliced(node: Node, inputs: Inputs, t: NodeTransfer, members: set<nat>, atoms: map<nat, Path>,
                    cross: set<nat>, start: real,
                    m: nat, path: Path)
    requires Spliced(node, inputs, t, members, atoms, cross, start) && m in t.atoms && m !in members
    requires IsSpliced(node, inputs, t, m, path)
    ensures Spliced(node, inputs, t, members + {m}, atoms[m := path], cross
                    + AtomDeps(node, inputs, t, m), Max(start, Arrival(path)))
  {
    hide IsSpliced, AtomDeps, AtomsDeps, IsStart, Max, Arrival;
    NextStart(atoms, t.st, start, m, path);
    NextAtomDeps(node, inputs, t, members, m);
  }

  /** One atom of a transfer: its input slot, its spliced path, and the transfers it waits for. */
  method SpliceAtom(node: Node, inputs: Inputs, t: NodeTransfer, m: nat)
    returns (r: Result<Path, ComposeError>, cross: set<nat>)
    requires ValidTransfer(t) && InputsFit(node, inputs) && m in t.atoms
    ensures r.Ok? ==> IsSpliced(node, inputs, t, m, r.value) && cross == AtomDeps(node, inputs, t, m)
    ensures r.Err? ==> forall p :: !IsSpliced(node, inputs, t, m, p)
    ensures r.Err? ==> r.error == NoInputSlot || r.error == BadPath
  {
    var a := t.atoms[m];
    assert ValidAtom(t, a);
    cross := {};
    var s := PriorPath(node, inputs, a.root, m);
    if s.None? {
      return Err(NoInputSlot), {};
    }
    var prior := inputs[s.value].paths[m];
    WalkParts(a.path, a.root, t.dst);
    var path, start := PlaceholderPath(a.path, t.st, prior);
    hide Delayed, Arrival, SlotsAt, IsPrior, Walk;
    if !ValidPath(path) {
      forall p ensures !IsSpliced(node, inputs, t, m, p) {
        if IsSpliced(node, inputs, t, m, p) {
          var x :| IsPrior(node, inputs, a.root, m, x) && p == x + Delayed(a.path, Arrival(x));
          PriorUnique(node, inputs, a.root, m, x, prior);
        }
      }
      return Err(BadPath), {};
    }
    if a.root == t.src {
      cross := inputs[s.value].deps;
      DepsOfOne(inputs, s.value);
    }
    return Ok(path), cross;
  }

  lemma FirstSplice(node: Node, inputs: Inputs, t: NodeTransfer)
    ensures Spliced(node, inputs, t, {}, map[], {}, t.st)
  {
  }

  /** All atoms of a transfer. */
  method SpliceAtoms(node: Node, inputs: Inputs, t: NodeTransfer)
    returns (r: Result<map<nat, Path>, ComposeError>, cross: set<nat>, start: real)
    requires ValidTransfer(t) && InputsFit(node, inputs)
    ensures r.Ok? ==> Spliced(node, inputs, t, t.atoms.Keys, r.value, cross, start)
    ensures r.Err? ==> exists m :: m in t.atoms && forall p :: !IsSpliced(node, inputs, t, m, p)
    ensures r.Err? ==> r.error == NoInputSlot || r.error == BadPath
  {
    hide *;
    var atoms: map<nat, Path> := map[];
    cross, start := {}, t.st;
    var rest := t.atoms.Keys;
    ghost var members: set<nat> := {};
    FirstSplice(node, inputs, t);
    while rest != {}
      invariant rest <= t.atoms.Keys && members == t.atoms.Keys - rest
      invariant Spliced(node, inputs, t, members, atoms, cross, start)
      decreases rest
    {
      var m :| m in rest;
      var path, waits := SpliceAtom(node, inputs, t, m);
      if path.Err? {
        r := Err(path.error);
        return;
      }
      NextSpliced(node, inputs, t, members, atoms, cross, start, m, path.value);
      atoms := atoms[m := path.value];
      cross := cross + waits;
      start := Max(start, Arrival(path.value));
      rest := rest - {m};
      members := members + {m};
    }
    assert members == t.atoms.Keys;
    r := Ok(atoms);
  }

  lemma ComposedSplices(node: Node, inputs: Inputs, id: nat, t: NodeTransfer, c: Composed, m: nat)
    requires IsComposed(node, inputs, id, t, c) && m in t.atoms
    ensures exists p :: IsSpliced(node, inputs, t, m, p)
  {
    hide IsStart;
    assert IsSpliced(node, inputs, t, m, c.atoms[m]);
  }

  lemma Unspliced(node: Node, inputs: Inputs, id: nat, t: NodeTransfer, m: nat)
    requires m in t.atoms && forall p :: !IsSpliced(node, inputs, t, m, p)
    ensures forall c :: !IsComposed(node, inputs, id, t, c)
  {
    hide IsComposed, IsSpliced;
    forall c ensures !IsComposed(node, inputs, id, t, c) {
      if IsComposed(node, inputs, id, t, c) {
        ComposedSplices(node, inputs, id, t, c, m);
      }
    }
  }

  /** One composed transfer; refused exactly when there is none. */
  method ComposeTransfer(node: Node, inputs: Inputs, id: nat, t: NodeTransfer)
    returns (r: Result<Composed, ComposeError>)
    requires ValidTransfer(t) && InputsFit(node, inputs)
    ensures r.Ok? ==> IsComposed(node, inputs, id, t, r.value)
    ensures r.Err? ==> forall c :: !IsComposed(node, inputs, id, t, c)
    ensures r.Err? ==> r.error in {NoReceiverInput, NoInputSlot, BadPath, DependsOnItself}
  {
    hide InputsFit, IsSpliced, ReceiverSlots, IsStart, ValidTransfer, AtomsDeps, DepsOf;
    var receiverDeps: set<nat> := {};
    if t.reduce {
      var receiver := Single(ReceiverSlots(node, t));
      if receiver.None? {
        return Err(NoReceiverInput);
      }
      ReceiverIsInput(node, inputs, t, receiver.value);
      receiverDeps := inputs[receiver.value].deps;
      DepsOfOne(inputs, receiver.value);
    }
    assert receiverDeps == ReceiverDeps(node, inputs, t);
    var atoms, cross, start := SpliceAtoms(node, inputs, t);
    if atoms.Err? {
      ghost var m :| m in t.atoms && forall p :: !IsSpliced(node, inputs, t, m, p);
      Unspliced(node, inputs, id, t, m);
      return Err(atoms.error);
    }
    hide ReceiverDeps;
    var predecessors := t.semantic + receiverDeps + cross;
    if id in predecessors {
      return Err(DependsOnItself);
    }
    return Ok(Composed(t.reduce, t.src, t.dst, t.channel, t.stage, start, start
                       + (t.ed - t.st), predecessors, atoms.value, t.slots));
  }

  lemma ReceiverIsInput(node: Node, inputs: Inputs, t: NodeTransfer, s: Slot)
    requires InputsFit(node, inputs) && ReceiverSlots(node, t) == {s}
    ensures s in inputs
  {
    assert s in ReceiverSlots(node, t);
  }

  // ---------------------------------------------------------------- outputs of a node

  /** _output_matches. */
  method OutputMatches(node: Node, slot: Slot) returns (r: Result<seq<nat>, ComposeError>)
    requires slot in node.output
    ensures r.Ok? ==> IsMatches(node, slot, r.value)
    ensures r.Err? ==> forall matches :: !IsMatches(node, slot, matches)
    ensures r.Err? ==> r.error in {InconsistentOutput, MissingFinalDependency}
  {
    if node.routing {
      if NamedOutput(node, slot) != node.output[slot] {
        return Err(InconsistentOutput);
      }
      var matches := NamedDependencies(node, slot);
      if exists k :: k in matches && k !in node.transfers {
        return Err(MissingFinalDependency);
      }
      return Ok(matches);
    }
    var matches := SortedIds(Delivering(node, slot));
    return Ok(matches);
  }

  /** The worklist of the closure: closed apart from what is pending, and nothing beyond what must be there. */
  ghost predicate Growing(node: Node, matches: set<nat>, closure: set<nat>, pending: set<nat>) {
    && closure <= node.transfers.Keys && pending <= node.transfers.Keys && matches <= closure + pending
    && (forall k :: k in closure ==> node.transfers[k].semantic <= closure + pending)
    && forall other :: matches <= other && ClosedUnder(node, other) ==> closure + pending <= other
  }

  lemma GrowBy(node: Node, matches: set<nat>, closure: set<nat>, pending: set<nat>, k: nat, rest: set<nat>)
    requires Growing(node, matches, closure, pending) && k in pending && pending == rest + {k}
    ensures k in closure ==> Growing(node, matches, closure, rest)
    ensures k in node.transfers
    ensures node.transfers[k].semantic <= node.transfers.Keys ==>
        Growing(node, matches, closure + {k}, rest + node.transfers[k].semantic)
    ensures !(node.transfers[k].semantic <= node.transfers.Keys) ==> forall c :: !IsClosure(node, matches, c)
  {
    assert closure + {k} + rest == closure + pending;
  }

  /** The least closed set of ancestors; refused exactly when some ancestor names a missing transfer. */
  method Ancestors(node: Node, matches: seq<nat>) returns (r: Result<set<nat>, ComposeError>)
    requires forall k :: k in matches ==> k in node.transfers
    ensures r.Ok? ==> IsClosure(node, Elements(matches), r.value)
    ensures r.Err? ==> forall c :: !IsClosure(node, Elements(matches), c)
    ensures r.Err? ==> r.error == MissingPredecessor
  {
    hide Growing, IsClosure;
    var pending := matches;
    var closure: set<nat> := {};
    StartGrowing(node, matches);
    while pending != []
      invariant Growing(node, Elements(matches), closure, Elements(pending))
      invariant closure <= node.transfers.Keys
      decreases node.transfers.Keys - closure, |pending|
    {
      var k := pending[|pending| - 1];
      ghost var all := Elements(pending);
      pending := pending[..|pending| - 1];
      PopElements(all, pending, k);
      GrowBy(node, Elements(matches), closure, all, k, Elements(pending));
      if k !in closure {
        if !(node.transfers[k].semantic <= node.transfers.Keys) {
          return Err(MissingPredecessor);
        }
        var more := SortedIds(node.transfers[k].semantic);
        PushElements(pending, more, node.transfers[k].semantic);
        closure := closure + {k};
        pending := pending + more;
      }
    }
    GrownIsClosure(node, Elements(matches), closure);
    return Ok(closure);
  }

  lemma StartGrowing(node: Node, matches: seq<nat>)
    requires forall k :: k in matches ==> k in node.transfers
    ensures Growing(node, Elements(matches), {}, Elements(matches))
  {
  }

  lemma PopElements(all: set<nat>, rest: seq<nat>, k: nat)
    requires all == Elements(rest + [k])
    ensures all == Elements(rest) + {k} && k in all
  {
    SnocElements(rest, k);
  }

  lemma PushElements(pending: seq<nat>, more: seq<nat>, ids: set<nat>)
    requires IsSorted(more, ids)
    ensures Elements(pending + more) == Elements(pending) + ids
  {
  }

  lemma GrownIsClosure(node: Node, matches: set<nat>, closure: set<nat>)
    requires Growing(node, matches, closure, Elements([]))
    ensures IsClosure(node, matches, closure)
  {
    assert closure + Elements([]) == closure;
  }

  /** _output_path_transfers. */
  method OutputPathTransfers(node: Node, matches: seq<nat>) returns (r: Result<seq<nat>, ComposeError>)
    requires forall k :: k in matches ==> k in node.transfers
    ensures r.Ok? ==> IsCandidates(node, matches, r.value)
    ensures r.Err? ==> forall candidates :: !IsCandidates(node, matches, candidates)
    ensures r.Err? ==> r.error == MissingPredecessor
  {
    hide IsClosure, IsSorted;
    if !node.routing || matches == [] {
      return Ok(matches);
    }
    var closure := Ancestors(node, matches);
    if closure.Err? {
      return Err(closure.error);
    }
    var direct := set k | k in matches;
    var others := SortedIds(closure.value - direct);
    assert direct == Elements(matches);
    assert IsExtended(node, matches, closure.value, others, matches + others);
    return Ok(matches + others);
  }

  /** The first candidate that supplies a contribution. */
  method FindSupplier(node: Node, slot: Slot, m: nat, candidates: seq<nat>) returns (found: bool, i: nat)
    ensures found ==> FirstSupplier(node, slot, m, candidates, i)
    ensures !found ==> forall j: nat :: !FirstSupplier(node, slot, m, candidates, j)
  {
    i := 0;
    while i < |candidates|
      invariant i <= |candidates| && forall j :: 0 <= j < i ==> !Supplies(node, slot, m, candidates[j])
    {
      if Supplies(node, slot, m, candidates[i]) {
        return true, i;
      }
      i := i + 1;
    }
    return false, 0;
  }

  ghost predicate Rebuilt(node: Node, transfers: map<nat, Composed>) {
    forall k :: k in node.transfers ==>
      k in transfers && transfers[k].atoms.Keys == node.transfers[k].atoms.Keys
        && forall m :: m in transfers[k].atoms ==> ValidPath(transfers[k].atoms[m])
  }

  /** The path of one contribution of an output: the first arrival at its rank, or the path it came in with. */
  method OutputPath(node: Node, inputs: Inputs, transfers: map<nat, Composed>, slot: Slot, m: nat, candidates: seq<nat>)
    returns (r: Result<Path, ComposeError>)
    requires InputsFit(node, inputs) && Rebuilt(node, transfers)
    ensures r.Ok? ==> IsOutputPath(node, inputs, transfers, slot, m, candidates, r.value)
    ensures r.Err? ==> forall p :: !IsOutputPath(node, inputs, transfers, slot, m, candidates, p)
    ensures r.Err? ==> r.error == NoInputPath
  {
    hide IsPrior, SlotsAt, InputsFit;
    var found, i := FindSupplier(node, slot, m, candidates);
    if found {
      assert Supplies(node, slot, m, candidates[i]);
      return Ok(transfers[candidates[i]].atoms[m]);
    }
    hide FirstSupplier;
    var s := PriorPath(node, inputs, slot.rank, m);
    if s.None? {
      return Err(NoInputPath);
    }
    return Ok(inputs[s.value].paths[m]);
  }

  method OutputPaths(node: Node, inputs: Inputs, transfers: map<nat, Composed>, slot: Slot, candidates: seq<nat>)
    returns (r: Result<map<nat, Path>, ComposeError>)
    requires slot in node.output && InputsFit(node, inputs) && Rebuilt(node, transfers)
    ensures r.Ok? ==>
        r.value.Keys == node.output[slot]
          && forall m :: m in r.value ==> IsOutputPath(node, inputs, transfers, slot, m, candidates, r.value[m])
    ensures r.Err? ==> exists m :: m in node.output[slot] && forall p ::
        !IsOutputPath(node, inputs, transfers, slot, m, candidates, p)
    ensures r.Err? ==> r.error == NoInputPath
  {
    hide IsOutputPath, InputsFit, Rebuilt;
    var paths: map<nat, Path> := map[];
    var rest := node.output[slot];
    while rest != {}
      invariant rest <= node.output[slot] && paths.Keys == node.output[slot] - rest
      invariant forall m :: m in paths ==> IsOutputPath(node, inputs, transfers, slot, m, candidates, paths[m])
      decreases rest
    {
      var m :| m in rest;
      var path := OutputPath(node, inputs, transfers, slot, m, candidates);
      if path.Err? {
        return Err(path.error);
      }
      paths := paths[m := path.value];
      rest := rest - {m};
    }
    return Ok(paths);
  }

  /** The transfers an output waits for: its matches, or those of the input that passes through. */
  method OutputDeps(node: Node, inputs: Inputs, slot: Slot, matches: seq<nat>)
    returns (r: Result<set<nat>, ComposeError>)
    requires slot in node.output && InputsFit(node, inputs)
    ensures r.Ok? ==> IsOutputDeps(node, inputs, slot, matches, r.value)
    ensures r.Err? ==> forall deps :: !IsOutputDeps(node, inputs, slot, matches, deps)
    ensures r.Err? ==> r.error == NoPassthrough
  {
    if matches != [] {
      return Ok(set k | k in matches);
    }
    var s := Single(Passthrough(node, slot));
    if s.None? {
      return Err(NoPassthrough);
    }
    assert s.value in Passthrough(node, slot);
    return Ok(inputs[s.value].deps);
  }

  lemma NotOver(node: Node, inputs: Inputs, transfers: map<nat, Composed>, slot: Slot, matches: seq<nat>, v: Value)
    requires slot in node.output && IsMatches(node, slot, matches) && IsOutput(node, inputs, transfers, slot, v)
    ensures exists candidates :: IsOutputOver(node, inputs, transfers, slot, matches, candidates, v)
  {
    hide IsMatches, IsCandidates, IsOutputDeps, IsOutputPath;
    var a, c :| IsOutputOver(node, inputs, transfers, slot, a, c, v);
    MatchesUnique(node, slot, a, matches);
  }

  lemma OverCandidates(node: Node, inputs: Inputs, transfers: map<nat, Composed>, slot: Slot, matches: seq<nat>,
                       candidates: seq<nat>, v: Value)
    requires slot in node.output && IsMatches(node, slot, matches) && IsCandidates(node, matches, candidates)
    requires IsOutput(node, inputs, transfers, slot, v)
    ensures IsOutputOver(node, inputs, transfers, slot, matches, candidates, v)
  {
    NotOver(node, inputs, transfers, slot, matches, v);
    hide IsMatches, IsCandidates, IsOutputDeps, IsOutputPath;
    var c :| IsOutputOver(node, inputs, transfers, slot, matches, c, v);
    CandidatesUnique(node, matches, candidates, c);
  }

  lemma MatchesKnown(node: Node, slot: Slot, matches: seq<nat>)
    requires slot in node.output && IsMatches(node, slot, matches)
    ensures forall k :: k in matches ==> k in node.transfers
  {
    forall k | k in matches ensures k in node.transfers {
      if !node.routing {
        assert k in Delivering(node, slot);
      }
    }
  }

  /** One value a node hands on; refused exactly when there is none. */
  method OutputValue(node: Node, inputs: Inputs, transfers: map<nat, Composed>, slot: Slot)
    returns (r: Result<Value, ComposeError>)
    requires slot in node.output && InputsFit(node, inputs) && Rebuilt(node, transfers)
    ensures r.Ok? ==> IsOutput(node, inputs, transfers, slot, r.value)
    ensures r.Err? ==> forall v :: !IsOutput(node, inputs, transfers, slot, v)
    ensures r.Err? ==>
        r.error in {InconsistentOutput, MissingFinalDependency, MissingPredecessor, NoPassthrough, NoInputPath}
  {
    hide IsMatches, IsCandidates, IsOutputDeps, IsOutputPath, InputsFit, Rebuilt;
    var matches := OutputMatches(node, slot);
    if matches.Err? {
      return Err(matches.error);
    }
    MatchesKnown(node, slot, matches.value);
    var candidates := OutputPathTransfers(node, matches.value);
    if candidates.Err? {
      forall v ensures !IsOutput(node, inputs, transfers, slot, v) {
        if IsOutput(node, inputs, transfers, slot, v) {
          NotOver(node, inputs, transfers, slot, matches.value, v);
        }
      }
      return Err(candidates.error);
    }
    hide IsOutput;
    var deps := OutputDeps(node, inputs, slot, matches.value);
    if deps.Err? {
      forall v ensures !IsOutput(node, inputs, transfers, slot, v) {
        if IsOutput(node, inputs, transfers, slot, v) {
          OverCandidates(node, inputs, transfers, slot, matches.value, candidates.value, v);
        }
      }
      return Err(deps.error);
    }
    var paths := OutputPaths(node, inputs, transfers, slot, candidates.value);
    if paths.Err? {
      forall v ensures !IsOutput(node, inputs, transfers, slot, v) {
        if IsOutput(node, inputs, transfers, slot, v) {
          OverCandidates(node, inputs, transfers, slot, matches.value, candidates.value, v);
        }
      }
      return Err(paths.error);
    }
    OutputFrom(node, inputs, transfers, slot, matches.value, candidates.value, Value(deps.value, paths.value));
    return Ok(Value(deps.value, paths.value));
  }

  lemma OutputFrom(node: Node, inputs: Inputs, transfers: map<nat, Composed>, slot: Slot, matches: seq<nat>,
                   candidates: seq<nat>, v: Value)
    requires slot in node.output && IsOutputOver(node, inputs, transfers, slot, matches, candidates, v)
    ensures IsOutput(node, inputs, transfers, slot, v)
  {
    hide IsOutputOver;
  }

  // ---------------------------------------------------------------- a node

  /** `all` holds the earlier transfers unchanged and those of this node composed. */
  ghost predicate Extends(node: Node, inputs: Inputs, base: map<nat, Composed>, all: map<nat, Composed>) {
    && (forall k :: k in base ==> k in all && all[k] == base[k])
    && forall k :: k in node.transfers ==> k in all && IsComposed(node, inputs, k, node.transfers[k], all[k])
  }

  lemma NoExtension(node: Node, inputs: Inputs, base: map<nat, Composed>, k: nat)
    requires k in node.transfers
    requires forall c :: IsComposed(node, inputs, k, node.transfers[k], c) ==> k in base && base[k] != c
    ensures forall all :: !Extends(node, inputs, base, all)
  {
    hide IsComposed;
  }

  /** All transfers of a node; a transfer whose identifier was used before must come out the same again. */
  method ComposeTransfers(node: Node, inputs: Inputs, base: map<nat, Composed>)
    returns (r: Result<map<nat, Composed>, ComposeError>)
    requires InputsFit(node, inputs) && forall k :: k in node.transfers ==> ValidTransfer(node.transfers[k])
    ensures r.Ok? ==> Extends(node, inputs, base, r.value) && r.value.Keys == base.Keys + node.transfers.Keys
    ensures r.Err? ==> forall all :: !Extends(node, inputs, base, all)
    ensures r.Err? ==> r.error in {NoReceiverInput, NoInputSlot, BadPath, DependsOnItself, ConflictingReuse}
  {
    hide InputsFit, ValidTransfer, IsComposed;
    var all := base;
    var rest := node.transfers.Keys;
    while rest != {}
      invariant rest <= node.transfers.Keys && all.Keys == base.Keys + (node.transfers.Keys - rest)
      invariant forall k :: k in base ==> all[k] == base[k]
      invariant forall k :: k in node.transfers && k !in rest ==> IsComposed(node, inputs, k, node.transfers[k], all[k])
      decreases rest
    {
      var k :| k in rest;
      var composed := ComposeTransfer(node, inputs, k, node.transfers[k]);
      if composed.Err? {
        NoExtension(node, inputs, base, k);
        return Err(composed.error);
      }
      if k in all {
        if all[k] != composed.value {
          forall c | IsComposed(node, inputs, k, node.transfers[k], c) ensures c == composed.value {
            ComposedUnique(node, inputs, k, node.transfers[k], c, composed.value);
          }
          NoExtension(node, inputs, base, k);
          return Err(ConflictingReuse);
        }
      } else {
        all := all[k := composed.value];
      }
      rest := rest - {k};
    }
    return Ok(all);
  }

  lemma SplicedValid(node: Node, inputs: Inputs, id: nat, t: NodeTransfer, c: Composed)
    requires IsComposed(node, inputs, id, t, c)
    ensures c.atoms.Keys == t.atoms.Keys && forall m :: m in c.atoms ==> ValidPath(c.atoms[m])
  {
    hide IsPrior, IsStart, ValidPath;
    forall m | m in c.atoms ensures ValidPath(c.atoms[m]) {
      assert IsSpliced(node, inputs, t, m, c.atoms[m]);
    }
  }

  lemma ExtendedIsRebuilt(node: Node, inputs: Inputs, base: map<nat, Composed>, all: map<nat, Composed>)
    requires Extends(node, inputs, base, all)
    ensures Rebuilt(node, all)
  {
    hide IsComposed, ValidPath;
    forall k | k in node.transfers
      ensures all[k].atoms.Keys == node.transfers[k].atoms.Keys
          && forall m :: m in all[k].atoms ==> ValidPath(all[k].atoms[m])
    {
      SplicedValid(node, inputs, k, node.transfers[k], all[k]);
    }
  }

  /** All values of a node. */
  method OutputValues(node: Node, inputs: Inputs, transfers: map<nat, Composed>, n: nat, values: map<Key, Value>)
    returns (r: Result<map<Key, Value>, ComposeError>)
    requires InputsFit(node, inputs) && Rebuilt(node, transfers)
    requires forall s :: s in node.output ==> Key(n, s) !in values
    ensures r.Ok? ==> (forall x :: x in r.value <==> x in values || (x.node == n && x.slot in node.output))
                      && (forall x :: x in values ==> r.value[x] == values[x])
                      && forall s :: s in node.output ==> IsOutput(node, inputs, transfers, s, r.value[Key(n, s)])
    ensures r.Err? ==> exists s :: s in node.output && forall v :: !IsOutput(node, inputs, transfers, s, v)
    ensures r.Err? ==>
        r.error in {InconsistentOutput, MissingFinalDependency, MissingPredecessor, NoPassthrough, NoInputPath}
  {
    hide InputsFit, Rebuilt, IsOutput;
    var all := values;
    var rest := node.output.Keys;
    while rest != {}
      invariant rest <= node.output.Keys
      invariant forall x :: x in all <==> x in values || (x.node == n && x.slot in node.output && x.slot !in rest)
      invariant forall x :: x in values ==> all[x] == values[x]
      invariant forall s :: s in node.output && s !in rest ==> IsOutput(node, inputs, transfers, s, all[Key(n, s)])
      decreases rest
    {
      var s :| s in rest;
      var v := OutputValue(node, inputs, transfers, s);
      if v.Err? {
        return Err(v.error);
      }
      all := all[Key(n, s) := v.value];
      rest := rest - {s};
    }
    return Ok(all);
  }

  // ---------------------------------------------------------------- the plan

  lemma BringsFit(plan: Plan, node: Node, inputs: Inputs)
    requires plan.sliceCount > 0 && InputsBring(plan, node, inputs)
    ensures InputsFit(node, inputs)
  {
    hide ValidPath, Origin;
    forall s | s in inputs
      ensures inputs[s].paths.Keys == node.input[s]
          && forall m :: m in inputs[s].paths ==> ValidPath(inputs[s].paths[m])
    {
      assert ValueBrings(plan, s, node.input[s], inputs[s]);
      forall m | m in inputs[s].paths ensures ValidPath(inputs[s].paths[m]) {
        assert Brings(inputs[s].paths[m], Origin(plan, m), s.rank);
        EmptyIsValid();
      }
    }
  }

  lemma EmptyIsValid()
    ensures ValidPath([])
  {
  }

  /** Whatever composition the plan has, it agrees with what has been built. */
  ghost predicate Forced(plan: Plan, c: Composition, done: set<nat>) {
    forall b :: IsComposition(plan, b) ==> Agree(plan, c, b, done)
  }

  ghost predicate SameBelow(c: Composition, d: Composition) {
    && (forall k :: k in c.transfers ==> k in d.transfers && d.transfers[k] == c.transfers[k])
    && forall x :: x in c.values ==> x in d.values && d.values[x] == c.values[x]
  }

  lemma InputsKept(plan: Plan, c: Composition, d: Composition, done: set<nat>, n: nat)
    requires ValidPlan(plan) && n in plan.nodes && n in NodeWaits(plan) && NodeWaits(plan)[n] <= done && SameBelow(c, d)
    requires forall p, s :: p in done && p in plan.nodes && s in plan.nodes[p].output ==> Key(p, s) in c.values
    ensures InputsOf(plan, d.values, n) == InputsOf(plan, c.values, n)
  {
    hide ValidPlan, NodeWaits, ProducerOf;
    forall s | s in plan.nodes[n].input ensures InputAt(plan, d.values, n, s) == InputAt(plan, c.values, n, s) {
      ProducerFits(plan, n, s);
    }
  }

  lemma OutputKept(node: Node, inputs: Inputs, transfers: map<nat, Composed>, more: map<nat, Composed>, slot: Slot,
                   v: Value)
    requires slot in node.output && IsOutput(node, inputs, transfers, slot, v)
    requires forall k :: k in transfers ==> k in more && more[k] == transfers[k]
    ensures IsOutput(node, inputs, more, slot, v)
  {
    hide IsMatches, IsCandidates, IsOutputDeps, IsPrior, FirstSupplier;
    var matches, candidates :| IsOutputOver(node, inputs, transfers, slot, matches, candidates, v);
    forall m | m in v.paths ensures IsOutputPath(node, inputs, more, slot, m, candidates, v.paths[m]) {
      assert IsOutputPath(node, inputs, transfers, slot, m, candidates, v.paths[m]);
    }
    assert IsOutputOver(node, inputs, more, slot, matches, candidates, v);
  }

  lemma NodeKept(plan: Plan, c: Composition, d: Composition, n: nat)
    requires n in plan.nodes && NodeComposed(plan, c, n) && SameBelow(c, d)
    requires InputsOf(plan, d.values, n) == InputsOf(plan, c.values, n)
    ensures NodeComposed(plan, d, n)
  {
    var node, inputs := plan.nodes[n], InputsOf(plan, c.values, n);
    hide IsComposed, IsOutput, InputsOf;
    forall s | s in node.output ensures IsOutput(node, inputs, d.transfers, s, d.values[Key(n, s)]) {
      OutputKept(node, inputs, c.transfers, d.transfers, s, c.values[Key(n, s)]);
    }
  }

  ghost predicate NodeBuilt(plan: Plan, c: Composition, inputs: Inputs, d: Composition, n: nat)
    requires n in plan.nodes
  {
    var node := plan.nodes[n];
    && Extends(node, inputs, c.transfers, d.transfers) && d.transfers.Keys == c.transfers.Keys + node.transfers.Keys
    && (forall x :: x in d.values <==> x in c.values || (x.node == n && x.slot in node.output))
    && (forall x :: x in c.values ==> d.values[x] == c.values[x])
    && forall s :: s in node.output ==> IsOutput(node, inputs, d.transfers, s, d.values[Key(n, s)])
  }

  /** The transfers and values of the next node; refused exactly when no composition of the plan can go on. */
  method ComposeNode(plan: Plan, c: Composition, inputs: Inputs, n: nat) returns (r: Result<Composition, ComposeError>)
    requires n in plan.nodes && InputsFit(plan.nodes[n], inputs)
    requires forall k :: k in plan.nodes[n].transfers ==> ValidTransfer(plan.nodes[n].transfers[k])
    requires forall s :: s in plan.nodes[n].output ==> Key(n, s) !in c.values
    ensures r.Ok? ==> NodeBuilt(plan, c, inputs, r.value, n)
    ensures r.Err? ==> forall b :: !CanContinue(plan, c, inputs, n, b)
    ensures r.Err? ==> r.error != NoProducer
  {
    hide InputsFit, ValidTransfer, IsOutput, Extends, Rebuilt;
    var node := plan.nodes[n];
    var transfers := ComposeTransfers(node, inputs, c.transfers);
    if transfers.Err? {
      return Err(transfers.error);
    }
    ExtendedIsRebuilt(node, inputs, c.transfers, transfers.value);
    var values := OutputValues(node, inputs, transfers.value, n, c.values);
    if values.Err? {
      ghost var s :| s in node.output && forall v :: !IsOutput(node, inputs, transfers.value, s, v);
      CannotContinue(plan, c, inputs, n, transfers.value, s);
      return Err(values.error);
    }
    return Ok(Composition(transfers.value, values.value));
  }

  ghost predicate CanContinue(plan: Plan, c: Composition, inputs: Inputs, n: nat, b: Composition)
    requires n in plan.nodes
  {
    && Extends(plan.nodes[n], inputs, c.transfers, b.transfers)
    && forall s :: s in plan.nodes[n].output ==> exists v :: IsOutput(plan.nodes[n], inputs, b.transfers, s, v)
  }

  lemma SameExtension(node: Node, inputs: Inputs, base: map<nat, Composed>, all: map<nat, Composed>,
                      other: map<nat, Composed>)
    requires Extends(node, inputs, base, all) && Extends(node, inputs, base, other)
    requires all.Keys == base.Keys + node.transfers.Keys
    ensures forall k :: k in all ==> k in other && other[k] == all[k]
  {
    hide IsComposed;
    forall k | k in all ensures k in other && other[k] == all[k] {
      if k in node.transfers {
        ComposedUnique(node, inputs, k, node.transfers[k], all[k], other[k]);
      }
    }
  }

  lemma OutputFewer(node: Node, inputs: Inputs, transfers: map<nat, Composed>, fewer: map<nat, Composed>, slot: Slot,
                    v: Value)
    requires slot in node.output && IsOutput(node, inputs, transfers, slot, v) && Rebuilt(node, fewer)
    requires forall k :: k in fewer ==> k in transfers && fewer[k] == transfers[k]
    ensures IsOutput(node, inputs, fewer, slot, v)
  {
    hide IsMatches, IsCandidates, IsOutputDeps, IsPrior;
    var matches, candidates :| IsOutputOver(node, inputs, transfers, slot, matches, candidates, v);
    forall m | m in v.paths ensures IsOutputPath(node, inputs, fewer, slot, m, candidates, v.paths[m]) {
      assert IsOutputPath(node, inputs, transfers, slot, m, candidates, v.paths[m]);
    }
    assert IsOutputOver(node, inputs, fewer, slot, matches, candidates, v);
  }

  lemma CannotContinue(plan: Plan, c: Composition, inputs: Inputs, n: nat, transfers: map<nat, Composed>, s: Slot)
    requires n in plan.nodes && s in plan.nodes[n].output
    requires forall v :: !IsOutput(plan.nodes[n], inputs, transfers, s, v)
    requires Extends(plan.nodes[n], inputs, c.transfers, transfers)
    requires transfers.Keys == c.transfers.Keys + plan.nodes[n].transfers.Keys
    ensures forall b :: !CanContinue(plan, c, inputs, n, b)
  {
    ExtendedIsRebuilt(plan.nodes[n], inputs, c.transfers, transfers);
    hide IsOutput, Extends, Rebuilt;
    forall b ensures !CanContinue(plan, c, inputs, n, b) {
      if CanContinue(plan, c, inputs, n, b) {
        var v :| IsOutput(plan.nodes[n], inputs, b.transfers, s, v);
        SameExtension(plan.nodes[n], inputs, c.transfers, transfers, b.transfers);
        OutputFewer(plan.nodes[n], inputs, b.transfers, transfers, s, v);
      }
    }
  }

  /** The nodes composed so far: complete, settled, and the only way to compose them. */
  ghost predicate Progress(plan: Plan, c: Composition, done: set<nat>)
    requires plan.sliceCount > 0
  {
    ComposedOn(plan, c, done) && Settled(plan, c, done) && Forced(plan, c, done)
  }

  ghost predicate Downward(plan: Plan, done: set<nat>) {
    done <= NodeWaits(plan).Keys && forall x :: x in done ==> NodeWaits(plan)[x] <= done
  }

  lemma ProgressParts(plan: Plan, c: Composition, done: set<nat>)
    requires plan.sliceCount > 0 && Progress(plan, c, done)
    ensures ComposedOn(plan, c, done) && Settled(plan, c, done) && Forced(plan, c, done)
  {
    hide ComposedOn, Settled, Forced;
  }

  lemma BuiltCovers(plan: Plan, c: Composition, inputs: Inputs, d: Composition, done: set<nat>, n: nat)
    requires n in plan.nodes && n !in done && ComposedOn(plan, c, done) && NodeBuilt(plan, c, inputs, d, n)
    ensures Covers(plan, d, done + {n}) && SameBelow(c, d)
  {
    hide NodeComposed, IsOutput, IsComposed;
  }

  lemma BuiltIsComposed(plan: Plan, c: Composition, inputs: Inputs, d: Composition, n: nat)
    requires n in plan.nodes && NodeBuilt(plan, c, inputs, d, n) && InputsOf(plan, d.values, n) == inputs
    ensures NodeComposed(plan, d, n)
  {
    hide IsOutput, IsComposed, InputsOf;
  }

  lemma SettledValues(plan: Plan, c: Composition, done: set<nat>)
    requires plan.sliceCount > 0 && Settled(plan, c, done)
    ensures forall p, s :: p in done && p in plan.nodes && s in plan.nodes[p].output ==> Key(p, s) in c.values
  {
    forall p, s | p in done && p in plan.nodes && s in plan.nodes[p].output ensures Key(p, s) in c.values {
      assert ValueSettled(plan, c, done, p, s);
    }
  }

  /** The composed nodes stay composed when a node is added. */
  lemma NextComposed(plan: Plan, c: Composition, d: Composition, done: set<nat>, n: nat)
    requires ValidPlan(plan) && n in plan.nodes && n !in done && Downward(plan, done)
    requires NodeWaits(plan).Keys == plan.nodes.Keys
    requires NodeWaits(plan)[n] <= done && ComposedOn(plan, c, done) && Settled(plan, c, done)
    requires NodeBuilt(plan, c, InputsOf(plan, c.values, n), d, n)
    ensures ComposedOn(plan, d, done + {n})
  {
    BuiltCovers(plan, c, InputsOf(plan, c.values, n), d, done, n);
    assert plan.sliceCount > 0 by {
      PlanParts(plan);
    }
    SettledValues(plan, c, done);
    hide ValidPlan, NodeWaits, NodeBuilt, Covers, Settled, NodeComposed, SameBelow, InputsOf;
    forall x | x in done + {n} ensures NodeComposed(plan, d, x) {
      InputsKept(plan, c, d, done, x);
      if x == n {
        BuiltIsComposed(plan, c, InputsOf(plan, c.values, n), d, n);
      } else {
        NodeKept(plan, c, d, x);
      }
    }
  }

  lemma KeptSettled(plan: Plan, c: Composition, d: Composition, done: set<nat>)
    requires plan.sliceCount > 0 && Settled(plan, c, done) && SameBelow(c, d)
    ensures Settled(plan, d, done)
  {
    hide TransfersOf, ValueBrings;
    forall n, s | n in done && n in plan.nodes && s in plan.nodes[n].output ensures ValueSettled(plan, d, done, n, s) {
      assert ValueSettled(plan, c, done, n, s);
    }
  }

  lemma KeptForced(plan: Plan, c: Composition, d: Composition, done: set<nat>)
    requires Forced(plan, c, done) && SameBelow(c, d)
    ensures Forced(plan, d, done)
  {
    hide IsComposition;
    forall b | IsComposition(plan, b) ensures Agree(plan, d, b, done) {
      assert Agree(plan, c, b, done);
      forall n | n in done && n in plan.nodes ensures NodeAgrees(plan, d, b, n) {
        assert NodeAgrees(plan, c, b, n);
      }
    }
  }

  lemma NextForced(plan: Plan, d: Composition, done: set<nat>, n: nat)
    requires ValidPlan(plan) && n in plan.nodes && n in NodeWaits(plan) && NodeWaits(plan)[n] <= done
    requires Forced(plan, d, done) && NodeComposed(plan, d, n)
    ensures Forced(plan, d, done + {n})
  {
    hide ValidPlan, NodeWaits, NodeComposed, Agree, Covers;
    forall b | IsComposition(plan, b) ensures Agree(plan, d, b, done + {n}) {
      AgreeNext(plan, d, b, done, n);
    }
  }

  lemma NextProgress(plan: Plan, c: Composition, d: Composition, done: set<nat>, n: nat)
    requires ValidPlan(plan) && n in plan.nodes && n !in done && Downward(plan, done)
    requires NodeWaits(plan).Keys == plan.nodes.Keys
    requires plan.sliceCount > 0 && NodeWaits(plan)[n] <= done && Progress(plan, c, done)
    requires NodeBuilt(plan, c, InputsOf(plan, c.values, n), d, n)
    ensures Progress(plan, d, done + {n}) && Downward(plan, done + {n})
  {
    ProgressParts(plan, c, done);
    hide ValidPlan, NodeWaits, NodeBuilt, Covers, Settled, NodeComposed, SameBelow, InputsOf, Forced;
    NextComposed(plan, c, d, done, n);
    BuiltCovers(plan, c, InputsOf(plan, c.values, n), d, done, n);
    KeptSettled(plan, c, d, done);
    KeptForced(plan, c, d, done);
    SettleOne(plan, d, done, n);
    NextForced(plan, d, done, n);
  }

  /** A composition of the plan goes on from every stage of the loop. */
  lemma CompositionContinues(plan: Plan, c: Composition, done: set<nat>, n: nat, b: Composition)
    requires ValidPlan(plan) && n in plan.nodes && n in NodeWaits(plan) && NodeWaits(plan)[n] <= done
    requires ComposedOn(plan, c, done) && Forced(plan, c, done) && IsComposition(plan, b)
    ensures CanContinue(plan, c, InputsOf(plan, c.values, n), n, b)
  {
    hide ValidPlan, NodeWaits, IsComposed, IsOutput, InputsOf;
    assert Agree(plan, c, b, done);
    SameInputs(plan, c, b, done, n);
    assert NodeComposed(plan, b, n);
    forall k | k in c.transfers ensures k in b.transfers && b.transfers[k] == c.transfers[k] {
      var x :| x in done && x in plan.nodes && k in plan.nodes[x].transfers;
      assert NodeAgrees(plan, c, b, x);
    }
  }

  lemma Refused(plan: Plan, c: Composition, done: set<nat>, n: nat)
    requires ValidPlan(plan) && n in plan.nodes && n in NodeWaits(plan) && NodeWaits(plan)[n] <= done
    requires plan.sliceCount > 0 && Progress(plan, c, done)
    requires forall b :: !CanContinue(plan, c, InputsOf(plan, c.values, n), n, b)
    ensures forall b :: !IsComposition(plan, b)
  {
    ProgressParts(plan, c, done);
    hide ValidPlan, NodeWaits, CanContinue, IsComposition, Forced, ComposedOn;
    forall b ensures !IsComposition(plan, b) {
      if IsComposition(plan, b) {
        CompositionContinues(plan, c, done, n, b);
      }
    }
  }

  lemma StartsEmpty(plan: Plan)
    requires plan.sliceCount > 0
    ensures Progress(plan, Composition(map[], map[]), {}) && Downward(plan, {})
  {
  }

  /** The producers' values are there when a node is composed. */
  lemma ProducersDone(plan: Plan, producers: map<Key, nat>, c: Composition, done: set<nat>, n: nat)
    requires ValidPlan(plan) && n in plan.nodes && n in NodeWaits(plan) && NodeWaits(plan)[n] <= done
    requires plan.sliceCount > 0 && Progress(plan, c, done) && AreProducers(plan.edges, producers)
    ensures forall s :: s in plan.nodes[n].input && Key(n, s) in producers ==> Key(producers[Key(n, s)], s) in c.values
    ensures Supplied(plan, n) && InputsFit(plan.nodes[n], InputsOf(plan, c.values, n))
  {
    ProgressParts(plan, c, done);
    InputsSettled(plan, c, done, n);
    BringsFit(plan, plan.nodes[n], InputsOf(plan, c.values, n));
    SettledValues(plan, c, done);
    SuppliedAt(plan, n);
    hide ValidPlan, NodeWaits, ProducerOf, Progress, ComposedOn, Settled, Forced, InputsFit, InputsBring, Supplied;
    forall s | s in plan.nodes[n].input && Key(n, s) in producers ensures Key(producers[Key(n, s)], s) in c.values {
      ProducerFits(plan, n, s);
      assert ProducerOf(plan.edges, n, s) == Some(producers[Key(n, s)]);
    }
  }

  lemma SuppliedAt(plan: Plan, n: nat)
    requires ValidPlan(plan) && n in plan.nodes
    ensures Supplied(plan, n)
  {
  }

  lemma NotYet(plan: Plan, c: Composition, done: set<nat>, n: nat)
    requires plan.sliceCount > 0 && Progress(plan, c, done) && n !in done
    ensures forall s :: Key(n, s) !in c.values
  {
    hide NodeComposed, Settled, Forced;
  }

  lemma NextInOrder(plan: Plan, order: seq<nat>, i: nat)
    requires P.IsLeastFirst(NodeWaits(plan), order) && i < |order|
    ensures order[i] in NodeWaits(plan) && order[i] !in Elements(order[..i])
        && NodeWaits(plan)[order[i]] <= Elements(order[..i])
    ensures Elements(order[..i + 1]) == Elements(order[..i]) + {order[i]}
  {
    assert P.LeastAt(NodeWaits(plan), Elements(order[..i]), order[i]);
    assert order[..i + 1] == order[..i] + [order[i]];
    SnocElements(order[..i], order[i]);
  }

  lemma LinksAmongNodes(plan: Plan)
    requires ValidPlan(plan)
    ensures P.LinksAmong(plan.nodes.Keys, LinksOf(plan.edges))
  {
    forall i | 0 <= i < |plan.edges|
      ensures plan.edges[i].producer in plan.nodes && plan.edges[i].consumer in plan.nodes
    {
      assert ValidEdge(plan, plan.edges[i]);
    }
  }

  lemma OrderIsComplete(plan: Plan, c: Composition, order: seq<nat>)
    requires plan.sliceCount > 0 && Progress(plan, c, Elements(order)) && Elements(order) == plan.nodes.Keys
    ensures IsComposition(plan, c)
  {
    hide ComposedOn, Settled, Forced;
  }

  /** The composition of an acyclic plan, refused exactly when the plan has none. */
  method ComposeSchedules(plan: Plan) returns (r: Result<Composition, ComposeError>)
    requires ValidPlan(plan) && G.Closed(NodeWaits(plan)) && G.Acyclic(NodeWaits(plan))
    ensures r.Ok? ==> IsComposition(plan, r.value)
    ensures r.Err? ==> forall c :: !IsComposition(plan, c)
    ensures r.Err? ==> r.error != NoProducer
  {
    hide *;
    PlanParts(plan);
    LinksAmongNodes(plan);
    WaitsAreClosed(plan);
    var producers := IncomingProducers(plan.edges);
    var order := P.TopologicalNodes(plan.nodes.Keys, LinksOf(plan.edges));
    OrderFacts(plan, order);
    var c := Composition(map[], map[]);
    StartsEmpty(plan);
    NoneDone(order);
    ghost var done: set<nat> := {};
    for i := 0 to |order|
      invariant done == Elements(order[..i])
      invariant Progress(plan, c, done) && Downward(plan, done)
    {
      var n := order[i];
      NextInOrder(plan, order, i);
      ProducersDone(plan, producers, c, done, n);
      NotYet(plan, c, done, n);
      var inputs := GatherInputs(plan, producers, c.values, n);
      // A valid plan supplies every input, so the missing-producer error cannot be reached.
      assert inputs.Ok?;
      var next := ComposeNode(plan, c, inputs.value, n);
      if next.Err? {
        Refused(plan, c, done, n);
        return Err(next.error);
      }
      NextProgress(plan, c, next.value, done, n);
      c := next.value;
      done := done + {n};
    }
    assert order[..|order|] == order;
    OrderIsComplete(plan, c, order);
    return Ok(c);
  }

  lemma OrderFacts(plan: Plan, order: seq<nat>)
    requires P.IsLeastFirst(P.Waits(plan.nodes.Keys, LinksOf(plan.edges)), order) && G.Closed(NodeWaits(plan))
    requires Elements(order) == plan.nodes.Keys <==> G.Acyclic(P.Waits(plan.nodes.Keys, LinksOf(plan.edges)))
    requires G.Acyclic(NodeWaits(plan))
    ensures P.IsLeastFirst(NodeWaits(plan), order) && Elements(order) == plan.nodes.Keys
  {
    hide P.IsLeastFirst, P.Waits, G.Acyclic, G.Closed, Elements;
  }

  lemma NoneDone(order: seq<nat>)
    ensures Elements(order[..0]) == {}
  {
  }
}
