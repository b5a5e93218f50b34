/** One context per rank executing requests through eight unanimous phases
    (runtime/execution/api.cc: State, submit, unanimous, close_until; runtime/execution/execute_impl.h: execute_until,
     stop_schedule).

    Critical sections are atomic steps.  CUDA, NCCL, evidence files and deadlines are steps that may succeed or fail. */
module Lifecycle {
  import opened ControlTransport
  import opened Gathering

  datatype Identity = Identity(request: nat, version: nat, contract: nat)

  datatype Payload = Payload(id: Identity, error: bool, gpuCompleted: bool)

  // ---------------------------------------------------------------- phases

  const PREPARE := 0
  const READY := 1
  const ACK := 2
  const START := 3
  const STARTED := 4
  const OUTCOME := 5
  const EVIDENCE := 6
  const RELEASE := 7

  function PhaseName(phase: nat): string {
    match phase
    case 0 => "REQUEST_PREPARE"
    case 1 => "EXECUTE_READY"
    case 2 => "EXECUTE_ACK"
    case 3 => "START"
    case 4 => "START_ACK"
    case 5 => "EXECUTION_OUTCOME"
    case 6 => "COMPLETION_EVIDENCE"
    case _ => "COMPLETION_RELEASE"
  }

  lemma PhaseNamesDiffer(a: nat, b: nat)
    requires a <= RELEASE && b <= RELEASE && PhaseName(a) == PhaseName(b)
    ensures a == b
  {
    var lengths := [15, 13, 11, 5, 9, 17, 19, 18];
    assert forall p :: 0 <= p <= 7 ==> |PhaseName(p)| == lengths[p];
  }

  /** Where the worker stands. */
  datatype Pc =
    | Idle
    | Checking                 // buffers, stream and version are being validated
    | At(phase: nat)           // about to exchange this phase
    | Waiting(phase: nat)      // inside gather
    | Running                  // the collective is on the stream
    | Recording                // every rank reported completion
    | Freeing                  // every rank has its evidence
    | OtherAt(name: string)    // some other operation's exchange
    | OtherWaiting(name: string)
    | Closing
    | Stopped                  // closing, the schedule has been stopped

  /** State and Version fields of one rank; `streamBusy` is true while work on the guarded stream may be outstanding,
      and the
      logs remember what has happened for a request. */
  datatype Local = Local(
    pc: Pc, id: Identity, error: bool,
    busy: bool, uncertain: bool, closed: bool,
    buffersRetained: bool, requestActive: bool, guard: bool,
    gpuComplete: bool, ready: bool, comm: bool, commInitialized: bool, releaseFailed: bool,
    nextRequest: nat, successes: nat,
    streamBusy: bool,
    prepared: set<Identity>, committed: set<Identity>, launched: set<Identity>, completed: set<Identity>,
    recorded: set<Identity>, freed: set<Identity>,
    valid: set<Identity>)

  datatype Event =
    | Submit(version: nat, contract: nat)
    | Refuse | RetainFails | RetainOk
    | Send
    | Return(members: seq<Payload>)
    | GatherFails | Unsendable
    | GpuDone | GpuLate | GpuFails
    | EvidenceOk | EvidenceFails
    | ReleaseOk | ReleaseFails
    | PublicTimeout
    | OtherBegin(name: string)
    | OtherDone(ready: bool, comm: bool, commInitialized: bool)
    | OtherFails(ready: bool, comm: bool, commInitialized: bool, releaseFailed: bool, unresolved: bool)
    | CloseBegin | CloseStop | CloseFails(releaseFailed: bool, stopped: bool) | CloseDone

  predicate Unanimous(members: seq<Payload>) {
    forall i :: 0 <= i < |members| ==> !members[i].error && members[i].id == members[0].id
  }

  predicate AllCompleted(members: seq<Payload>, id: Identity) {
    forall i :: 0 <= i < |members| ==> members[i].id == id && !members[i].error && members[i].gpuCompleted
  }

  /** What the worker contributes to the phase it is at. */
  function Contribution(l: Local, phase: nat): Payload {
    Payload(l.id, (phase == PREPARE || phase == OUTCOME || phase == EVIDENCE || phase == RELEASE)
      && l.error, l.gpuComplete)
  }

  predicate Grows(l: Local, m: Local) {
    l.prepared <= m.prepared && l.committed <= m.committed && l.launched <= m.launched && l.completed <= m.completed
    && l.recorded <= m.recorded && l.freed <= m.freed && l.valid <= m.valid
  }

  /** No log changes. */
  predicate SameLogs(l: Local, m: Local) {
    && m.prepared == l.prepared && m.committed == l.committed && m.launched == l.launched && m.completed == l.completed
    && m.recorded == l.recorded && m.freed == l.freed && m.valid == l.valid
  }

  predicate InGather(pc: Pc) {
    pc.Waiting? || pc.OtherWaiting?
  }

  predicate MovedOn(pc: Pc) {
    !pc.Waiting? && !pc.OtherWaiting? && !pc.OtherAt?
  }

  /** The handler at the end of a failed job. */
  function JobFails(l: Local, broken: bool): (m: Local)
    ensures m.pc.Idle? && SameLogs(l, m)
  {
    l.(pc := Idle, busy := false, uncertain := l.uncertain || l.buffersRetained || l.requestActive || broken)
  }

  /** An exchange that throws: inside the START block the error is reported in the outcome, elsewhere the job ends. */
  function ExchangeFails(l: Local, phase: nat, broken: bool): (m: Local)
    ensures MovedOn(m.pc) && SameLogs(l, m)
  {
    if phase == START || phase == STARTED then l.(pc := At(OUTCOME), error := true) else JobFails(l, broken)
  }

  /** Whether this rank may use the workload for a new request. */
  predicate Eligible(l: Local) {
    l.ready && l.comm && l.gpuComplete && !l.requestActive && !l.guard
  }

  /** A phase every rank agreed to. */
  function Passed(l: Local, phase: nat): (m: Local)
    ensures MovedOn(m.pc) && Grows(l, m)
    ensures phase < RELEASE ==> m.valid == l.valid
    ensures phase >= RELEASE ==> m.valid == l.valid + {l.id}
    ensures phase != STARTED ==> m.launched == l.launched
    ensures phase == STARTED ==> m.launched == l.launched + {l.id}
  {
    match phase
    case 0 => l.(pc := At(READY), requestActive := true, buffersRetained := true, prepared := l.prepared + {l.id})
    case 1 => l.(pc := At(ACK))
    case 2 => l.(pc := At(START), error := false, committed := l.committed + {l.id})
    case 3 => l.(pc := At(STARTED))
    case 4 => l.(pc := Running, gpuComplete := false, streamBusy := true, launched := l.launched + {l.id})
    case 5 => l.(pc := Recording, error := false)
    case 6 => l.(pc := Freeing, error := false)
    case _ => l.(pc := Idle, busy := false, successes := l.successes + 1, nextRequest := l.nextRequest + 1,
                 requestActive := false, buffersRetained := false, valid := l.valid + {l.id})
  }

  /** Outcomes must all report completion of this very request; every other phase must be unanimous. */
  predicate Agreeable(l: Local, phase: nat, members: seq<Payload>) {
    if phase == OUTCOME then AllCompleted(members, l.id) else Unanimous(members)
  }

  function AfterPhase(l: Local, phase: nat, members: seq<Payload>, broken: bool): (m: Local)
    ensures MovedOn(m.pc)
  {
    if Agreeable(l, phase, members) then Passed(l, phase) else ExchangeFails(l, phase, broken)
  }

  /** Closing waits for the schedule's stream to stop. */
  predicate Stoppable(l: Local) {
    && l.pc.Closing? && !l.releaseFailed && !(l.comm && !l.commInitialized)
    && (!l.gpuComplete || (l.uncertain && l.comm))
    && (!l.gpuComplete ==> l.guard)
  }

  predicate Enabled(l: Local, broken: bool, e: Event) {
    match e
    case Submit(v, c) => l.pc.Idle? && !l.closed && !l.busy && !l.uncertain
    case Refuse => l.pc.Checking?
    case RetainFails => l.pc.Checking? && Eligible(l)
    case RetainOk => l.pc.Checking? && Eligible(l)
    case Send => (l.pc.At? || l.pc.OtherAt?) && !broken
    case Return(members) => l.pc.Waiting? || l.pc.OtherWaiting?
    case GatherFails => l.pc.Waiting? || l.pc.OtherWaiting?
    case Unsendable => l.pc.At? && broken
    case GpuDone => l.pc.Running?
    case GpuLate => l.pc.Running?
    case GpuFails => l.pc.Running?
    case EvidenceOk => l.pc.Recording?
    case EvidenceFails => l.pc.Recording?
    case ReleaseOk => l.pc.Freeing?
    case ReleaseFails => l.pc.Freeing?
    case PublicTimeout => true                  // even after the worker has finished
    case OtherBegin(name) => l.pc.Idle? && !l.closed && !l.busy && !l.uncertain
      && forall p: nat :: p <= RELEASE ==> name != PhaseName(p)
    case OtherDone(r, c, i) => l.pc.OtherAt?
    case OtherFails(r, c, i, f, u) => l.pc.OtherAt?
    case CloseBegin => l.pc.Idle? && !l.closed && !l.busy
    case CloseStop => Stoppable(l)
    case CloseFails(f, stopped) => (l.pc.Closing? || l.pc.Stopped?) && (stopped ==> Stoppable(l))
    case CloseDone =>
      l.pc.Stopped?
      || (l.pc.Closing? && !l.releaseFailed && !(l.comm && !l.commInitialized) && l.gpuComplete
      && !(l.uncertain && l.comm))
  }

  /** Events outside the request protocol. */
  predicate Housekeeping(e: Event) {
    e.OtherBegin? || e.OtherDone? || e.OtherFails? || e.CloseBegin? || e.CloseStop? || e.CloseFails? || e.CloseDone?
      || e.PublicTimeout?
  }

  /** Neither a message nor a claim: logs of claims, the transport and other operations' names stay. */
  predicate Quiet(l: Local, e: Event, m: Local) {
    && Grows(l, m) && m.valid == l.valid && m.launched == l.launched
    && (InGather(m.pc) <==> e.PublicTimeout? && InGather(l.pc))
    && (e.PublicTimeout? ==> m.pc == l.pc && m.id == l.id && m.error == l.error && m.gpuComplete == l.gpuComplete)
    && (m.pc.OtherAt? || m.pc.OtherWaiting? ==>
      (e.PublicTimeout? && m.pc == l.pc) || (e.OtherBegin? && m.pc.name == e.name))
  }

  /** The steps of a request between its exchanges. */
  function RequestStep(l: Local, e: Event): (m: Local)
    requires !Housekeeping(e) && !e.Send? && !e.Return? && !e.GatherFails? && !e.Unsendable?
    ensures Quiet(l, e, m)
  {
    match e
    case Submit(v, c) => l.(pc := Checking, busy := true, error := false, id := Identity(l.nextRequest, v, c))
    case Refuse => l.(pc := At(PREPARE), error := true)
    case RetainFails => l.(pc := At(PREPARE), error := true, guard := true, buffersRetained := true, streamBusy := true)
    case RetainOk => l.(pc := At(PREPARE), guard := true, buffersRetained := true, streamBusy := false)
    case GpuDone => l.(pc := At(OUTCOME), gpuComplete := true, completed := l.completed + {l.id})
    case GpuLate => l.(pc := At(OUTCOME), gpuComplete := true, error := true)
    case GpuFails => l.(pc := At(OUTCOME), error := true)
    case EvidenceOk => l.(pc := At(EVIDENCE), error := false, recorded := l.recorded + {l.id})
    case EvidenceFails => l.(pc := At(EVIDENCE), error := true)
    case ReleaseOk => l.(pc := At(RELEASE), error := false, guard := false, streamBusy := false, freed := l.freed
                         + {l.id})
    case ReleaseFails => l.(pc := At(RELEASE), error := true)
  }

  /** Closing fails, perhaps after the stream has stopped. */
  function CloseBroken(l: Local, f: bool, stopped: bool): (m: Local)
    ensures SameLogs(l, m) && m.launched == l.launched && m.buffersRetained == l.buffersRetained && m.guard == l.guard
  {
    l.(releaseFailed := l.releaseFailed || f, gpuComplete := l.gpuComplete || stopped, streamBusy := l.streamBusy
      && !(stopped && l.guard))
  }

  /** Other operations, timeouts of the public wait, and closing. */
  function HousekeepingStep(l: Local, broken: bool, e: Event): (m: Local)
    requires Housekeeping(e)
    ensures Quiet(l, e, m)
  {
    match e
    case PublicTimeout => l.(uncertain := true)
    case OtherBegin(name) => l.(pc := OtherAt(name), busy := true)
    case OtherDone(r, c, i) => l.(pc := Idle, busy := false, ready := r, comm := c, commInitialized := i)
    case OtherFails(r, c, i, f, u) =>
      JobFails(l.(ready := r, comm := c, commInitialized := i, releaseFailed := f, uncertain := l.uncertain || u),
               broken)
    case CloseBegin => l.(pc := Closing, busy := true)
    case CloseStop => l.(pc := Stopped, gpuComplete := true, streamBusy := l.streamBusy
      && !l.guard, comm := false, commInitialized := false, ready := false)
    case CloseFails(f, stopped) => JobFails(CloseBroken(l, f, stopped), broken)
    case CloseDone =>
      l.(pc := Idle, busy := false, closed := true, comm := false, guard := false, streamBusy := l.streamBusy
        && !l.guard,
         buffersRetained := false, requestActive := false)
  }

  function Apply(l: Local, broken: bool, e: Event): Local
    requires Enabled(l, broken, e)
  {
    if e.Send? then (if l.pc.At? then l.(pc := Waiting(l.pc.phase)) else l.(pc := OtherWaiting(l.pc.name)))
    else if e.Return?
      then (if l.pc.Waiting? then AfterPhase(l, l.pc.phase, e.members, broken) else l.(pc := OtherAt(l.pc.name)))
    else if e.GatherFails? then (if l.pc.Waiting? then ExchangeFails(l, l.pc.phase, true) else JobFails(l, true))
    else if e.Unsendable? then ExchangeFails(l, l.pc.phase, true)
    else if Housekeeping(e) then HousekeepingStep(l, broken, e)
    else RequestStep(l, e)
  }

  // ---------------------------------------------------------------- the group

  datatype Group = Group(ranks: seq<Rank<Payload>>, locals: seq<Local>)

  function Outgoing(l: Local): Entry<Payload>
    requires l.pc.At? || l.pc.OtherAt? || l.pc.Waiting? || l.pc.OtherWaiting?
  {
    match l.pc
    case At(p) => Entry(PhaseName(p), Contribution(l, p))
    case Waiting(p) => Entry(PhaseName(p), Contribution(l, p))
    case OtherAt(name) => Entry(name, Payload(l.id, false, false))
    case OtherWaiting(name) => Entry(name, Payload(l.id, false, false))
    case _ => Entry("", Payload(l.id, false, false))
  }

  /** The transport's part of an event: callers send, return with everyone's contributions, or give up. */
  ghost predicate TransportStep(g: Group, r: nat, e: Event, h: Group)
    requires r < |g.ranks| == |g.locals| == |h.ranks|
  {
    match e
    case Send =>
      && !g.ranks[r].sending && !g.ranks[r].broken && (g.locals[r].pc.At? || g.locals[r].pc.OtherAt?)
      && h.ranks == g.ranks[r := g.ranks[r].(history := g.ranks[r].history + [Outgoing(g.locals[r])], sending := true)]
    case Return(members) =>
      && g.ranks[r].sending && !g.ranks[r].broken
      && h.ranks == g.ranks[r := g.ranks[r].(results := g.ranks[r].results + [members], sending := false)]
      && Returns(g.ranks, h.ranks, r)
    case GatherFails =>
      g.ranks[r].sending && h.ranks == g.ranks[r := g.ranks[r].(broken := true, sending := false)]
    case _ => h.ranks == g.ranks
  }

  ghost predicate GroupNext(g: Group, r: nat, e: Event, h: Group) {
    && r < |g.ranks| == |g.locals| == |h.ranks| == |h.locals|
    && Enabled(g.locals[r], g.ranks[r].broken, e)
    && TransportStep(g, r, e, h)
    && h.locals == g.locals[r := Apply(g.locals[r], g.ranks[r].broken, e)]
  }

  function FreshLocal(): Local {
    Local(Idle, Identity(0, 0, 0), false, false, false, false, false, false, false, true, false, false, false, false, 1,
          0, false,
          {}, {}, {}, {}, {}, {}, {})
  }

  ghost predicate InitialGroup(g: Group) {
    && |g.ranks| == |g.locals| > 0
    && forall r :: 0 <= r < |g.ranks| ==> g.ranks[r] == Rank([], [], false, false) && g.locals[r] == FreshLocal()
  }

  ghost predicate IsGroupRun(groups: seq<Group>, events: seq<(nat, Event)>) {
    && |groups| == |events| + 1 && InitialGroup(groups[0])
    && forall i :: 0 <= i < |events| ==> GroupNext(groups[i], events[i].0, events[i].1, groups[i + 1])
  }

  // ---------------------------------------------------------------- local safety

  /** The request is on: its buffers are retained and it is active. */
  predicate InRequest(pc: Pc) {
    || ((pc.At? || pc.Waiting?) && 1 <= pc.phase)
    || pc.Running? || pc.Recording? || pc.Freeing?
  }

  predicate BeforeRelease(pc: Pc) {
    || ((pc.At? || pc.Waiting?) && 1 <= pc.phase < RELEASE)
    || pc.Running? || pc.Recording? || pc.Freeing?
  }

  /** Unresolved GPU work always has its stream's guard, and a guard its buffers. */
  predicate Owned(l: Local) {
    && (l.guard ==> l.buffersRetained)
    && (l.streamBusy ==> l.guard)
    && (!l.gpuComplete ==> l.guard && l.requestActive)
  }

  predicate Clean(l: Local) {
    !l.buffersRetained && !l.guard && !l.requestActive
  }

  predicate Placed(l: Local) {
    && (l.busy <==> !l.pc.Idle?)
    && ((l.pc.At? || l.pc.Waiting?) ==> l.pc.phase <= RELEASE)
    && (InRequest(l.pc) ==> l.requestActive && l.buffersRetained)
    && (BeforeRelease(l.pc) ==> l.guard)
    && (l.pc.Checking? || l.pc.OtherAt? || l.pc.OtherWaiting? ==> Clean(l) && l.gpuComplete)
    && ((l.pc.At? || l.pc.Waiting?) && l.pc.phase == PREPARE ==>
      !l.requestActive && l.gpuComplete && (!l.error ==> l.guard))
    && (l.pc.Stopped? ==> l.gpuComplete)
    && (l.pc.Recording? || l.pc.Freeing? || ((l.pc.At? || l.pc.Waiting?) && l.pc.phase > OUTCOME) ==> l.gpuComplete)
    && ((l.pc.At? || l.pc.Waiting?) && l.pc.phase < OUTCOME ==> l.gpuComplete)
  }

  /** An idle context that is not uncertain holds nothing; nor does a closed one. */
  predicate Settled(l: Local) {
    && (!l.busy && !l.uncertain ==> Clean(l) && l.gpuComplete)
    && (l.closed ==> Clean(l) && l.gpuComplete && l.pc.Idle?)
  }

  /** Progress of the current request recorded in the logs. */
  predicate Logged(l: Local) {
    && ((l.pc.At? || l.pc.Waiting?) && START <= l.pc.phase <= STARTED ==> l.id in l.committed)
    && (l.pc.Running? ==> !l.error && l.id in l.launched)
    && ((l.pc.At? || l.pc.Waiting?) && l.pc.phase == OUTCOME && !l.error ==> l.gpuComplete && l.id in l.completed)
    && ((l.pc.At? || l.pc.Waiting?) && START <= l.pc.phase <= STARTED ==> !l.error)
    && (l.pc.Recording? ==> l.id in l.completed)
    && ((l.pc.At? || l.pc.Waiting?) && l.pc.phase == EVIDENCE ==>
      l.id in l.completed && (!l.error ==> l.id in l.recorded))
    && (l.pc.Freeing? ==> l.id in l.completed && l.id in l.recorded)
    && ((l.pc.At? || l.pc.Waiting?) && l.pc.phase == RELEASE ==>
          l.id in l.completed && l.id in l.recorded && (!l.error ==> l.id in l.freed && !l.guard))
  }

  predicate LocalOk(l: Local) {
    Owned(l) && Placed(l) && Settled(l) && Logged(l)
  }

  /** The own contribution is part of what a rank returns with. */
  predicate OwnReturn(l: Local, e: Event) {
    e.Return? && l.pc.Waiting? ==> Contribution(l, l.pc.phase) in e.members
  }

  lemma JobFailsOk(l: Local, broken: bool)
    requires Owned(l) && !l.closed
    ensures LocalOk(JobFails(l, broken))
  {
  }

  lemma SubmitOk(l: Local, v: nat, c: nat)
    requires LocalOk(l) && l.pc.Idle? && !l.closed && !l.busy && !l.uncertain
    ensures LocalOk(l.(pc := Checking, busy := true, error := false, id := Identity(l.nextRequest, v, c)))
  {
  }

  lemma CheckedOk(l: Local)
    requires LocalOk(l) && l.pc.Checking?
    ensures LocalOk(l.(pc := At(PREPARE), error := true))
    ensures LocalOk(l.(pc := At(PREPARE), error := true, guard := true, buffersRetained := true, streamBusy := true))
    ensures LocalOk(l.(pc := At(PREPARE), guard := true, buffersRetained := true, streamBusy := false))
  {
  }

  lemma SendOk(l: Local)
    requires LocalOk(l) && (l.pc.At? || l.pc.OtherAt?)
    ensures LocalOk(if l.pc.At? then l.(pc := Waiting(l.pc.phase)) else l.(pc := OtherWaiting(l.pc.name)))
  {
  }

  lemma NotClosed(l: Local)
    requires LocalOk(l) && !l.pc.Idle?
    ensures !l.closed && Owned(l)
  {
  }

  lemma ExchangeFailsOk(l: Local, broken: bool)
    requires LocalOk(l) && (l.pc.At? || l.pc.Waiting?)
    ensures LocalOk(ExchangeFails(l, l.pc.phase, broken))
  {
    NotClosed(l);
    if !(l.pc.phase == START || l.pc.phase == STARTED) {
      JobFailsOk(l, broken);
    }
  }

  lemma PreparedOk(l: Local)
    requires LocalOk(l) && l.pc == Waiting(PREPARE) && !l.error
    ensures LocalOk(l.(pc := At(READY), requestActive := true, buffersRetained := true, prepared := l.prepared
                       + {l.id}))
  {
  }

  lemma ReadiedOk(l: Local)
    requires LocalOk(l)
    ensures l.pc == Waiting(READY) ==> LocalOk(l.(pc := At(ACK)))
    ensures l.pc == Waiting(ACK) ==> LocalOk(l.(pc := At(START), error := false, committed := l.committed + {l.id}))
  {
  }

  lemma StartedOk(l: Local)
    requires LocalOk(l)
    ensures l.pc == Waiting(START) ==> LocalOk(l.(pc := At(STARTED)))
    ensures l.pc == Waiting(STARTED) ==>
              LocalOk(l.(pc := Running, gpuComplete := false, streamBusy := true, launched := l.launched + {l.id}))
  {
  }

  lemma EvidencedOk(l: Local)
    requires LocalOk(l) && l.pc == Waiting(EVIDENCE) && !l.error
    ensures LocalOk(l.(pc := Freeing, error := false))
  {
  }

  lemma SucceededOk(l: Local)
    requires LocalOk(l) && l.pc == Waiting(RELEASE) && !l.error
    ensures LocalOk(l.(pc := Idle, busy := false, successes := l.successes + 1, nextRequest := l.nextRequest + 1,
                       requestActive := false, buffersRetained := false, valid := l.valid + {l.id}))
  {
  }

  lemma PhaseKnown(l: Local)
    requires LocalOk(l) && l.pc.Waiting?
    ensures l.pc.phase <= RELEASE && l.pc == Waiting(l.pc.phase)
  {
  }

  /** A phase agreed to leads to the next. */
  lemma PhasePassed(l: Local, members: seq<Payload>)
    requires LocalOk(l) && l.pc.Waiting? && Agreeable(l, l.pc.phase, members) && Contribution(l, l.pc.phase) in members
    ensures LocalOk(Passed(l, l.pc.phase))
  {
    hide LocalOk;
    PhaseKnown(l);
    if l.pc.phase == OUTCOME {
      OutcomePassed(l, members);
    } else {
      OwnIsClean(l, members);
      UnanimousPassed(l);
    }
  }

  lemma UnanimousPassed(l: Local)
    requires LocalOk(l) && l.pc.Waiting? && l.pc.phase <= RELEASE && l.pc.phase != OUTCOME
    requires !Contribution(l, l.pc.phase).error
    ensures LocalOk(Passed(l, l.pc.phase))
  {
    hide LocalOk;
    match l.pc.phase
    case 0 => PreparedOk(l);
    case 1 => ReadiedOk(l);
    case 2 => ReadiedOk(l);
    case 3 => StartedOk(l);
    case 4 => StartedOk(l);
    case 6 => EvidencedOk(l);
    case _ => SucceededOk(l);
  }

  /** In a unanimous vector the own contribution carries no error. */
  lemma OwnIsClean(l: Local, members: seq<Payload>)
    requires l.pc.Waiting? && Unanimous(members) && Contribution(l, l.pc.phase) in members
    ensures !Contribution(l, l.pc.phase).error
  {
  }

  lemma OutcomePassed(l: Local, members: seq<Payload>)
    requires LocalOk(l) && l.pc.Waiting? && l.pc.phase == OUTCOME
    requires AllCompleted(members, l.id) && Contribution(l, OUTCOME) in members
    ensures LocalOk(l.(pc := Recording, error := false))
  {
    assert !Contribution(l, OUTCOME).error;
  }

  lemma ReturnOk(l: Local, members: seq<Payload>, broken: bool)
    requires LocalOk(l) && l.pc.Waiting? && Contribution(l, l.pc.phase) in members
    ensures LocalOk(AfterPhase(l, l.pc.phase, members, broken))
  {
    hide LocalOk, Agreeable, Contribution, Passed, ExchangeFails;
    if Agreeable(l, l.pc.phase, members) {
      PhasePassed(l, members);
    } else {
      ExchangeFailsOk(l, broken);
    }
  }

  lemma GpuOk(l: Local)
    requires LocalOk(l) && l.pc.Running?
    ensures LocalOk(l.(pc := At(OUTCOME), gpuComplete := true, completed := l.completed + {l.id}))
    ensures LocalOk(l.(pc := At(OUTCOME), gpuComplete := true, error := true))
    ensures LocalOk(l.(pc := At(OUTCOME), error := true))
  {
  }

  lemma EvidenceStepOk(l: Local)
    requires LocalOk(l) && l.pc.Recording?
    ensures LocalOk(l.(pc := At(EVIDENCE), error := false, recorded := l.recorded + {l.id}))
    ensures LocalOk(l.(pc := At(EVIDENCE), error := true))
  {
  }

  lemma ReleaseStepOk(l: Local)
    requires LocalOk(l) && l.pc.Freeing?
    ensures LocalOk(l.(pc := At(RELEASE), error := false, guard := false, streamBusy := false, freed := l.freed
                       + {l.id}))
    ensures LocalOk(l.(pc := At(RELEASE), error := true))
  {
  }

  lemma OtherOk(l: Local, r: bool, c: bool, i: bool, f: bool, u: bool, broken: bool)
    requires LocalOk(l) && (l.pc.OtherAt? || l.pc.OtherWaiting?)
    ensures LocalOk(l.(pc := Idle, busy := false, ready := r, comm := c, commInitialized := i))
    ensures LocalOk(JobFails(l.(ready := r, comm := c, commInitialized := i, releaseFailed := f,
                                uncertain := l.uncertain || u), broken))
    ensures l.pc.OtherWaiting? ==> LocalOk(l.(pc := OtherAt(l.pc.name)))
    ensures LocalOk(JobFails(l, broken))
  {
    NotClosed(l);
    JobFailsOk(l, broken);
    JobFailsOk(l.(ready := r, comm := c, commInitialized := i, releaseFailed := f, uncertain := l.uncertain || u),
               broken);
  }

  lemma BeginOk(l: Local, name: string)
    requires LocalOk(l) && l.pc.Idle? && !l.closed && !l.busy
    ensures !l.uncertain ==> LocalOk(l.(pc := OtherAt(name), busy := true))
    ensures LocalOk(l.(pc := Closing, busy := true))
  {
  }

  lemma CloseStopOk(l: Local)
    requires LocalOk(l) && l.pc.Closing? && (!l.gpuComplete ==> l.guard)
    ensures LocalOk(l.(pc := Stopped, gpuComplete := true, streamBusy := l.streamBusy
        && !l.guard, comm := false, commInitialized := false, ready := false))
  {
  }

  lemma CloseDoneOk(l: Local)
    requires LocalOk(l) && (l.pc.Closing? || l.pc.Stopped?) && l.gpuComplete
    ensures LocalOk(l.(pc := Idle, busy := false, closed := true, comm := false, guard := false,
                       streamBusy := l.streamBusy && !l.guard,
                       buffersRetained := false, requestActive := false))
  {
  }

  lemma TimeoutOk(l: Local)
    requires LocalOk(l)
    ensures LocalOk(l.(uncertain := true))
  {
  }

  lemma StoppedIsComplete(l: Local)
    requires LocalOk(l) && l.pc.Stopped?
    ensures l.gpuComplete
  {
  }

  lemma OwnKnown(l: Local, members: seq<Payload>)
    requires OwnReturn(l, Return(members)) && l.pc.Waiting?
    ensures Contribution(l, l.pc.phase) in members
  {
  }

  lemma HousekeepingKeeps(l: Local, broken: bool, e: Event)
    requires LocalOk(l) && Enabled(l, broken, e) && Housekeeping(e)
    ensures LocalOk(Apply(l, broken, e))
  {
    ApplyHousekeeping(l, broken, e);
    if e.CloseBegin? || e.CloseStop? || e.CloseFails? || e.CloseDone? {
      CloseKeeps(l, broken, e);
    } else {
      OthersKeep(l, broken, e);
    }
    hide *;
  }

  lemma ApplyHousekeeping(l: Local, broken: bool, e: Event)
    requires Enabled(l, broken, e) && Housekeeping(e)
    ensures Apply(l, broken, e) == HousekeepingStep(l, broken, e)
  {
    hide HousekeepingStep, RequestStep, AfterPhase, ExchangeFails, JobFails;
  }

  lemma OthersKeep(l: Local, broken: bool, e: Event)
    requires LocalOk(l) && Enabled(l, broken, e) && (e.PublicTimeout? || e.OtherBegin? || e.OtherDone? || e.OtherFails?)
    ensures LocalOk(HousekeepingStep(l, broken, e))
  {
    hide LocalOk, JobFails, Eligible, PhaseName;
    match e
    case PublicTimeout => TimeoutOk(l);
    case OtherBegin(name) => BeginOk(l, name);
    case OtherDone(r, c, i) => OtherOk(l, r, c, i, true, true, broken);
    case OtherFails(r, c, i, f, u) => OtherOk(l, r, c, i, f, u, broken);
  }

  lemma CloseKeeps(l: Local, broken: bool, e: Event)
    requires LocalOk(l) && Enabled(l, broken, e) && (e.CloseBegin? || e.CloseStop? || e.CloseFails? || e.CloseDone?)
    ensures LocalOk(HousekeepingStep(l, broken, e))
  {
    hide LocalOk, JobFails, Eligible, PhaseName;
    match e
    case CloseBegin => BeginOk(l, "");
    case CloseStop => CloseStopOk(l);
    case CloseFails(f, stopped) =>
      NotClosed(l);
      OwnedAnyway(l, f, stopped);
      JobFailsOk(CloseBroken(l, f, stopped), broken);
    case CloseDone =>
      if l.pc.Stopped? {
        StoppedIsComplete(l);
      }
      CloseDoneOk(l);
  }

  lemma ReturnKeeps(l: Local, broken: bool, e: Event)
    requires LocalOk(l) && Enabled(l, broken, e) && OwnReturn(l, e) && (e.Return? || e.GatherFails? || e.Unsendable?)
    ensures LocalOk(Apply(l, broken, e))
  {
    hide LocalOk, OwnReturn, AfterPhase, ExchangeFails, JobFails, Eligible, PhaseName;
    if e.Return? && l.pc.Waiting? {
      OwnKnown(l, e.members);
      ReturnOk(l, e.members, broken);
    } else if l.pc.OtherWaiting? {
      OtherOk(l, true, true, true, true, true, true);
    } else {
      ExchangeFailsOk(l, true);
    }
  }

  lemma RequestKeeps(l: Local, broken: bool, e: Event)
    requires LocalOk(l) && Enabled(l, broken, e) && !Housekeeping(e) && !(e.Return? || e.GatherFails? || e.Unsendable?)
    ensures LocalOk(Apply(l, broken, e))
  {
    hide LocalOk, OwnReturn, AfterPhase, ExchangeFails, JobFails, Eligible, PhaseName;
    match e
    case Submit(v, c) => SubmitOk(l, v, c);
    case Refuse => CheckedOk(l);
    case RetainFails => CheckedOk(l);
    case RetainOk => CheckedOk(l);
    case Send => SendOk(l);
    case GpuDone => GpuOk(l);
    case GpuLate => GpuOk(l);
    case GpuFails => GpuOk(l);
    case EvidenceOk => EvidenceStepOk(l);
    case EvidenceFails => EvidenceStepOk(l);
    case ReleaseOk => ReleaseStepOk(l);
    case ReleaseFails => ReleaseStepOk(l);
  }

  /** Every step of a rank keeps its invariant. */
  lemma ApplyKeeps(l: Local, broken: bool, e: Event)
    requires LocalOk(l) && Enabled(l, broken, e) && OwnReturn(l, e)
    ensures LocalOk(Apply(l, broken, e))
  {
    hide *;
    if Housekeeping(e) {
      HousekeepingKeeps(l, broken, e);
    } else if e.Return? || e.GatherFails? || e.Unsendable? {
      ReturnKeeps(l, broken, e);
    } else {
      RequestKeeps(l, broken, e);
    }
  }

  lemma OwnedAnyway(l: Local, f: bool, stopped: bool)
    requires Owned(l)
    ensures Owned(CloseBroken(l, f, stopped)) && CloseBroken(l, f, stopped).closed == l.closed
  {
  }

  // ---------------------------------------------------------------- what a rank's messages say

  predicate OtherName(name: string) {
    forall p: nat :: p <= RELEASE ==> name != PhaseName(p)
  }

  /** A clean release report was sent only after GPU completion, evidence and guard release of that request; a start
      acknowledgement only after every rank committed it. */
  predicate Truthful(l: Local, e: Entry<Payload>) {
    && (e.phase == PhaseName(RELEASE) && !e.payload.error ==>
          e.payload.id in l.completed && e.payload.id in l.recorded && e.payload.id in l.freed)
    && (e.phase == PhaseName(STARTED) ==> e.payload.id in l.committed)
  }

  predicate AllTruthful(l: Local, x: Rank<Payload>) {
    forall k :: 0 <= k < |x.history| ==> Truthful(l, x.history[k])
  }

  /** The worker is inside gather exactly while its message is out, and the message is what it had to say. */
  predicate Linked(l: Local, x: Rank<Payload>) {
    && (x.sending <==> InGather(l.pc))
    && (x.sending ==> |x.results| < |x.history| && x.history[|x.results|] == Outgoing(l))
    && (l.pc.OtherAt? || l.pc.OtherWaiting? ==> OtherName(l.pc.name))
    && |x.results| <= |x.history| <= |x.results| + 1
    && (!x.sending && !x.broken ==> |x.history| == |x.results|)
  }

  /** Which logs a return may extend. */
  lemma PhaseLogs(l: Local, phase: nat, members: seq<Payload>, broken: bool)
    requires phase <= RELEASE
    ensures var m := AfterPhase(l, phase, members, broken);
            && Grows(l, m)
            && (m.valid == l.valid || (phase == RELEASE && Unanimous(members) && m.valid == l.valid + {l.id}))
            && (m.launched == l.launched
            || (phase == STARTED && Unanimous(members) && m.launched == l.launched + {l.id}))
  {
    hide ExchangeFails, Passed, Unanimous, AllCompleted;
  }

  /** Which logs a step may extend. */
  predicate LogStep(l: Local, e: Event, m: Local) {
    && Grows(l, m)
    && (m.valid == l.valid
        || (e.Return? && l.pc == Waiting(RELEASE) && Unanimous(e.members) && m.valid == l.valid + {l.id}))
    && (m.launched == l.launched
        || (e.Return? && l.pc == Waiting(STARTED) && Unanimous(e.members) && m.launched == l.launched + {l.id}))
  }

  lemma ReturnLogs(l: Local, broken: bool, e: Event)
    requires Enabled(l, broken, e) && LocalOk(l) && e.Return? && l.pc.Waiting?
    ensures LogStep(l, e, Apply(l, broken, e))
  {
    hide LocalOk, PhaseName, AfterPhase, ExchangeFails, JobFails, Eligible, RequestStep, HousekeepingStep, Unanimous,
    Enabled;
    PhaseKnown(l);
    PhaseLogs(l, l.pc.phase, e.members, broken);
  }

  lemma SendLogs(l: Local, broken: bool, e: Event)
    requires Enabled(l, broken, e) && (e.Send? || (e.Return? && !l.pc.Waiting?))
    ensures LogStep(l, e, Apply(l, broken, e))
  {
    hide LocalOk, PhaseName, AfterPhase, ExchangeFails, JobFails, Eligible, RequestStep, HousekeepingStep, Unanimous,
    Enabled;
    if e.Send? {
      if l.pc.At? {
        assert Apply(l, broken, e) == l.(pc := Waiting(l.pc.phase));
      } else {
        OtherAtSend(l, broken);
        assert Apply(l, broken, e) == l.(pc := OtherWaiting(l.pc.name));
      }
    } else {
      OtherAtReturn(l, broken, e);
      assert Apply(l, broken, e) == l.(pc := OtherAt(l.pc.name));
    }
  }

  lemma OtherAtSend(l: Local, broken: bool)
    requires Enabled(l, broken, Send) && !l.pc.At?
    ensures l.pc.OtherAt?
  {
  }

  lemma OtherAtReturn(l: Local, broken: bool, e: Event)
    requires Enabled(l, broken, e) && e.Return? && !l.pc.Waiting?
    ensures l.pc.OtherWaiting?
  {
  }

  lemma FailLogs(l: Local, broken: bool, e: Event)
    requires Enabled(l, broken, e) && (e.GatherFails? || e.Unsendable?)
    ensures LogStep(l, e, Apply(l, broken, e))
  {
    hide LocalOk, PhaseName, AfterPhase, ExchangeFails, JobFails, Eligible, RequestStep, HousekeepingStep, Unanimous,
    Enabled;
  }

  lemma WorkLogs(l: Local, broken: bool, e: Event)
    requires Enabled(l, broken, e) && !(e.Send? || e.Return? || e.GatherFails? || e.Unsendable?)
    ensures LogStep(l, e, Apply(l, broken, e))
  {
    hide LocalOk, PhaseName, AfterPhase, ExchangeFails, JobFails, Eligible, RequestStep, HousekeepingStep, Unanimous,
    Enabled;
    if Housekeeping(e) {
      assert Quiet(l, e, HousekeepingStep(l, broken, e));
    } else {
      assert Quiet(l, e, RequestStep(l, e));
    }
  }

  lemma StepLogs(l: Local, broken: bool, e: Event)
    requires Enabled(l, broken, e) && LocalOk(l)
    ensures LogStep(l, e, Apply(l, broken, e))
  {
    hide *;
    if e.Return? && l.pc.Waiting? {
      ReturnLogs(l, broken, e);
    } else if e.Send? || e.Return? {
      SendLogs(l, broken, e);
    } else if e.GatherFails? || e.Unsendable? {
      FailLogs(l, broken, e);
    } else {
      WorkLogs(l, broken, e);
    }
  }

  lemma LogsGrow(l: Local, broken: bool, e: Event)
    requires Enabled(l, broken, e) && LocalOk(l)
    ensures Grows(l, Apply(l, broken, e))
  {
    StepLogs(l, broken, e);
    hide *;
    GrowsOf(l, e, Apply(l, broken, e));
  }

  lemma GrowsOf(l: Local, e: Event, m: Local)
    requires LogStep(l, e, m)
    ensures Grows(l, m)
  {
  }

  lemma TruthKept(l: Local, m: Local, x: Rank<Payload>)
    requires AllTruthful(l, x) && Grows(l, m)
    ensures AllTruthful(m, x)
  {
    hide PhaseName;
    forall k | 0 <= k < |x.history| ensures Truthful(m, x.history[k]) {
      assert Truthful(l, x.history[k]);
    }
  }

  lemma SaysTruth(l: Local)
    requires LocalOk(l) && (l.pc.At? || l.pc.OtherAt?) && (l.pc.OtherAt? ==> OtherName(l.pc.name))
    ensures Truthful(l, Outgoing(l))
  {
    if l.pc.At? {
      PhaseKnownAt(l);
      if PhaseName(l.pc.phase) == PhaseName(RELEASE) {
        PhaseNamesDiffer(l.pc.phase, RELEASE);
      }
      if PhaseName(l.pc.phase) == PhaseName(STARTED) {
        PhaseNamesDiffer(l.pc.phase, STARTED);
      }
      hide PhaseName;
    }
  }

  lemma PhaseKnownAt(l: Local)
    requires LocalOk(l) && l.pc.At?
    ensures l.pc.phase <= RELEASE
  {
  }

  // ---------------------------------------------------------------- group invariant

  ghost predicate RankGood(g: Group, r: nat)
    requires r < |g.ranks| == |g.locals|
  {
    LocalOk(g.locals[r]) && Linked(g.locals[r], g.ranks[r]) && AllTruthful(g.locals[r], g.ranks[r])
  }

  predicate Everywhere(locals: seq<Local>, id: Identity) {
    forall q :: 0 <= q < |locals| ==> id in locals[q].completed && id in locals[q].recorded && id in locals[q].freed
  }

  predicate CommittedEverywhere(locals: seq<Local>, id: Identity) {
    forall q :: 0 <= q < |locals| ==> id in locals[q].committed
  }

  ghost predicate Spread(g: Group) {
    forall r, id :: 0 <= r < |g.locals| ==>
      (id in g.locals[r].valid ==> Everywhere(g.locals, id))
        && (id in g.locals[r].launched ==> CommittedEverywhere(g.locals, id))
  }

  ghost predicate GroupOk(g: Group) {
    && |g.ranks| == |g.locals| > 0
    && (forall r :: 0 <= r < |g.ranks| ==> RankGood(g, r))
    && Spread(g)
  }

  lemma OwnContribution(g: Group, r: nat, members: seq<Payload>, h: Group)
    requires r < |g.ranks| == |g.locals| == |h.ranks| && RankGood(g, r)
    requires TransportStep(g, r, Return(members), h)
    ensures OwnReturn(g.locals[r], Return(members)) && |members| == |g.ranks|
    ensures forall q :: 0 <= q < |g.ranks| ==>
              (|g.ranks[r].results| < |g.ranks[q].history|
               && g.ranks[q].history[|g.ranks[r].results|] == Entry(Outgoing(g.locals[r]).phase, members[q]))
  {
    hide LocalOk, AllTruthful, Outgoing, Contribution, PhaseName;
    var got :|
      && h.ranks[r] == g.ranks[r].(results := g.ranks[r].results + [got], sending := false) && |got| == |g.ranks|
      && |g.ranks[r].results| < |g.ranks[r].history|
      && forall q :: 0 <= q < |g.ranks| ==>
           (|g.ranks[r].results| < |g.ranks[q].history|
            && g.ranks[q].history[|g.ranks[r].results|]
              == Entry(g.ranks[r].history[|g.ranks[r].results|].phase, got[q]));
    assert h.ranks[r].results[|g.ranks[r].results|] == got == members;
    OutgoingIs(g.locals[r]);
    assert members[r] in members;
  }

  lemma OutgoingIs(l: Local)
    ensures l.pc.Waiting? ==> Outgoing(l).payload == Contribution(l, l.pc.phase)
  {
  }

  lemma LinkKept(g: Group, r: nat, e: Event, h: Group)
    requires GroupNext(g, r, e, h) && Linked(g.locals[r], g.ranks[r])
    ensures Linked(h.locals[r], h.ranks[r])
  {
    hide *;
    StepOf(g, r, e, h);
    if e.Send? || e.Return? || e.GatherFails? {
      LinkMoved(g, r, e, h);
    } else {
      LinkStays(g, r, e, h);
    }
  }

  lemma StepOf(g: Group, r: nat, e: Event, h: Group)
    requires GroupNext(g, r, e, h)
    ensures r < |g.ranks| == |g.locals| == |h.ranks| == |h.locals|
    ensures Enabled(g.locals[r], g.ranks[r].broken, e) && TransportStep(g, r, e, h)
    ensures h.locals == g.locals[r := Apply(g.locals[r], g.ranks[r].broken, e)]
  {
    hide Enabled, TransportStep, Apply;
  }

  lemma LinkMoved(g: Group, r: nat, e: Event, h: Group)
    requires r < |g.ranks| == |g.locals| == |h.ranks| == |h.locals| && Linked(g.locals[r], g.ranks[r])
    requires Enabled(g.locals[r], g.ranks[r].broken, e) && TransportStep(g, r, e, h)
    requires (e.Send? || e.Return? || e.GatherFails?)
    requires h.locals == g.locals[r := Apply(g.locals[r], g.ranks[r].broken, e)]
    ensures Linked(h.locals[r], h.ranks[r])
  {
    hide PhaseName, AfterPhase, ExchangeFails, JobFails, RequestStep, HousekeepingStep, Returns, OtherName;
  }

  lemma LinkStays(g: Group, r: nat, e: Event, h: Group)
    requires r < |g.ranks| == |g.locals| == |h.ranks| == |h.locals| && Linked(g.locals[r], g.ranks[r])
    requires Enabled(g.locals[r], g.ranks[r].broken, e) && TransportStep(g, r, e, h) && !e.Send? && !e.Return?
    requires !e.GatherFails?
    requires h.locals == g.locals[r := Apply(g.locals[r], g.ranks[r].broken, e)]
    ensures Linked(h.locals[r], h.ranks[r])
  {
    hide PhaseName, AfterPhase, ExchangeFails, JobFails, RequestStep, HousekeepingStep, Returns, OtherName;
    assert h.ranks == g.ranks;
    if e.OtherBegin? {
      OtherNamed(g.locals[r], e.name);
    }
  }

  lemma OtherNamed(l: Local, name: string)
    requires Enabled(l, false, OtherBegin(name))
    ensures OtherName(name)
  {
  }

  lemma TruthAfter(g: Group, r: nat, e: Event, h: Group)
    requires GroupNext(g, r, e, h) && RankGood(g, r)
    ensures AllTruthful(h.locals[r], h.ranks[r])
  {
    var l, m := g.locals[r], h.locals[r];
    LogsGrow(l, g.ranks[r].broken, e);
    TruthKept(l, m, g.ranks[r]);
    hide LocalOk, PhaseName, Truthful, Outgoing, Returns, OtherName, Apply;
    if e.Send? {
      SaysTruth(l);
      SentTruth(l, m, Outgoing(l));
    }
  }

  lemma SentTruth(l: Local, m: Local, e: Entry<Payload>)
    requires Truthful(l, e) && Grows(l, m)
    ensures Truthful(m, e)
  {
    hide PhaseName;
  }

  lemma OthersGood(g: Group, r: nat, e: Event, h: Group, q: nat)
    requires GroupNext(g, r, e, h) && q < |g.ranks| && q != r && RankGood(g, q)
    ensures RankGood(h, q) && h.locals[q] == g.locals[q]
  {
    hide LocalOk, Linked, AllTruthful, Apply, Enabled;
    assert h.ranks[q] == g.ranks[q];
  }

  /** The step's own rank stays good. */
  lemma SelfGood(g: Group, r: nat, e: Event, h: Group)
    requires GroupNext(g, r, e, h) && RankGood(g, r)
    ensures RankGood(h, r)
  {
    hide *;
    StepParts(g, r, e, h);
    if e.Return? {
      OwnContribution(g, r, e.members, h);
    }
    OwnIfReturn(g.locals[r], e);
    ApplyKeeps(g.locals[r], g.ranks[r].broken, e);
    LinkKept(g, r, e, h);
    TruthAfter(g, r, e, h);
    GoodAgain(h, r);
  }

  lemma StepParts(g: Group, r: nat, e: Event, h: Group)
    requires GroupNext(g, r, e, h) && RankGood(g, r)
    ensures r < |g.ranks| == |g.locals| == |h.ranks| == |h.locals|
    ensures Enabled(g.locals[r], g.ranks[r].broken, e) && TransportStep(g, r, e, h)
    ensures h.locals == g.locals[r := Apply(g.locals[r], g.ranks[r].broken, e)]
    ensures LocalOk(g.locals[r]) && Linked(g.locals[r], g.ranks[r]) && AllTruthful(g.locals[r], g.ranks[r])
  {
    hide Enabled, TransportStep, Apply, LocalOk, Linked, AllTruthful;
  }

  lemma OwnIfReturn(l: Local, e: Event)
    ensures !e.Return? ==> OwnReturn(l, e)
  {
  }

  lemma GoodAgain(h: Group, r: nat)
    requires r < |h.ranks| == |h.locals| && LocalOk(h.locals[r]) && Linked(h.locals[r], h.ranks[r])
    requires AllTruthful(h.locals[r], h.ranks[r])
    ensures RankGood(h, r)
  {
    hide LocalOk, Linked, AllTruthful;
  }

  // ---------------------------------------------------------------- group-wide facts

  /** A rank that returns unanimously knows what every rank reported at that point. */
  lemma ReportsAreTrue(g: Group, r: nat, members: seq<Payload>, h: Group, q: nat)
    requires |g.ranks| == |g.locals| == |h.ranks| && r < |g.ranks| && q < |g.ranks|
    requires RankGood(g, r) && RankGood(g, q) && g.locals[r].pc.Waiting?
    requires TransportStep(g, r, Return(members), h) && Unanimous(members)
    ensures |members| == |g.ranks| && members[q].id == g.locals[r].id && !members[q].error
    ensures Truthful(g.locals[q], Entry(PhaseName(g.locals[r].pc.phase), members[q]))
  {
    hide LocalOk, PhaseName, Truthful, Linked, Contribution, TransportStep, Returns;
    OwnContribution(g, r, members, h);
    var k := |g.ranks[r].results|;
    assert Truthful(g.locals[q], g.ranks[q].history[k]);
    SameIdentity(g.locals[r], members);
    PhaseOut(g.locals[r]);
  }

  lemma PhaseOut(l: Local)
    requires l.pc.Waiting?
    ensures Outgoing(l).phase == PhaseName(l.pc.phase)
  {
    hide PhaseName;
  }

  lemma SameIdentity(l: Local, members: seq<Payload>)
    requires l.pc.Waiting? && OwnReturn(l, Return(members)) && Unanimous(members)
    ensures forall q :: 0 <= q < |members| ==> members[q].id == l.id && !members[q].error
  {
    var i :| 0 <= i < |members| && members[i] == Contribution(l, l.pc.phase);
  }

  /** What the step adds to its rank's logs holds of the whole group. */
  lemma NewlySpread(g: Group, r: nat, e: Event, h: Group, id: Identity)
    requires GroupOk(g) && GroupNext(g, r, e, h)
    ensures id in h.locals[r].valid && id !in g.locals[r].valid ==> Everywhere(g.locals, id)
    ensures id in h.locals[r].launched && id !in g.locals[r].launched ==> CommittedEverywhere(g.locals, id)
  {
    var l, m := g.locals[r], h.locals[r];
    assert RankGood(g, r);
    NewLogs(l, g.ranks[r].broken, e, id);
    if (id in m.valid && id !in l.valid) || (id in m.launched && id !in l.launched) {
      forall q | 0 <= q < |g.locals|
        ensures id in m.valid && id !in l.valid ==>
            id in g.locals[q].completed && id in g.locals[q].recorded && id in g.locals[q].freed
        ensures id in m.launched && id !in l.launched ==> id in g.locals[q].committed
      {
        assert RankGood(g, q);
        hide *;
        StepParts(g, r, e, h);
        ReportsAreTrue(g, r, e.members, h, q);
        TruthSays(g.locals[q], l.pc.phase, e.members[q], id);
      }
    }
  }

  lemma TruthSays(l: Local, phase: nat, p: Payload, id: Identity)
    requires Truthful(l, Entry(PhaseName(phase), p)) && p.id == id && !p.error
    ensures phase == RELEASE ==> id in l.completed && id in l.recorded && id in l.freed
    ensures phase == STARTED ==> id in l.committed
  {
    hide PhaseName;
  }

  /** Validity and launching are recorded only by unanimous returns from the last phase and from the start
      acknowledgement. */
  lemma NewLogs(l: Local, broken: bool, e: Event, id: Identity)
    requires Enabled(l, broken, e) && LocalOk(l)
    ensures var m := Apply(l, broken, e);
            && (id in m.valid && id !in l.valid ==>
              e.Return? && l.pc == Waiting(RELEASE) && Unanimous(e.members) && id == l.id)
            && (id in m.launched && id !in l.launched ==>
              e.Return? && l.pc == Waiting(STARTED) && Unanimous(e.members) && id == l.id)
  {
    StepLogs(l, broken, e);
    hide Apply, Enabled, LocalOk, Unanimous, Grows;
  }

  lemma EverywhereKept(g: Group, h: Group, r: nat, id: Identity)
    requires |h.locals| == |g.locals| && r < |g.locals| && Grows(g.locals[r], h.locals[r])
    requires forall q :: 0 <= q < |g.locals| && q != r ==> h.locals[q] == g.locals[q]
    ensures Everywhere(g.locals, id) ==> Everywhere(h.locals, id)
    ensures CommittedEverywhere(g.locals, id) ==> CommittedEverywhere(h.locals, id)
  {
  }

  lemma SpreadKept(g: Group, r: nat, e: Event, h: Group)
    requires GroupOk(g) && GroupNext(g, r, e, h)
    ensures Spread(h)
  {
    hide *;
    GoodAt(g, r, e, h);
    StepParts(g, r, e, h);
    LogsGrow(g.locals[r], g.ranks[r].broken, e);
    forall q: nat, id | q < |h.locals| ensures SpreadAt(h, q, id) {
      EverywhereKept(g, h, r, id);
      NewlySpread(g, r, e, h, id);
      OldSpread(g, q, id);
      SpreadNext(g, r, h, q, id);
    }
    SpreadOf(h);
  }

  ghost predicate SpreadAt(g: Group, q: nat, id: Identity)
    requires q < |g.locals|
  {
    (id in g.locals[q].valid ==> Everywhere(g.locals, id))
      && (id in g.locals[q].launched ==> CommittedEverywhere(g.locals, id))
  }

  lemma GoodAt(g: Group, r: nat, e: Event, h: Group)
    requires GroupOk(g) && GroupNext(g, r, e, h)
    ensures r < |g.ranks| == |g.locals| == |h.ranks| == |h.locals| && RankGood(g, r)
  {
    hide RankGood, Spread, Enabled, TransportStep, Apply;
  }

  lemma OldSpread(g: Group, q: nat, id: Identity)
    requires GroupOk(g) && q < |g.locals|
    ensures SpreadAt(g, q, id)
  {
    hide RankGood, Everywhere, CommittedEverywhere;
  }

  lemma SpreadOf(g: Group)
    requires forall q: nat, id :: q < |g.locals| ==> SpreadAt(g, q, id)
    ensures Spread(g)
  {
    hide Everywhere, CommittedEverywhere;
    forall q, id | 0 <= q < |g.locals|
      ensures id in g.locals[q].valid ==> Everywhere(g.locals, id)
      ensures id in g.locals[q].launched ==> CommittedEverywhere(g.locals, id)
    {
      assert SpreadAt(g, q, id);
    }
  }

  /** What was recorded before spreads on; what r records now has just been seen to hold. */
  lemma SpreadNext(g: Group, r: nat, h: Group, q: nat, id: Identity)
    requires r < |g.locals| == |h.locals| && q < |h.locals| && SpreadAt(g, q, id)
    requires (q != r ==> h.locals[q] == g.locals[q])
    requires Everywhere(g.locals, id) ==> Everywhere(h.locals, id)
    requires CommittedEverywhere(g.locals, id) ==> CommittedEverywhere(h.locals, id)
    requires id in h.locals[r].valid && id !in g.locals[r].valid ==> Everywhere(g.locals, id)
    requires id in h.locals[r].launched && id !in g.locals[r].launched ==> CommittedEverywhere(g.locals, id)
    ensures SpreadAt(h, q, id)
  {
    hide Everywhere, CommittedEverywhere;
  }

  /** Every step of the group keeps its invariant. */
  lemma GroupKeeps(g: Group, r: nat, e: Event, h: Group)
    requires GroupOk(g) && GroupNext(g, r, e, h)
    ensures GroupOk(h)
  {
    SpreadKept(g, r, e, h);
    hide RankGood, Spread, Enabled, TransportStep, Apply;
    forall q | 0 <= q < |h.ranks| ensures RankGood(h, q) {
      assert RankGood(g, q);
      if q == r {
        SelfGood(g, r, e, h);
      } else {
        OthersGood(g, r, e, h, q);
      }
    }
  }

  lemma InitialOk(g: Group)
    requires InitialGroup(g)
    ensures GroupOk(g)
  {
    hide PhaseName;
  }

  // ---------------------------------------------------------------- over any correct transport

  /** Contexts over any transport that returns everyone's contributions keep the group's invariant throughout. */
  lemma {:induction false} GroupRunKeeps(groups: seq<Group>, events: seq<(nat, Event)>, i: nat)
    requires IsGroupRun(groups, events) && i < |groups|
    ensures GroupOk(groups[i])
    decreases i
  {
    hide GroupOk, GroupNext, InitialGroup;
    if i == 0 {
      InitialOk(groups[0]);
    } else {
      GroupRunKeeps(groups, events, i - 1);
      assert GroupNext(groups[i - 1], events[i - 1].0, events[i - 1].1, groups[i - 1 + 1]);
      GroupKeeps(groups[i - 1], events[i - 1].0, events[i - 1].1, groups[i]);
    }
  }

  /** Over any such transport, a valid output anywhere means completion, evidence and release everywhere. */
  lemma ValidTogether(groups: seq<Group>, events: seq<(nat, Event)>, i: nat, r: nat, id: Identity, q: nat)
    requires IsGroupRun(groups, events) && i < |groups|
    requires r < |groups[i].locals| && q < |groups[i].locals| && id in groups[i].locals[r].valid
    ensures id in groups[i].locals[q].completed && id in groups[i].locals[q].recorded && id in groups[i].locals[q].freed
  {
    GroupRunKeeps(groups, events, i);
    hide IsGroupRun, RankGood;
    assert Everywhere(groups[i].locals, id);
  }
}
