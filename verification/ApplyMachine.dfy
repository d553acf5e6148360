/** Applying one connector operation: durable writes, Host frames and crashes in between.
 *
 * A process applying an operation follows the code's order: it claims the connector, proves the artifacts, takes the
 * execution lease, reads or creates the execution record, and then works through a list of tasks.  Each step makes at
 * most one durable write or exchanges one frame; a process may die between any two steps, or right after it sent a
 * frame.  The store's calls appear as the single writes that StepProofs shows them to make.
 */
module ApplyMachine {
  import opened Domain
  import opened Records
  import opened StateActions
  import opened Calls
  import opened Execution
  import StateInvariants
  import StepMachine

  datatype Frame =
    | SnapshotFrame(tenant: Token, hostId: Token)
    | PrepareFrame(header: Header)
    | StartFrame(request: StartRequest)
    | ObserveFrame(tenant: Token, hostId: Token, connector: Token)
    | FinalizeFrame(header: Header)

  datatype Reply =
    | SnapshotReply(tenant: Token, hostId: Token, revision: Revision)
    | MaterialRequired
    | MaterialReply(result: MaterialResult)
    | StartReply(started: StartResult)
    | ObservationReply(observed: Revision, connector: ConnectorProjection, actual: Observation)
    | Rejected

  /** A frame, the operation it was sent for, and the reply, unless the process died before it read one. */
  datatype Sent = Sent(op: Token, frame: Frame, reply: Option<Reply>)

  /** What remains to be done once the execution record is known. */
  datatype Task =
    | ObserveHandoff
    | ReleaseClaim
    | GiveUpClaim
    | GiveUpOperation
    | Reissue
    | AdvanceTo(target: OperationPhase)
    | Persist(next: ExecutionRecord)
    | AskPrepare(material: bool)
    | AskStart
    | AskObservation
    | AskFinalize(material: bool)
    | Continue

  /** What a process remembers: its inputs, its copy of the operation, whether the plan had expired when it began, and
   *  the phase in which it found the connector claim. */
  datatype Context = Context(inputs: Inputs, operation: OperationRecord, expired: bool, claimPhase: ClaimPhase)

  datatype ApplyPc =
    | Returned(outcome: Result<()>)
    | Entering(inputs: Inputs, expired: bool)
    | Preparing(inputs: Inputs, expired: bool, operation: OperationRecord)
    | Publishing(inputs: Inputs, expired: bool, operation: OperationRecord, claim: ClaimIdentity)
    | Converging(inputs: Inputs, expired: bool, operation: OperationRecord, claim: ClaimIdentity)
    | Proving(ctx: Context)
    | Leasing(ctx: Context)
    | Reading(ctx: Context)
    | Snapshotting(ctx: Context)
    | Creating(ctx: Context, initial: Revision)
    | Working(ctx: Context, rec: ExecutionRecord, tasks: seq<Task>)

  datatype Durable = Durable(store: Store, history: History, execs: map<Token, ExecutionRecord>, sent: seq<Sent>)

  /** What the world decides in a step: the Host's reply, fresh identifiers, the files as they are read again, and
   *  whether the observation deadline has passed. */
  datatype Choice = Choice(reply: Reply, ids: HostIds, files: Files, deadline: bool)

  datatype Act = Skip | Do(write: Write) | PutExecution(record: ExecutionRecord) | Send(message: Sent)

  function Perform(d: Durable, act: Act): Durable
    requires act.Do? ==> Enabled(d.store, act.write)
  {
    match act
    case Skip => d
    case Do(w) => d.(store := After(d.store, w), history := HistoryAfter(d.store, d.history, w))
    case PutExecution(r) => d.(execs := d.execs[r.core.op := r])
    case Send(m) => d.(sent := d.sent + [m])
  }

  // ----- the operation's phases -----

  function PhaseRank(phase: OperationPhase): Option<nat> {
    match phase
    case Planned => Some(0)
    case Claimed => Some(1)
    case HostBound => Some(2)
    case ArtifactsVerified => Some(3)
    case MaterialPrepared => Some(4)
    case ConfigsWritten => Some(5)
    case ServicesConverged => Some(6)
    case ReadinessVerified => Some(7)
    case Completed => Some(8)
    case _ => None
  }

  /** The next phase of a connector host that `advance_to` asks for. */
  function PhaseAfter(phase: OperationPhase): Option<OperationPhase> {
    match phase
    case Planned => Some(Claimed)
    case Claimed => Some(HostBound)
    case HostBound => Some(ArtifactsVerified)
    case ArtifactsVerified => Some(MaterialPrepared)
    case MaterialPrepared => Some(ConfigsWritten)
    case ConfigsWritten => Some(ServicesConverged)
    case ServicesConverged => Some(ReadinessVerified)
    case ReadinessVerified => Some(Completed)
    case _ => None
  }

  predicate Reached(phase: OperationPhase, target: OperationPhase) {
    PhaseRank(phase).Some? && PhaseRank(target).Some? && PhaseRank(phase).value >= PhaseRank(target).value
  }

  datatype Advanced = Arrived | Onward(write: Write, operation: OperationRecord) | Stuck

  /** One round of `advance_to`. */
  ghost function AdvanceRound(s: Store, operation: OperationRecord, target: OperationPhase): (a: Advanced)
    ensures a.Onward? ==> Enabled(s, a.write) && a.write.UpdateRecord? && a.write.op in After(s, a.write).records
  {
    if Reached(operation.phase, target) then Arrived
    else if PhaseAfter(operation.phase).None? then Stuck
    else
      var w := UpdateRecord(operation.core.op, Change.Advance(PhaseAfter(operation.phase).value));
      if !Enabled(s, w) then Stuck else Onward(w, After(s, w).records[w.op])
  }

  // ----- tasks -----

  /** `converge_deployment_projection`: what the claim and the operation may be behind the execution. */
  function Projection(r: ExecutionRecord): seq<Task> {
    (if ExecutionRank(r.phase) >= 1 then [ObserveHandoff, AdvanceTo(ConfigsWritten)] else [])
    + (if ExecutionRank(r.phase) >= 2 then [AdvanceTo(ServicesConverged)] else [])
    + (if ExecutionRank(r.phase) >= 3 && r.core.bundle.None? then [AdvanceTo(ReadinessVerified)] else [])
    + (if r.phase.ExecFinalized? then [ReleaseClaim, AdvanceTo(Completed)] else [])
  }

  /** The conflict guard over the claim phase found and the execution record read. */
  predicate PhasesConflict(claimPhase: ClaimPhase, phase: ExecutionPhase) {
    || (claimPhase == Released && phase != ExecFinalized)
    || (claimPhase == HandoffObserved && phase == ExecClaimed)
  }

  function Loaded(ctx: Context, r: ExecutionRecord): ApplyPc {
    if r.phase.ExecExpired? then
      Working(ctx, r, (if ctx.claimPhase != ClaimExpired then [GiveUpClaim] else []) + [GiveUpOperation, Reissue])
    else if PhasesConflict(ctx.claimPhase, r.phase) then Returned(Err(Conflict))
    else Working(ctx, r, Projection(r) + [Continue])
  }

  /** What the next block of the code does, by the phase the execution is in. */
  function Continued(ctx: Context, r: ExecutionRecord): ApplyPc {
    match r.phase
    case ExecClaimed => Working(ctx, r, [AskPrepare(false)])
    case ExecPrepared => Working(ctx, r, [AskStart])
    case ExecStarted => Working(ctx, r, [AskObservation])
    case ExecRunning =>
      if r.core.bundle.Some? || r.runningRevision.None? then Returned(Err(Contract))
      else
        var header := HeaderFor(r.core, r.prepareResult, FinalizeMaterial, r.runningRevision.value, NoPayload);
        if header.Err? then Returned(Err(header.error))
        else if r.finalizeHeader.Some? then
          if r.finalizeHeader != Some(header.value) then Returned(Err(Conflict))
          else Working(ctx, r, [AskFinalize(false)])
        else Working(ctx, r, [Persist(r.(finalizeHeader := Some(header.value))), AskFinalize(false)])
    case ExecFinalized | ExecExpired => Returned(Ok(()))
  }

  function PrepareDone(ctx: Context, r: ExecutionRecord, result: MaterialResult): ApplyPc {
    if ExpiredPrepare(result) then Working(ctx, r, [Persist(r.(phase := ExecExpired)), GiveUpClaim, GiveUpOperation, Reissue])
    else Working(ctx, r, [Persist(r.(prepareResult := Some(result), phase := ExecPrepared)),
                          ObserveHandoff, AdvanceTo(ConfigsWritten), Continue])
  }

  function StartDone(ctx: Context, r: ExecutionRecord, revision: Revision): ApplyPc {
    Working(ctx, r, [Persist(r.(startRevision := Some(revision), phase := ExecStarted)), AdvanceTo(ServicesConverged), Continue])
  }

  function ObserveDone(ctx: Context, r: ExecutionRecord, revision: Revision): ApplyPc {
    Working(ctx, r, [Persist(r.(runningRevision := Some(revision), phase := ExecRunning))]
                    + (if r.core.bundle.None? then [AdvanceTo(ReadinessVerified)] else []) + [Continue])
  }

  function FinalizeDone(ctx: Context, r: ExecutionRecord, result: MaterialResult): ApplyPc {
    Working(ctx, r, [Persist(r.(finalizeResult := Some(result), phase := ExecFinalized)), ReleaseClaim, AdvanceTo(Completed), Continue])
  }

  // ----- frames -----

  datatype Kind = ToPrepare | ToStart | ToFinalize

  /** The effect a frame asks of the Host, and the identifier it asks it under. */
  function EffectOf(frame: Frame): Option<(Kind, Token)> {
    match frame
    case PrepareFrame(h) => Some((ToPrepare, h.hostOperation))
    case StartFrame(request) => Some((ToStart, request.hostOperation))
    case FinalizeFrame(h) => Some((ToFinalize, h.hostOperation))
    case _ => None
  }

  /** The frame a task sends, or why it sends none. */
  function TaskFrame(r: ExecutionRecord, task: Task): Result<Frame> {
    match task
    case AskPrepare(material) =>
      var header := HeaderFor(r.core, r.prepareResult, PrepareMaterial, r.core.initial, NoPayload);
      if header != Ok(r.prepareHeader) then Err(Conflict)
      else Ok(PrepareFrame(r.prepareHeader.(payload := if material then r.core.material else NoPayload)))
    case AskStart =>
      if r.prepareResult.None? then Err(Contract) else Ok(StartFrame(StartFor(r.core, r.prepareResult.value.revision)))
    case AskObservation => Ok(ObserveFrame(r.core.tenant, r.core.hostId, r.core.connector))
    case AskFinalize(material) =>
      if r.runningRevision.None? then Err(Contract)
      else
        var header := HeaderFor(r.core, r.prepareResult, FinalizeMaterial, r.runningRevision.value, NoPayload);
        if header.Err? || r.finalizeHeader != Some(header.value) then Err(Conflict)
        else Ok(FinalizeFrame(header.value.(payload := if material then FinalizeMaterialOf(r.core.files, r.core.plan) else NoPayload)))
    case _ => Err(Contract)
  }

  predicate Asks(task: Task) {
    task.AskPrepare? || task.AskStart? || task.AskObservation? || task.AskFinalize?
  }

  /** The material frame is built from files read again; they must still be the ones of the record. */
  predicate MaterialReadable(ctx: Context, r: ExecutionRecord, files: Files) {
    FilesMatchPlan(files, ctx.inputs.plan) && FilesMatchRecord(files, ctx.inputs.plan, r.core)
  }

  /** Where a process goes with the reply to the frame of a task. */
  function Answered(ctx: Context, r: ExecutionRecord, task: Task, choice: Choice): ApplyPc {
    match task
    case AskPrepare(false) =>
      if choice.reply.MaterialRequired? then
        if MaterialReadable(ctx, r, choice.files) then Working(ctx, r, [AskPrepare(true)]) else Returned(Err(Conflict))
      else if ctx.expired || !choice.reply.MaterialReply? then Returned(Err(Contract))
      else PrepareAnswered(ctx, r, choice.reply.result)
    case AskPrepare(true) =>
      if !choice.reply.MaterialReply? then Returned(Err(Contract)) else PrepareAnswered(ctx, r, choice.reply.result)
    case AskStart =>
      if !choice.reply.StartReply? || r.prepareResult.None? then Returned(Err(Contract))
      else
        var revision := ValidatedStart(choice.reply.started, r.core, r.prepareResult.value.revision);
        if revision.Err? then Returned(Err(Contract)) else StartDone(ctx, r, revision.value)
    case AskObservation =>
      if
        || !choice.reply.ObservationReply? || !ProjectionMatches(choice.reply.connector, r.core)
        || r.startRevision != Some(choice.reply.observed)
      then Returned(Err(Contract))
      else if choice.reply.actual.ObservedRunning? && choice.reply.connector.recorded.ObservedRunning? then
        ObserveDone(ctx, r, choice.reply.observed)
      else if choice.deadline then Returned(Err(Contract))
      else Working(ctx, r, [AskObservation])
    case AskFinalize(false) =>
      if choice.reply.MaterialRequired? then
        if MaterialReadable(ctx, r, choice.files) then Working(ctx, r, [AskFinalize(true)]) else Returned(Err(Conflict))
      else FinalizeAnswered(ctx, r, choice.reply)
    case AskFinalize(true) => FinalizeAnswered(ctx, r, choice.reply)
    case _ => Returned(Err(Contract))
  }

  function PrepareAnswered(ctx: Context, r: ExecutionRecord, result: MaterialResult): ApplyPc {
    var validated := ValidatedResult(result, r.core, None, PrepareMaterial, r.core.initial);
    if validated.Err? || (ctx.expired && !ExpiredPrepare(result)) then Returned(Err(Contract))
    else PrepareDone(ctx, r, result)
  }

  function FinalizeAnswered(ctx: Context, r: ExecutionRecord, reply: Reply): ApplyPc {
    if !reply.MaterialReply? || r.runningRevision.None? then Returned(Err(Contract))
    else
      var validated := ValidatedResult(reply.result, r.core, r.prepareResult, FinalizeMaterial, r.runningRevision.value);
      if validated.Err? then Returned(Err(Contract)) else FinalizeDone(ctx, r, reply.result)
  }

  // ----- one step -----

  /** The claim change of a task: made now, made before, or refused. */
  ghost function ClaimTask(s: Store, ctx: Context, r: ExecutionRecord, tasks: seq<Task>,
                           change: ClaimChange): (ApplyPc, Act)
    requires tasks != []
  {
    var w := UpdateClaim(r.core.connector, change);
    if ChangeRecorded(s, r.core.connector, change) then (Working(ctx, r, tasks[1..]), Skip)
    else if Enabled(s, w) then (Working(ctx, r, tasks[1..]), Do(w))
    else (Returned(Err(Conflict)), Skip)
  }

  ghost function WorkStep(ctx: Context, r: ExecutionRecord, tasks: seq<Task>, d: Durable, choice: Choice): (ApplyPc, Act)
    requires tasks != []
  {
    match tasks[0]
    case ObserveHandoff => ClaimTask(d.store, ctx, r, tasks, Observe)
    case ReleaseClaim => ClaimTask(d.store, ctx, r, tasks, Release)
    case GiveUpClaim => ClaimTask(d.store, ctx, r, tasks, ExpireClaim)
    case GiveUpOperation =>
      var w := UpdateRecord(r.core.op, Expire(r.core.connector));
      if ExpiryRecorded(d.store, r.core.op, Expire(r.core.connector)) then (Working(ctx, r, tasks[1..]), Skip)
      else if Enabled(d.store, w) then (Working(ctx, r, tasks[1..]), Do(w))
      else (Returned(Err(Conflict)), Skip)
    case Reissue => (Returned(Err(Contract)), Skip)
    case AdvanceTo(target) =>
      (match AdvanceRound(d.store, ctx.operation, target)
       case Arrived => (Working(ctx, r, tasks[1..]), Skip)
       case Onward(w, operation) => (Working(ctx.(operation := operation), r, tasks), Do(w))
       case Stuck => (Returned(Err(Contract)), Skip))
    case Persist(next) => (Working(ctx, next, tasks[1..]), PutExecution(next))
    case Continue => (Continued(ctx, r), Skip)
    case ask =>
      var frame := TaskFrame(r, ask);
      if frame.Err? then (Returned(Err(frame.error)), Skip)
      else (Answered(ctx, r, ask, choice), Send(Sent(r.core.op, frame.value, Some(choice.reply))))
  }

  /** The identifiers are distinct and no execution uses any of them. */
  ghost predicate FreshIds(ids: HostIds, execs: map<Token, ExecutionRecord>) {
    && DistinctIds(ids)
    && forall op :: op in execs ==> IdsApart(ids, execs[op].core.ids)
  }

  predicate IdsApart(a: HostIds, b: HostIds) {
    && a.prepare !in {b.prepare, b.start, b.finalize}
    && a.start !in {b.prepare, b.start, b.finalize}
    && a.finalize !in {b.prepare, b.start, b.finalize}
  }

  ghost function ConnectorStep(pc: ApplyPc, d: Durable): (ApplyPc, Act)
    requires pc.Publishing? || pc.Converging?
  {
    match pc
    case Publishing(inputs, expired, operation, claim) =>
      if !ConnectorAllowed(d.store, claim, inputs.plan.host) then (Returned(Err(Conflict)), Skip)
      else
        var w := PublishConnectorOwner(claim);
        (Converging(inputs, expired, operation, claim), if Enabled(d.store, w) then Do(w) else Skip)
    case Converging(inputs, expired, operation, claim) =>
      var ctx := Context(inputs, operation, expired, HeldClaim(d.store, claim).phase);
      if ForeignClaim(d.store, claim) then (Returned(Err(Conflict)), Skip)
      else if ClaimKey(claim.instance, claim.op) in d.store.claims then (Proving(ctx), Skip)
      else if Enabled(d.store, CreateClaim(claim)) then (Proving(ctx), Do(CreateClaim(claim)))
      else (Returned(Err(Conflict)), Skip)
  }

  /** `lock_connector_execution`: the connector's pointer and this operation's claim agree. */
  predicate LeaseGranted(s: Store, op: Token, instance: Token) {
    && op in s.records && instance in s.connOwners && ClaimKey(instance, op) in s.claims
    && s.connOwners[instance].current == op
    && s.connOwners[instance].identity == s.claims[ClaimKey(instance, op)].core
    && s.claims[ClaimKey(instance, op)].core.op == s.records[op].core.op
  }

  ghost function ApplyStep(pc: ApplyPc, d: Durable, free: bool, choice: Choice): (ApplyPc, Act)
  {
    match pc
    case Returned(_) => (pc, Skip)
    case Entering(inputs, expired) =>
      if inputs.op !in d.store.records then (Returned(Err(Missing)), Skip)
      else if !OperationMatches(d.store.records[inputs.op].core, inputs) then (Returned(Err(Contract)), Skip)
      else if ClaimKey(inputs.plan.instance, inputs.op) !in d.store.claims && !FilesMatchPlan(inputs.files, inputs.plan) then
        (Returned(Err(Contract)), Skip)
      else (Preparing(inputs, expired, d.store.records[inputs.op]), Skip)
    case Preparing(inputs, expired, operation) =>
      var predecessor := ConnectorPredecessor(d.store.records, operation.core, inputs.plan.instance);
      if predecessor.Err? then (Returned(Err(predecessor.error)), Skip)
      else
        var claim := PreparedClaim(operation.core, inputs.plan.instance, predecessor.value);
        if claim.Err? then (Returned(Err(claim.error)), Skip)
        else (Publishing(inputs, expired, operation, claim.value), Skip)
    case Publishing(_, _, _, _) => ConnectorStep(pc, d)
    case Converging(_, _, _, _) => ConnectorStep(pc, d)
    case Proving(ctx) =>
      (match AdvanceRound(d.store, ctx.operation, ArtifactsVerified)
       case Arrived => (Leasing(ctx), Skip)
       case Onward(w, operation) => (Proving(ctx.(operation := operation)), Do(w))
       case Stuck => (Returned(Err(Contract)), Skip))
    case Leasing(ctx) =>
      if !free then (Returned(Err(Locked)), Skip)
      else if !LeaseGranted(d.store, ctx.inputs.op, ctx.inputs.plan.instance) then (Returned(Err(Conflict)), Skip)
      else (Reading(ctx), Skip)
    case Reading(ctx) =>
      if ctx.inputs.op in d.execs then
        if !IdentityMatches(d.execs[ctx.inputs.op].core, ctx.inputs) then (Returned(Err(Conflict)), Skip)
        else (Loaded(ctx, d.execs[ctx.inputs.op]), Skip)
      else if ctx.claimPhase != Prepared then (Returned(Err(Conflict)), Skip)
      else if !FilesMatchPlan(ctx.inputs.files, ctx.inputs.plan) then (Returned(Err(Contract)), Skip)
      else (Snapshotting(ctx), Skip)
    case Snapshotting(ctx) =>
      var host := ctx.inputs.plan.host;
      var send := Send(Sent(ctx.inputs.op, SnapshotFrame(host.tenant, host.hostId), Some(choice.reply)));
      if
        && choice.reply.SnapshotReply?
        && choice.reply.tenant == ctx.inputs.plan.host.tenant && choice.reply.hostId == ctx.inputs.plan.host.hostId
        && ValidRevision(choice.reply.revision)
      then (Creating(ctx, choice.reply.revision), send)
      else (Returned(Err(Contract)), send)
    case Creating(ctx, initial) =>
      var r := NewRecord(ctx.inputs, initial, choice.ids);
      (Loaded(ctx, r), PutExecution(r))
    case Working(ctx, r, tasks) => if tasks == [] then (Returned(Ok(())), Skip) else WorkStep(ctx, r, tasks, d, choice)
  }

  // ----- the system -----

  datatype ApplyWorld = ApplyWorld(files: Durable, apps: map<nat, ApplyPc>)

  /** The operation whose execution lease a process holds. */
  function LeaseOf(pc: ApplyPc): Option<Token> {
    match pc
    case Reading(ctx) => Some(ctx.inputs.op)
    case Snapshotting(ctx) => Some(ctx.inputs.op)
    case Creating(ctx, _) => Some(ctx.inputs.op)
    case Working(ctx, _, _) => Some(ctx.inputs.op)
    case _ => None
  }

  ghost predicate LeaseFree(w: ApplyWorld, op: Token) {
    forall p :: p in w.apps ==> LeaseOf(w.apps[p]) != Some(op)
  }

  ghost predicate Acts(w: ApplyWorld, w': ApplyWorld, p: nat, choice: Choice) {
    && p in w.apps
    && (w.apps[p].Creating? ==> FreshIds(choice.ids, w.files.execs))
    && var free := w.apps[p].Leasing? && LeaseFree(w, w.apps[p].ctx.inputs.op);
    && var (pc, act) := ApplyStep(w.apps[p], w.files, free, choice);
    && (act.Do? ==> Enabled(w.files.store, act.write))
    && w' == ApplyWorld(Perform(w.files, act), w.apps[p := pc])
  }

  /** The process sent a frame and died before it read the reply. */
  ghost predicate LosesReply(w: ApplyWorld, w': ApplyWorld, p: nat) {
    && p in w.apps && w.apps[p].Working? && w.apps[p].tasks != [] && Asks(w.apps[p].tasks[0])
    && var frame := TaskFrame(w.apps[p].rec, w.apps[p].tasks[0]);
    && frame.Ok?
    && w' == ApplyWorld(Perform(w.files, Send(Sent(w.apps[p].rec.core.op, frame.value, None))), w.apps - {p})
  }

  /** A write by a process that is not applying: claims, failures, resumptions and rollbacks of any operation, and
   *  whatever drives node workloads.  Only `apply` advances or expires connector hosts and moves their claims on. */
  predicate Foreign(s: Store, w: Write) {
    match w
    case UpdateRecord(op, change) =>
      change.Fail? || change.Resume? || change.FenceRollback? || change.FinishRollback?
      || (op in s.records && s.records[op].core.binding.workload.NodeWorkload?)
    case UpdateClaim(_, _) => false
    case _ => true
  }

  ghost predicate Meddles(w: ApplyWorld, w': ApplyWorld, write: Write) {
    && Enabled(w.files.store, write) && Foreign(w.files.store, write)
    && w' == w.(files := Perform(w.files, Do(write)))
  }

  ghost predicate Begins(w: ApplyWorld, w': ApplyWorld, p: nat, inputs: Inputs, expired: bool) {
    && (p !in w.apps || w.apps[p].Returned?)
    && w' == w.(apps := w.apps[p := Entering(inputs, expired)])
  }

  ghost predicate Dies(w: ApplyWorld, w': ApplyWorld, p: nat) {
    w' == w.(apps := w.apps - {p})
  }

  ghost predicate ApplyNext(w: ApplyWorld, w': ApplyWorld) {
    || (exists p, choice :: Acts(w, w', p, choice))
    || (exists p :: LosesReply(w, w', p))
    || (exists write :: Meddles(w, w', write))
    || (exists p, inputs, expired :: Begins(w, w', p, inputs, expired))
    || (exists p :: Dies(w, w', p))
  }

  /** No execution yet; the store is empty or holds legacy pointers of which none dangles. */
  ghost predicate ApplyInit(w: ApplyWorld) {
    && w.apps == map[]
    && w.files.execs == map[] && w.files.sent == []
    && StepMachine.Legacy(w.files.store)
    && w.files.history.connectors == map[]
    && w.files.history.targets == StepMachine.NamedOnce(w.files.store.owners)
    && (forall f :: !StateInvariants.Dangles(w.files.store, f))
  }

  ghost predicate ApplyRun(run: seq<ApplyWorld>) {
    && |run| > 0 && ApplyInit(run[0])
    && forall a, b :: 0 <= a && b == a + 1 < |run| ==> ApplyNext(run[a], run[b])
  }
}
