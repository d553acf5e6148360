/** The execution record of one connector operation and the frames it exchanges with the Host.
 *
 * Files are stood for by their digests, so a digest of several files is the tuple of theirs, and the digest of a
 * plan is the plan.
 */
module Execution {
  import opened Domain
  import opened StateActions

  /** Revisions above this are not exact in a JSON number. */
  const MAX_REVISION := 9_007_199_254_740_991

  datatype Revision = Revision(desired: nat, observed: Option<nat>)

  datatype Plan = Plan(
    lifecycleOperation: Token,
    platform: Token,
    artifactDigest: Token,
    host: Host,
    instance: Token,
    adapter: AdapterKind,
    handoff: Token,
    expiry: nat,
    enrollmentCa: Token,
    controlCa: Token,
    issuerCa: Token,
    bundle: Option<Token>)

  /** The protected files a call is given; any of them may differ from what the plan names. */
  datatype Files = Files(config: Token, enrollmentCa: Token, controlCa: Token, issuerCa: Token, handoff: Token)

  datatype Inputs = Inputs(op: Token, target: Token, manifest: Token, artifact: Artifact, plan: Plan, files: Files)

  /** What a frame carries behind its header: nothing, or six length-prefixed files of which four may be empty. */
  datatype Payload =
    | NoPayload
    | Material(config: Option<Token>, enrollmentCa: Option<Token>, controlCa: Option<Token>, issuerCa: Option<Token>,
               plan: Plan, handoff: Token)

  datatype HostIds = HostIds(prepare: Token, start: Token, finalize: Token)

  /** The part of an execution record that is fixed when it is created. */
  datatype ExecutionCore = ExecutionCore(
    op: Token,
    lifecycleOperation: Token,
    target: Token,
    tenant: Token,
    hostId: Token,
    connector: Token,
    adapter: AdapterKind,
    release: Token,
    expiry: nat,
    manifest: Token,
    plan: Plan,
    files: Files,
    material: Payload,
    bundle: Option<Token>,
    initial: Revision,
    ids: HostIds)

  datatype ExecutionPhase = ExecClaimed | ExecExpired | ExecPrepared | ExecStarted | ExecRunning | ExecFinalized

  datatype MaterialOperation = PrepareMaterial | FinalizeMaterial

  datatype LifecycleState = StatePrepared | StateFinalized | StateExpired

  datatype Application = Applied | Replayed | Reconciled

  datatype Disposition = DispositionApplied | DispositionExpired | PolicyBlocked

  /** A receipt as it arrives: a digest, or something that is not one. */
  datatype Receipt = Receipt(digest: Token) | Malformed

  datatype MaterialResult = MaterialResult(
    operation: MaterialOperation,
    application: Application,
    disposition: Disposition,
    revision: Revision,
    connector: Token,
    state: LifecycleState,
    prepared: Option<Receipt>,
    finalized: Option<Receipt>)

  /** The second-protocol header, without the constants that name the protocol. */
  datatype Header = Header(
    tenant: Token,
    hostId: Token,
    hostOperation: Token,
    expected: Revision,
    connector: Token,
    adapter: AdapterKind,
    release: Token,
    lifecycleOperation: Token,
    platform: Token,
    expiry: nat,
    plan: Plan,
    files: Files,
    material: Payload,
    bundle: Option<Token>,
    payload: Payload,
    preparedReceipt: Option<Receipt>,
    operation: MaterialOperation)

  datatype StartRequest = StartRequest(tenant: Token, hostId: Token, hostOperation: Token, expected: Revision, connector: Token)

  datatype DesiredState = EnsuredStopped | DesiredRunning | DesiredStopped

  datatype Observation = Unknown | Stopped | Starting | ObservedRunning | Failed

  datatype ConnectorProjection = ConnectorProjection(
    connector: Token, adapter: AdapterKind, release: Token, desired: DesiredState, recorded: Observation, generation: nat)

  datatype StartResult = StartResult(
    application: Application, disposition: Disposition, revision: Revision, connector: ConnectorProjection)

  datatype ExecutionRecord = ExecutionRecord(
    core: ExecutionCore,
    prepareHeader: Header,
    finalizeHeader: Option<Header>,
    phase: ExecutionPhase,
    prepareResult: Option<MaterialResult>,
    startRevision: Option<Revision>,
    runningRevision: Option<Revision>,
    finalizeResult: Option<MaterialResult>)

  // ----- revisions -----

  predicate ValidRevision(r: Revision) {
    && 0 < r.desired <= MAX_REVISION
    && (r.observed.Some? ==> 0 < r.observed.value <= r.desired)
  }

  /** `require_next_revision`. */
  predicate NextRevision(prior: Revision, next: Revision) {
    ValidRevision(prior) && ValidRevision(next) && next.desired == prior.desired + 1 && next.observed == Some(next.desired)
  }

  // ----- requests -----

  function ExecutionRank(phase: ExecutionPhase): nat {
    match phase
    case ExecClaimed | ExecExpired => 0
    case ExecPrepared => 1
    case ExecStarted => 2
    case ExecRunning => 3
    case ExecFinalized => 4
  }

  function PrepareMaterialOf(files: Files, plan: Plan): Payload {
    Material(Some(files.config), Some(files.enrollmentCa), Some(files.controlCa), Some(files.issuerCa), plan, files.handoff)
  }

  function FinalizeMaterialOf(files: Files, plan: Plan): Payload {
    Material(None, None, None, None, plan, files.handoff)
  }

  /** `v2_header`; finalizing needs the receipt of the persisted prepare result. */
  function HeaderFor(core: ExecutionCore, prepared: Option<MaterialResult>, operation: MaterialOperation,
                     expected: Revision, payload: Payload): Result<Header> {
    var receipt := if operation.PrepareMaterial? || prepared.None? then None else prepared.value.prepared;
    if operation.FinalizeMaterial? && receipt.None? then Err(Contract)
    else Ok(Header(core.tenant, core.hostId, if operation.PrepareMaterial? then core.ids.prepare else core.ids.finalize,
                   expected, core.connector, core.adapter, core.release, core.lifecycleOperation, core.plan.platform,
                   core.expiry, core.plan, core.files, core.material, core.bundle, payload, receipt, operation))
  }

  function StartFor(core: ExecutionCore, expected: Revision): StartRequest {
    StartRequest(core.tenant, core.hostId, core.ids.start, expected, core.connector)
  }

  // ----- responses -----

  predicate ExpiredPrepare(result: MaterialResult) {
    result.operation.PrepareMaterial? && result.disposition.DispositionExpired? && result.state.StateExpired?
  }

  predicate AppliedOrReplayed(application: Application) {
    application.Applied? || application.Replayed?
  }

  /** The no-effect reply: the revision is unchanged and there is no receipt. */
  predicate NoEffectReply(result: MaterialResult, core: ExecutionCore, operation: MaterialOperation, prior: Revision) {
    && operation.PrepareMaterial? && result.operation == operation
    && result.connector == core.connector
    && result.state.StateExpired?
    && AppliedOrReplayed(result.application)
    && result.disposition.DispositionExpired?
    && result.revision == prior
    && result.prepared.None? && result.finalized.None?
  }

  /** `validate_v2_result`. */
  function ValidatedResult(result: MaterialResult, core: ExecutionCore, prepared: Option<MaterialResult>,
                           operation: MaterialOperation, prior: Revision): Result<MaterialResult> {
    if NoEffectReply(result, core, operation, prior) then Ok(result)
    else if
      || result.operation != operation || result.connector != core.connector
      || result.state != (if operation.PrepareMaterial? then StatePrepared else StateFinalized)
      || !AppliedOrReplayed(result.application) || !result.disposition.DispositionApplied?
    then Err(Contract)
    else if !NextRevision(prior, result.revision) then Err(Contract)
    else if result.prepared.None? || result.prepared.value.Malformed? then Err(Contract)
    else match operation
      case PrepareMaterial => if result.finalized.Some? then Err(Contract) else Ok(result)
      case FinalizeMaterial =>
        if prepared.None? || prepared.value.prepared.None? then Err(Contract)
        else if result.prepared != prepared.value.prepared || result.finalized.None? || result.finalized.value.Malformed?
        then Err(Contract)
        else Ok(result)
  }

  predicate ProjectionMatches(projection: ConnectorProjection, core: ExecutionCore) {
    && projection.connector == core.connector && projection.adapter == core.adapter
    && projection.release == core.release && projection.desired.DesiredRunning?
  }

  /** `validate_start`. */
  function ValidatedStart(result: StartResult, core: ExecutionCore, prior: Revision): Result<Revision> {
    if !result.disposition.DispositionApplied? || !ProjectionMatches(result.connector, core) || result.connector.generation == 0
    then Err(Contract)
    else if !NextRevision(prior, result.revision) then Err(Contract)
    else Ok(result.revision)
  }

  // ----- the record -----

  /** `load_material_files`: the protected files are the ones the plan names. */
  predicate FilesMatchPlan(files: Files, plan: Plan) {
    && files.enrollmentCa == plan.enrollmentCa && files.controlCa == plan.controlCa && files.issuerCa == plan.issuerCa
    && files.handoff == plan.handoff
  }

  /** `validate_material_identity`: the files are still the ones the execution was created with. */
  predicate FilesMatchRecord(files: Files, plan: Plan, core: ExecutionCore) {
    files == core.files && plan == core.plan && PrepareMaterialOf(files, plan) == core.material
  }

  function NewCore(inputs: Inputs, initial: Revision, ids: HostIds): ExecutionCore {
    var plan := inputs.plan;
    ExecutionCore(inputs.op, plan.lifecycleOperation, inputs.target, plan.host.tenant, plan.host.hostId, plan.instance,
                  plan.adapter, plan.artifactDigest, plan.expiry, inputs.manifest, plan, inputs.files,
                  PrepareMaterialOf(inputs.files, plan), plan.bundle, initial, ids)
  }

  /** `new_record`, with the replay header that is sealed into it before it is first written. */
  function NewRecord(inputs: Inputs, initial: Revision, ids: HostIds): ExecutionRecord {
    var core := NewCore(inputs, initial, ids);
    ExecutionRecord(core, HeaderFor(core, None, PrepareMaterial, initial, NoPayload).value, None, ExecClaimed, None, None, None, None)
  }

  predicate DistinctIds(ids: HostIds) {
    ids.prepare != ids.start && ids.prepare != ids.finalize && ids.start != ids.finalize
  }

  /** `validate_record_identity`. */
  predicate IdentityMatches(core: ExecutionCore, inputs: Inputs) {
    && core.op == inputs.op
    && core.target == inputs.target
    && core.lifecycleOperation == inputs.plan.lifecycleOperation
    && core.manifest == inputs.manifest
    && core.plan == inputs.plan
    && core.tenant == inputs.plan.host.tenant
    && core.hostId == inputs.plan.host.hostId
    && core.connector == inputs.plan.instance
    && core.adapter == inputs.plan.adapter
    && core.release == inputs.plan.artifactDigest
    && core.files.handoff == inputs.plan.handoff
    && core.expiry == inputs.plan.expiry
    && core.bundle == inputs.plan.bundle
    && DistinctIds(core.ids)
  }

  /** `validate_operation`: the plan is about this operation and one of its connectors. */
  predicate OperationMatches(operation: OperationIdentity, inputs: Inputs) {
    && operation.op != inputs.plan.lifecycleOperation
    && operation.target == inputs.target
    && operation.manifest == inputs.manifest
    && operation.binding.target == inputs.target
    && operation.binding.host == inputs.plan.host
    && operation.binding.artifact == inputs.artifact
    && operation.binding.workload.ConnectorHost?
    && var bound := FindConnector(operation.binding.workload.connectors, inputs.plan.instance);
    && bound.Some?
    && operation.binding.workload.connectorDigest == inputs.plan.artifactDigest
    && bound.value.adapter == inputs.plan.adapter
    && bound.value.handoff == inputs.plan.handoff
    && operation.binding.artifact.digest == inputs.plan.artifactDigest
  }

  // ----- what a stored record says -----

  /** The prepare result recorded at revision `n + 1`, with a receipt. */
  ghost predicate PreparedOk(r: ExecutionRecord) {
    && r.prepareResult.Some?
    && r.prepareResult.value.prepared.Some? && r.prepareResult.value.prepared.value.Receipt?
    && NextRevision(r.core.initial, r.prepareResult.value.revision)
  }

  ghost predicate StartedOk(r: ExecutionRecord) {
    PreparedOk(r) && r.startRevision.Some? && NextRevision(r.prepareResult.value.revision, r.startRevision.value)
  }

  ghost predicate RunningOk(r: ExecutionRecord) {
    StartedOk(r) && r.runningRevision == r.startRevision
  }

  ghost predicate FinalizedOk(r: ExecutionRecord) {
    && RunningOk(r)
    && r.finalizeHeader.Some?
    && r.finalizeResult.Some?
    && NextRevision(r.runningRevision.value, r.finalizeResult.value.revision)
    && r.finalizeResult.value.prepared == r.prepareResult.value.prepared
    && r.finalizeResult.value.finalized.Some?
  }

  ghost predicate FinalizeHeaderOk(r: ExecutionRecord) {
    r.finalizeHeader.Some? ==>
      && r.core.bundle.None? && ExecutionRank(r.phase) >= 3 && RunningOk(r)
      && HeaderFor(r.core, r.prepareResult, FinalizeMaterial, r.runningRevision.value, NoPayload) == Ok(r.finalizeHeader.value)
  }

  /** Every execution record that is ever written satisfies this. */
  ghost predicate ExecutionOk(r: ExecutionRecord) {
    && DistinctIds(r.core.ids)
    && ValidRevision(r.core.initial)
    && r.core.material == PrepareMaterialOf(r.core.files, r.core.plan)
    && HeaderFor(r.core, None, PrepareMaterial, r.core.initial, NoPayload) == Ok(r.prepareHeader)
    && FinalizeHeaderOk(r)
    && match r.phase
       case ExecClaimed | ExecExpired =>
         r.prepareResult.None? && r.startRevision.None? && r.runningRevision.None? && r.finalizeResult.None?
       case ExecPrepared => PreparedOk(r) && r.startRevision.None? && r.runningRevision.None? && r.finalizeResult.None?
       case ExecStarted => StartedOk(r) && r.runningRevision.None? && r.finalizeResult.None?
       case ExecRunning => RunningOk(r) && r.finalizeResult.None?
       case ExecFinalized => FinalizedOk(r)
  }

  /** What a later state of a record keeps of an earlier one: the core and everything once recorded. */
  ghost predicate ExecutionKept(before: ExecutionRecord, after: ExecutionRecord) {
    && after.core == before.core
    && after.prepareHeader == before.prepareHeader
    && ExecutionRank(before.phase) <= ExecutionRank(after.phase)
    && (before.phase.ExecExpired? ==> after.phase.ExecExpired?)
    && (after.phase.ExecExpired? ==> ExecutionRank(before.phase) == 0)
    && (before.finalizeHeader.Some? ==> after.finalizeHeader == before.finalizeHeader)
    && (before.prepareResult.Some? ==> after.prepareResult == before.prepareResult)
    && (before.startRevision.Some? ==> after.startRevision == before.startRevision)
    && (before.runningRevision.Some? ==> after.runningRevision == before.runningRevision)
    && (before.finalizeResult.Some? ==> after.finalizeResult == before.finalizeResult)
  }

  /** A finalized record holds an exact revision chain, all of it exactly representable, and its finalize result
   *  names the prepare receipt recorded before it. */
  lemma FinalizedChain(r: ExecutionRecord)
    requires ExecutionOk(r) && r.phase.ExecFinalized?
    ensures var n := r.core.initial.desired;
      && r.prepareResult.Some? && r.prepareResult.value.revision == Revision(n + 1, Some(n + 1))
      && r.startRevision == Some(Revision(n + 2, Some(n + 2)))
      && r.runningRevision == Some(Revision(n + 2, Some(n + 2)))
      && r.finalizeResult.Some? && r.finalizeResult.value.revision == Revision(n + 3, Some(n + 3))
      && 0 < n && n + 3 <= 9_007_199_254_740_991
    ensures r.finalizeResult.value.prepared.Some? && r.finalizeResult.value.prepared == r.prepareResult.value.prepared
    ensures r.core.bundle.None?
  {
  }

  /** The finalized check admits no other chain: results that pass validation one after the other extend it. */
  lemma ValidationBuildsChain(r: ExecutionRecord, prepared: MaterialResult, start: StartResult, finalized: MaterialResult)
    requires ExecutionOk(r) && r.phase.ExecClaimed? && r.core.bundle.None?
    requires ValidatedResult(prepared, r.core, None, PrepareMaterial, r.core.initial) == Ok(prepared)
    requires !ExpiredPrepare(prepared)
    requires ValidatedStart(start, r.core, prepared.revision).Ok?
    requires ValidatedResult(finalized, r.core, Some(prepared), FinalizeMaterial, start.revision) == Ok(finalized)
    ensures HeaderFor(r.core, Some(prepared), FinalizeMaterial, start.revision, NoPayload).Ok?
    ensures ExecutionOk(r.(phase := ExecFinalized, prepareResult := Some(prepared), startRevision := Some(start.revision),
                           runningRevision := Some(start.revision), finalizeResult := Some(finalized),
                           finalizeHeader := Some(HeaderFor(r.core, Some(prepared), FinalizeMaterial, start.revision, NoPayload).value)))
  {
  }

  /** Two records whose requests carry the same header were created for the same Host, connector, plan, files and
   *  identifier: the header digest that is sealed into a record pins everything its frames depend on. */
  lemma HeaderPins(a: ExecutionCore, b: ExecutionCore, prepared: Option<MaterialResult>, other: Option<MaterialResult>,
                   operation: MaterialOperation, expected: Revision, later: Revision, payload: Payload, sent: Payload)
    requires HeaderFor(a, prepared, operation, expected, payload).Ok?
    requires HeaderFor(a, prepared, operation, expected, payload) == HeaderFor(b, other, operation, later, sent)
    ensures a.tenant == b.tenant && a.hostId == b.hostId && a.connector == b.connector && a.adapter == b.adapter
    ensures a.release == b.release && a.lifecycleOperation == b.lifecycleOperation && a.expiry == b.expiry
    ensures a.plan == b.plan && a.files == b.files && a.material == b.material && a.bundle == b.bundle
    ensures expected == later && payload == sent
    ensures if operation.PrepareMaterial? then a.ids.prepare == b.ids.prepare
            else a.ids.finalize == b.ids.finalize && prepared.value.prepared == other.value.prepared
  {
  }

  /** An execution accepts exactly the operation, target, manifest and plan it was created with. */
  lemma OnlySameInputsReplay(inputs: Inputs, replay: Inputs, initial: Revision, ids: HostIds)
    requires FilesMatchPlan(inputs.files, inputs.plan) && DistinctIds(ids)
    ensures IdentityMatches(NewRecord(inputs, initial, ids).core, replay) <==>
      replay.op == inputs.op && replay.target == inputs.target && replay.manifest == inputs.manifest && replay.plan == inputs.plan
  {
  }
}
