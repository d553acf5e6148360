/** A Host that cooperates: the environment in which an interrupted apply converges.
 *
 * It remembers every result by the identifier of its operation and replays it, asks for the material of an operation
 * it does not know, and applies an operation whose expected revision is its own.  A started connector reports that it
 * is running after `warmup` observations.  None of this is the deployer's code; it is what its replies suggest.
 */
module HostModel {
  import opened Domain
  import opened Execution
  import opened ApplyMachine

  datatype Deployed = Deployed(adapter: AdapterKind, release: Token)

  datatype HostState = HostState(
    tenant: Token,
    hostId: Token,
    revision: Revision,
    results: map<Token, MaterialResult>,
    starts: map<Token, Revision>,
    deployed: map<Token, Deployed>,
    warmup: nat)

  function Following(r: Revision): Revision {
    Revision(r.desired + 1, Some(r.desired + 1))
  }

  function ResultFor(header: Header, revision: Revision): MaterialResult {
    match header.operation
    case PrepareMaterial =>
      MaterialResult(PrepareMaterial, Applied, DispositionApplied, revision, header.connector, StatePrepared,
                     Some(Receipt(header.hostOperation)), None)
    case FinalizeMaterial =>
      MaterialResult(FinalizeMaterial, Applied, DispositionApplied, revision, header.connector, StateFinalized,
                     header.preparedReceipt, Some(Receipt(header.hostOperation)))
  }

  function HandlesMaterial(h: HostState, header: Header): (HostState, Reply) {
    if header.hostOperation in h.results then (h, MaterialReply(h.results[header.hostOperation].(application := Replayed)))
    else if header.payload == NoPayload then (h, MaterialRequired)
    else if header.expected != h.revision then (h, Rejected)
    else
      var result := ResultFor(header, Following(h.revision));
      (h.(revision := result.revision, results := h.results[header.hostOperation := result],
          deployed := h.deployed[header.connector := Deployed(header.adapter, header.release)]),
       MaterialReply(result))
  }

  function RunningProjection(connector: Token, d: Deployed, recorded: Observation): ConnectorProjection {
    ConnectorProjection(connector, d.adapter, d.release, DesiredRunning, recorded, 1)
  }

  /** What the Host does with a frame and what it replies. */
  function Handles(h: HostState, frame: Frame): (HostState, Reply) {
    match frame
    case SnapshotFrame(_, _) => (h, SnapshotReply(h.tenant, h.hostId, h.revision))
    case PrepareFrame(header) => HandlesMaterial(h, header)
    case FinalizeFrame(header) => HandlesMaterial(h, header)
    case StartFrame(q) =>
      if q.connector !in h.deployed then (h, Rejected)
      else if q.hostOperation in h.starts then
        (h, StartReply(StartResult(Replayed, DispositionApplied, h.starts[q.hostOperation],
                                   RunningProjection(q.connector, h.deployed[q.connector], Starting))))
      else if q.expected != h.revision then (h, Rejected)
      else
        (h.(revision := Following(h.revision), starts := h.starts[q.hostOperation := Following(h.revision)]),
         StartReply(StartResult(Applied, DispositionApplied, Following(h.revision),
                                RunningProjection(q.connector, h.deployed[q.connector], Starting))))
    case ObserveFrame(_, _, connector) =>
      if connector !in h.deployed then (h, Rejected)
      else
        var seen := if h.warmup == 0 then ObservedRunning else Starting;
        (if h.warmup == 0 then h else h.(warmup := h.warmup - 1),
         ObservationReply(h.revision, RunningProjection(connector, h.deployed[connector], seen), seen))
  }

  /** The Host remembers that it did this effect under this identifier. */
  predicate Remembers(h: HostState, kind: Kind, id: Token) {
    if kind.ToStart? then id in h.starts else id in h.results
  }

  /** The revision moves exactly with a new effect, which the Host then remembers. */
  lemma MovesOnlyWithEffect(h: HostState, frame: Frame)
    requires Handles(h, frame).0.revision != h.revision
    ensures EffectOf(frame).Some?
    ensures var (kind, id) := EffectOf(frame).value; !Remembers(h, kind, id) && Remembers(Handles(h, frame).0, kind, id)
  {
  }

  lemma NeverForgets(h: HostState, frame: Frame, kind: Kind, id: Token)
    requires Remembers(h, kind, id)
    ensures Remembers(Handles(h, frame).0, kind, id)
  {
  }

  // ----- what the Host and the execution record say about each other -----

  predicate IsDeployed(h: HostState, core: ExecutionCore) {
    core.connector in h.deployed && h.deployed[core.connector] == Deployed(core.adapter, core.release)
  }

  predicate HasPrepared(h: HostState, core: ExecutionCore) {
    && core.ids.prepare in h.results
    && var result := h.results[core.ids.prepare];
    && ValidatedResult(result, core, None, PrepareMaterial, core.initial).Ok? && !ExpiredPrepare(result)
    && result.revision == h.revision
    && IsDeployed(h, core)
  }

  predicate HasFinalized(h: HostState, r: ExecutionRecord)
    requires r.runningRevision.Some?
  {
    && r.core.ids.finalize in h.results
    && ValidatedResult(h.results[r.core.ids.finalize], r.core, r.prepareResult, FinalizeMaterial, r.runningRevision.value).Ok?
  }

  /** The Host has done what the record says, and at most the one thing more that the record was about to say when the
   *  process died. */
  ghost predicate Coherent(r: ExecutionRecord, h: HostState) {
    && r.core.initial.desired + 3 <= MAX_REVISION
    && match r.phase
       case ExecClaimed =>
         && r.core.ids.start !in h.starts && r.core.ids.finalize !in h.results
         && ((r.core.ids.prepare !in h.results && h.revision == r.core.initial) || HasPrepared(h, r.core))
       case ExecPrepared =>
         && IsDeployed(h, r.core) && r.core.ids.finalize !in h.results
         && r.prepareResult.Some?
         && (|| (r.core.ids.start !in h.starts && h.revision == r.prepareResult.value.revision)
             || (r.core.ids.start in h.starts && h.starts[r.core.ids.start] == h.revision
                 && NextRevision(r.prepareResult.value.revision, h.revision)))
       case ExecStarted => IsDeployed(h, r.core) && r.core.ids.finalize !in h.results && r.startRevision == Some(h.revision)
       case ExecRunning =>
         && r.runningRevision.Some?
         && ((r.core.ids.finalize !in h.results && r.runningRevision == Some(h.revision)) || HasFinalized(h, r))
       case ExecFinalized => true
       case ExecExpired => false
  }

  /** A new execution starts from the revision the Host has, with identifiers the Host does not know. */
  ghost predicate IdsUnknown(ids: HostIds, h: HostState) {
    ids.prepare !in h.results && ids.finalize !in h.results && ids.start !in h.starts
  }

  lemma NewIsCoherent(inputs: Inputs, ids: HostIds, h: HostState)
    requires DistinctIds(ids) && IdsUnknown(ids, h) && h.revision.desired + 3 <= MAX_REVISION
    ensures Coherent(NewRecord(inputs, h.revision, ids), h)
  {
  }

  // ----- one exchange -----

  lemma PrepareExchange(r: ExecutionRecord, h: HostState, material: bool)
    requires ExecutionOk(r) && Coherent(r, h) && r.phase.ExecClaimed?
    ensures TaskFrame(r, AskPrepare(material)).Ok?
    ensures var (h', reply) := Handles(h, TaskFrame(r, AskPrepare(material)).value);
      && Coherent(r, h') && h'.warmup == h.warmup
      && (material ==> reply.MaterialReply?)
      && (reply.MaterialRequired? || reply.MaterialReply?)
      && (reply.MaterialReply? ==>
            && ValidatedResult(reply.result, r.core, None, PrepareMaterial, r.core.initial).Ok? && !ExpiredPrepare(reply.result)
            && Coherent(r.(prepareResult := Some(reply.result), phase := ExecPrepared), h'))
  {
    assert DistinctIds(r.core.ids);
    var header := r.prepareHeader.(payload := if material then r.core.material else NoPayload);
    assert header.hostOperation == r.core.ids.prepare && header.operation.PrepareMaterial? && header.expected == r.core.initial;
    assert header.connector == r.core.connector && header.adapter == r.core.adapter && header.release == r.core.release;
    hide HeaderFor, FinalizeHeaderOk;
    if r.core.ids.prepare !in h.results && material {
      var result := ResultFor(header, Following(h.revision));
      assert NextRevision(r.core.initial, result.revision);
      assert ValidatedResult(result, r.core, None, PrepareMaterial, r.core.initial) == Ok(result);
    }
  }

  lemma StartExchange(r: ExecutionRecord, h: HostState)
    requires ExecutionOk(r) && Coherent(r, h) && r.phase.ExecPrepared?
    ensures TaskFrame(r, AskStart).Ok?
    ensures var (h', reply) := Handles(h, TaskFrame(r, AskStart).value);
      && Coherent(r, h') && h'.warmup == h.warmup
      && reply.StartReply?
      && ValidatedStart(reply.started, r.core, r.prepareResult.value.revision).Ok?
      && Coherent(r.(startRevision := Some(reply.started.revision), phase := ExecStarted), h')
  {
    hide HeaderFor, FinalizeHeaderOk;
  }

  lemma ObserveExchange(r: ExecutionRecord, h: HostState)
    requires ExecutionOk(r) && Coherent(r, h) && r.phase.ExecStarted?
    ensures TaskFrame(r, AskObservation).Ok?
    ensures var (h', reply) := Handles(h, TaskFrame(r, AskObservation).value);
      && Coherent(r, h')
      && reply.ObservationReply? && ProjectionMatches(reply.connector, r.core) && r.startRevision == Some(reply.observed)
      && (h.warmup == 0 ==> reply.actual.ObservedRunning? && reply.connector.recorded.ObservedRunning? && h'.warmup == 0)
      && (h.warmup > 0 ==> !reply.actual.ObservedRunning? && h'.warmup == h.warmup - 1)
      && Coherent(r.(runningRevision := Some(reply.observed), phase := ExecRunning), h')
  {
    hide HeaderFor, FinalizeHeaderOk;
  }

  lemma FinalizeExchange(r: ExecutionRecord, h: HostState, material: bool)
    requires ExecutionOk(r) && Coherent(r, h) && r.phase.ExecRunning? && r.finalizeHeader.Some?
    ensures TaskFrame(r, AskFinalize(material)).Ok?
    ensures var (h', reply) := Handles(h, TaskFrame(r, AskFinalize(material)).value);
      && Coherent(r, h') && h'.warmup == h.warmup
      && (material ==> reply.MaterialReply?)
      && (reply.MaterialRequired? || reply.MaterialReply?)
      && (reply.MaterialReply? ==>
            && ValidatedResult(reply.result, r.core, r.prepareResult, FinalizeMaterial, r.runningRevision.value).Ok?
            && Coherent(r.(finalizeResult := Some(reply.result), phase := ExecFinalized), h'))
  {
    var header := r.finalizeHeader.value.(payload := if material then FinalizeMaterialOf(r.core.files, r.core.plan) else NoPayload);
    assert header.hostOperation == r.core.ids.finalize && header.operation.FinalizeMaterial?;
    assert header.expected == r.runningRevision.value && header.connector == r.core.connector;
    assert header.preparedReceipt == r.prepareResult.value.prepared;
    hide HeaderFor;
    if r.core.ids.finalize !in h.results && material {
      var result := ResultFor(header, Following(h.revision));
      RunningBound(r);
      assert NextRevision(r.runningRevision.value, result.revision);
      assert ValidatedResult(result, r.core, r.prepareResult, FinalizeMaterial, r.runningRevision.value) == Ok(result);
    }
  }

  lemma RunningBound(r: ExecutionRecord)
    requires ExecutionOk(r) && r.phase.ExecRunning?
    ensures r.runningRevision.Some? && r.runningRevision.value.desired == r.core.initial.desired + 2
  {
  }
}
