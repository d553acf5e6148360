/** What the frames of an execution carry: the plan, the protected files it names, and the connector that its operation
 *  binds on its host.
 */
module FrameContents {
  import opened Domain
  import opened Records
  import opened StateActions
  import opened StateInvariants
  import opened StateProofs
  import opened Calls
  import opened Execution
  import opened ApplyMachine
  import opened ApplyProofs
  import HostFrames

  // ----- what an execution is of -----

  /** The execution repeats its plan, and the protected files are the ones that the plan names. */
  ghost predicate FromPlan(core: ExecutionCore) {
    var plan, files := core.plan, core.files;
    && core.tenant == plan.host.tenant && core.hostId == plan.host.hostId
    && core.connector == plan.instance && core.adapter == plan.adapter && core.release == plan.artifactDigest
    && core.expiry == plan.expiry && core.lifecycleOperation == plan.lifecycleOperation && core.bundle == plan.bundle
    && files.enrollmentCa == plan.enrollmentCa && files.controlCa == plan.controlCa && files.issuerCa == plan.issuerCa
    && files.handoff == plan.handoff
  }

  /** It is of a connector that the operation binds, on the operation's host and with the operation's artifact. */
  ghost predicate BoundBy(core: ExecutionCore, operation: OperationIdentity) {
    && core.target == operation.target && core.manifest == operation.manifest
    && core.lifecycleOperation != operation.op
    && core.plan.host == operation.binding.host
    && operation.binding.workload.ConnectorHost?
    && BoundConnector(core.connector, core.adapter, core.plan.handoff) in operation.binding.workload.connectors
    && core.release == operation.binding.workload.connectorDigest == operation.binding.artifact.digest
  }

  ghost predicate ExecsBound(execs: map<Token, ExecutionRecord>, records: map<Token, OperationRecord>) {
    forall op :: op in execs ==> op in records && FromPlan(execs[op].core) && BoundBy(execs[op].core, records[op].core)
  }

  function InputsOf(pc: ApplyPc): Option<Inputs> {
    match pc
    case Returned(_) => None
    case Entering(_, _) => None
    case Preparing(inputs, _, _) => Some(inputs)
    case Publishing(inputs, _, _, _) => Some(inputs)
    case Converging(inputs, _, _, _) => Some(inputs)
    case _ => Some(pc.ctx.inputs)
  }

  /** A process past its first checks applies a plan about this operation. */
  ghost predicate PlanFits(pc: ApplyPc, records: map<Token, OperationRecord>) {
    && (InputsOf(pc).Some? ==>
          && InputsOf(pc).value.op in records
          && OperationMatches(records[InputsOf(pc).value.op].core, InputsOf(pc).value)
          && records[InputsOf(pc).value.op].core.op == InputsOf(pc).value.op)
    && (pc.Snapshotting? || pc.Creating? ==> FilesMatchPlan(pc.ctx.inputs.files, pc.ctx.inputs.plan))
  }

  /** A snapshot is asked of the operation's host. */
  ghost predicate SnapshotsBound(sent: seq<Sent>, records: map<Token, OperationRecord>) {
    forall k :: 0 <= k < |sent| && sent[k].frame.SnapshotFrame? ==> SnapshotBound(sent[k], records)
  }

  ghost predicate SnapshotBound(m: Sent, records: map<Token, OperationRecord>)
    requires m.frame.SnapshotFrame?
  {
    && m.op in records
    && m.frame.tenant == records[m.op].core.binding.host.tenant && m.frame.hostId == records[m.op].core.binding.host.hostId
  }

  ghost predicate ContentsOk(w: ApplyWorld) {
    && ExecsBound(w.files.execs, w.files.store.records)
    && SnapshotsBound(w.files.sent, w.files.store.records)
    && forall p :: p in w.apps ==> PlanFits(w.apps[p], w.files.store.records)
  }

  // ----- one step -----

  lemma NewIsBound(inputs: Inputs, initial: Revision, ids: HostIds, operation: OperationIdentity)
    requires OperationMatches(operation, inputs) && FilesMatchPlan(inputs.files, inputs.plan)
    ensures var core := NewRecord(inputs, initial, ids).core;
      && FromPlan(core) && BoundBy(core, operation)
      && core.op == inputs.op && core.target == inputs.target && core.manifest == inputs.manifest
      && core.plan == inputs.plan && core.files == inputs.files
  {
    var bound := FindConnector(operation.binding.workload.connectors, inputs.plan.instance).value;
    assert bound == BoundConnector(inputs.plan.instance, inputs.plan.adapter, inputs.plan.handoff);
  }

  /** A new execution record is created from the plan and files of the process that creates it. */
  ghost predicate PutsBound(pc: ApplyPc, act: Act, execs: map<Token, ExecutionRecord>, records: map<Token, OperationRecord>) {
    act.PutExecution? ==>
      if act.record.core.op in execs then act.record.core == execs[act.record.core.op].core
      else
        && pc.Creating? && act.record.core.op in records
        && FromPlan(act.record.core) && BoundBy(act.record.core, records[act.record.core.op].core)
        && MadeFrom(act.record.core, pc.ctx.inputs)
  }

  ghost predicate MadeFrom(core: ExecutionCore, inputs: Inputs) {
    && core.op == inputs.op && core.target == inputs.target && core.manifest == inputs.manifest
    && core.plan == inputs.plan && core.files == inputs.files
  }

  lemma StepFitsPlan(pc: ApplyPc, d: Durable, free: bool, choice: Choice)
    requires RecordsValid(d.store) && PlanFits(pc, d.store.records) && ApplyKnows(pc, d.execs)
    ensures PlanFits(ApplyStep(pc, d, free, choice).0, d.store.records)
  {
    hide WorkStep, ConnectorStep, AdvanceRound, Loaded, OperationMatches, TasksOk, LeaseGranted, ValidRecord;
    hide ConnectorPredecessor, PreparedClaim, FilesMatchPlan, ValidRevision, HeaderFor, Enabled, After, IdentityMatches;
    match pc
    case Working(ctx, r, tasks) => if tasks != [] { WorkStays(ctx, r, tasks, d, choice); }
    case Reading(ctx) => if ctx.inputs.op in d.execs { LoadedStays(ctx, d.execs[ctx.inputs.op]); }
    case Creating(ctx, initial) => LoadedStays(ctx, NewRecord(ctx.inputs, initial, choice.ids));
    case Publishing(_, _, _, _) => ConnectorFitsPlan(pc, d);
    case Converging(_, _, _, _) => ConnectorFitsPlan(pc, d);
    case _ =>
  }

  lemma LoadedStays(ctx: Context, r: ExecutionRecord)
    ensures Loaded(ctx, r).Returned? || (Loaded(ctx, r).Working? && Loaded(ctx, r).ctx == ctx)
  {
  }

  lemma ConnectorFitsPlan(pc: ApplyPc, d: Durable)
    requires pc.Publishing? || pc.Converging?
    ensures var next := ConnectorStep(pc, d).0; next.Returned? || (InputsOf(next) == InputsOf(pc) && !next.Snapshotting? && !next.Creating?)
  {
    hide ConnectorAllowed, ForeignClaim, Enabled;
  }

  lemma StepPutsBound(pc: ApplyPc, d: Durable, free: bool, choice: Choice)
    requires ExecsOk(d.execs) && PlanFits(pc, d.store.records) && ApplyKnows(pc, d.execs)
    requires pc.Creating? ==> FreshIds(choice.ids, d.execs)
    ensures PutsBound(pc, ApplyStep(pc, d, free, choice).1, d.execs, d.store.records)
  {
    StepOk(pc, d, free, choice);
    hide ExecutionOk, FromPlan, BoundBy, OperationMatches, FilesMatchPlan, TasksOk, FrameOk, WorkStep, ConnectorStep, Loaded;
    hide AdvanceRound, ConnectorPredecessor, PreparedClaim, IdentityMatches, LeaseGranted, NewRecord, ValidRevision, FreshIds;
    match pc
    case Creating(ctx, initial) => NewIsBound(ctx.inputs, initial, choice.ids, d.store.records[ctx.inputs.op].core);
    case Publishing(_, _, _, _) => ConnectorStaysOut(pc, d);
    case Converging(_, _, _, _) => ConnectorStaysOut(pc, d);
    case _ =>
  }

  lemma StepAsksHost(pc: ApplyPc, d: Durable, free: bool, choice: Choice)
    requires PlanFits(pc, d.store.records)
    ensures var act := ApplyStep(pc, d, free, choice).1;
      act.Send? && act.message.frame.SnapshotFrame? ==> SnapshotBound(act.message, d.store.records)
  {
    hide Enabled, After, AdvanceRound, Answered, Continued, Loaded, ConnectorPredecessor, PreparedClaim, IdentityMatches;
    hide FindConnector, FilesMatchPlan, LeaseGranted, NewRecord, ValidRevision, HeaderFor, ConnectorAllowed, ForeignClaim;
    hide ChangeRecorded, ExpiryRecorded;
  }

  // ----- the run -----

  lemma PerformBinds(w: ApplyWorld, w': ApplyWorld, p: nat, pc: ApplyPc, act: Act)
    requires ContentsOk(w) && p in w.apps && RecordsValid(w.files.store)
    requires act.Do? ==> Enabled(w.files.store, act.write)
    requires w' == ApplyWorld(Perform(w.files, act), w.apps[p := pc])
    requires PlanFits(pc, w.files.store.records) && PutsBound(w.apps[p], act, w.files.execs, w.files.store.records)
    requires act.Send? && act.message.frame.SnapshotFrame? ==> SnapshotBound(act.message, w.files.store.records)
    ensures ContentsOk(w')
  {
    hide Enabled, After, HistoryAfter, FromPlan, BoundBy, OperationMatches, FilesMatchPlan, MadeFrom, RecordsValid;
    if act.Do? {
      StoreKeepsContents(w.(apps := w.apps[p := pc]), act.write);
    }
  }

  lemma StoreKeepsContents(w: ApplyWorld, write: Write)
    requires ContentsOk(w) && RecordsValid(w.files.store) && Enabled(w.files.store, write)
    ensures ContentsOk(w.(files := Perform(w.files, Do(write))))
  {
    CoresKeptAfter(w.files.store, write);
    hide Enabled, After, HistoryAfter, FromPlan, BoundBy, OperationMatches, FilesMatchPlan, RecordsValid;
  }

  lemma NextKeepsContents(w: ApplyWorld, w': ApplyWorld)
    requires ApplyOk(w) && ContentsOk(w) && ApplyNext(w, w')
    ensures ContentsOk(w')
  {
    hide ApplyStep, ContentsOk, LeasesApart, IdsUnique, FramesOk, Perform, TaskFrame, PlanFits, Enabled, FreshIds, Ordered;
    hide RecordsValid, ApplyKnows, ExecsOk, Foreign, PutsBound, SnapshotBound;
    OrderedRecords(w.files);
    if p, choice :| Acts(w, w', p, choice) {
      var free := w.apps[p].Leasing? && LeaseFree(w, w.apps[p].ctx.inputs.op);
      ContentsPart(w, p);
      StepFitsPlan(w.apps[p], w.files, free, choice);
      StepPutsBound(w.apps[p], w.files, free, choice);
      StepAsksHost(w.apps[p], w.files, free, choice);
      var (pc, act) := ApplyStep(w.apps[p], w.files, free, choice);
      PerformBinds(w, w', p, pc, act);
    } else if p :| LosesReply(w, w', p) {
      LostKeepsContents(w, w', p);
    } else if write :| Meddles(w, w', write) {
      StoreKeepsContents(w, write);
    } else if p, inputs, expired :| Begins(w, w', p, inputs, expired) {
      EntryKeepsContents(w, w', p, inputs, expired);
    } else if p :| Dies(w, w', p) {
      DeathKeepsContents(w, w', p);
    }
  }

  lemma OrderedRecords(d: Durable)
    requires FilesOk(d)
    ensures RecordsValid(d.store) && ExecsOk(d.execs)
  {
  }

  lemma ContentsPart(w: ApplyWorld, p: nat)
    requires ContentsOk(w) && p in w.apps
    ensures PlanFits(w.apps[p], w.files.store.records)
  {
  }

  lemma LostKeepsContents(w: ApplyWorld, w': ApplyWorld, p: nat)
    requires ContentsOk(w) && LosesReply(w, w', p)
    ensures ContentsOk(w')
  {
    hide FromPlan, BoundBy, PlanFits, HeaderFor, SnapshotBound;
  }

  lemma EntryKeepsContents(w: ApplyWorld, w': ApplyWorld, p: nat, inputs: Inputs, expired: bool)
    requires ContentsOk(w) && Begins(w, w', p, inputs, expired)
    ensures ContentsOk(w')
  {
    hide FromPlan, BoundBy;
    hide OperationMatches, FilesMatchPlan, SnapshotsBound;
  }

  lemma DeathKeepsContents(w: ApplyWorld, w': ApplyWorld, p: nat)
    requires ContentsOk(w) && Dies(w, w', p)
    ensures ContentsOk(w')
  {
    hide ExecsBound, SnapshotsBound, PlanFits;
  }

  lemma {:induction false} RunContents(run: seq<ApplyWorld>)
    requires ApplyRun(run)
    ensures forall k :: 0 <= k < |run| ==> ContentsOk(run[k])
  {
    hide ApplyNext, ApplyOk;
    ApplyRunOk(run);
    assert ContentsOk(run[0]);
    hide ContentsOk, ApplyInit;
    var k := 0;
    while k < |run| - 1
      invariant 0 <= k < |run|
      invariant forall j :: 0 <= j <= k ==> ContentsOk(run[j])
    {
      assert ApplyNext(run[k], run[k + 1]);
      NextKeepsContents(run[k], run[k + 1]);
      k := k + 1;
    }
  }

  // ----- what follows -----

  /** Every execution of every run is of a connector that its operation binds, with the adapter, handoff, host and
   *  artifact of that binding, and of the protected files that its plan names. */
  lemma ExecutionIsBound(run: seq<ApplyWorld>, k: nat, op: Token)
    requires ApplyRun(run) && k < |run| && op in run[k].files.execs
    ensures var core := run[k].files.execs[op].core; var plan, files := core.plan, core.files;
      && core.op == op && op in run[k].files.store.records
      && (files.enrollmentCa, files.controlCa, files.issuerCa, files.handoff)
           == (plan.enrollmentCa, plan.controlCa, plan.issuerCa, plan.handoff)
      && var operation := run[k].files.store.records[op].core;
      && (core.target, core.manifest, plan.host) == (operation.target, operation.manifest, operation.binding.host)
      && plan.lifecycleOperation != op
      && operation.binding.workload.ConnectorHost?
      && BoundConnector(plan.instance, plan.adapter, plan.handoff) in operation.binding.workload.connectors
      && plan.artifactDigest == operation.binding.workload.connectorDigest
  {
    hide ApplyRun, PlanFits, SnapshotsBound, FramesOk, IdsUnique, ExecutionOk, ValidRecord;
    RunContents(run);
    assert ContentsOk(run[k]);
    HostFrames.WorldFilesOk(run, k);
    OrderedRecords(run[k].files);
    RecordsNamed(run[k].files.store, op);
  }

  lemma RecordsNamed(s: Store, op: Token)
    requires RecordsValid(s) && op in s.records
    ensures s.records[op].core.op == op
  {
  }

  /** The files behind a prepare header are the configuration that the execution was created with and the three
   *  certificates, plan and handoff of its plan, in this order. */
  lemma PrepareCarries(run: seq<ApplyWorld>, k: nat, m: Sent)
    requires ApplyRun(run) && k < |run| && m in run[k].files.sent && m.frame.PrepareFrame?
    ensures m.op in run[k].files.execs
    ensures var core := run[k].files.execs[m.op].core; var plan, h := core.plan, m.frame.header;
      var material := Material(Some(core.files.config), Some(plan.enrollmentCa), Some(plan.controlCa),
                               Some(plan.issuerCa), plan, plan.handoff);
      && (h.payload == NoPayload || h.payload == material)
      && h == Header(plan.host.tenant, plan.host.hostId, core.ids.prepare, core.initial, plan.instance, plan.adapter,
                     plan.artifactDigest, plan.lifecycleOperation, plan.platform, plan.expiry, plan, core.files,
                     material, plan.bundle, h.payload, None, PrepareMaterial)
  {
    hide ApplyRun, PlanFits, SnapshotsBound, BoundBy, Ordered, IdsUnique;
    RunContents(run);
    assert ContentsOk(run[k]);
    HostFrames.WorldFilesOk(run, k);
    var i :| 0 <= i < |run[k].files.sent| && run[k].files.sent[i] == m;
    assert FrameOk(m, run[k].files.execs);
  }

  /** A start is asked under the identifier kept for it, of the revision that the prepare result named. */
  lemma StartCarries(run: seq<ApplyWorld>, k: nat, m: Sent)
    requires ApplyRun(run) && k < |run| && m in run[k].files.sent && m.frame.StartFrame?
    ensures m.op in run[k].files.execs
    ensures var core := run[k].files.execs[m.op].core; var plan, n := core.plan, core.initial.desired + 1;
      m.frame.request == StartRequest(plan.host.tenant, plan.host.hostId, core.ids.start, Revision(n, Some(n)), plan.instance)
  {
    hide ApplyRun, PlanFits, SnapshotsBound, BoundBy, Ordered, IdsUnique;
    RunContents(run);
    assert ContentsOk(run[k]);
    HostFrames.WorldFilesOk(run, k);
    var i :| 0 <= i < |run[k].files.sent| && run[k].files.sent[i] == m;
    assert FrameOk(m, run[k].files.execs);
  }

  /** A finalize header names the recorded prepare receipt and the running revision; behind it come plan and handoff. */
  lemma FinalizeCarries(run: seq<ApplyWorld>, k: nat, m: Sent)
    requires ApplyRun(run) && k < |run| && m in run[k].files.sent && m.frame.FinalizeFrame?
    ensures m.op in run[k].files.execs && run[k].files.execs[m.op].prepareResult.Some?
    ensures var r := run[k].files.execs[m.op]; var core := r.core; var plan, h, n := core.plan, m.frame.header, core.initial.desired + 2;
      var material := Material(Some(core.files.config), Some(plan.enrollmentCa), Some(plan.controlCa),
                               Some(plan.issuerCa), plan, plan.handoff);
      && (h.payload == NoPayload || h.payload == Material(None, None, None, None, plan, plan.handoff))
      && r.prepareResult.value.prepared.Some?
      && h == Header(plan.host.tenant, plan.host.hostId, core.ids.finalize, Revision(n, Some(n)), plan.instance,
                     plan.adapter, plan.artifactDigest, plan.lifecycleOperation, plan.platform, plan.expiry, plan,
                     core.files, material, plan.bundle, h.payload, r.prepareResult.value.prepared, FinalizeMaterial)
  {
    hide ApplyRun, PlanFits, SnapshotsBound, BoundBy, Ordered, IdsUnique;
    RunContents(run);
    assert ContentsOk(run[k]);
    HostFrames.WorldFilesOk(run, k);
    var i :| 0 <= i < |run[k].files.sent| && run[k].files.sent[i] == m;
    assert FrameOk(m, run[k].files.execs);
  }

  /** Snapshots and observations are asked of the operation's host, observations of its connector. */
  lemma QueriesAddressed(run: seq<ApplyWorld>, k: nat, m: Sent)
    requires ApplyRun(run) && k < |run| && m in run[k].files.sent && (m.frame.SnapshotFrame? || m.frame.ObserveFrame?)
    ensures m.op in run[k].files.store.records
    ensures var host := run[k].files.store.records[m.op].core.binding.host;
      && m.frame.tenant == host.tenant && m.frame.hostId == host.hostId
    ensures m.frame.ObserveFrame? ==>
      m.op in run[k].files.execs && m.frame.connector == run[k].files.execs[m.op].core.plan.instance
  {
    hide ApplyRun, PlanFits, Ordered, IdsUnique, ExecutionOk;
    RunContents(run);
    assert ContentsOk(run[k]);
    HostFrames.WorldFilesOk(run, k);
    var i :| 0 <= i < |run[k].files.sent| && run[k].files.sent[i] == m;
    assert FrameOk(m, run[k].files.execs);
  }

  /** An execution record appears in the step of a process that was given exactly its operation, target, manifest, plan
   *  and files, and while that process holds the lease. */
  lemma CreatedFromInputs(run: seq<ApplyWorld>, k: nat, op: Token) returns (p: nat)
    requires ApplyRun(run) && k < |run| - 1 && op !in run[k].files.execs && op in run[k + 1].files.execs
    ensures p in run[k].apps && LeaseOf(run[k].apps[p]) == Some(op) && run[k].apps[p].Creating?
    ensures var core := run[k + 1].files.execs[op].core; var inputs := run[k].apps[p].ctx.inputs;
      (op, core.target, core.manifest, core.plan, core.files)
        == (inputs.op, inputs.target, inputs.manifest, inputs.plan, inputs.files)
    ensures op in run[k].files.store.records
    ensures var binding := run[k].files.store.records[op].core.binding; var inputs := run[k].apps[p].ctx.inputs;
      (binding.target, binding.host, binding.artifact) == (inputs.target, inputs.plan.host, inputs.artifact)
  {
    hide ApplyNext, ApplyOk, ContentsOk;
    ApplyRunOk(run);
    RunContents(run);
    assert ApplyNext(run[k], run[k + 1]);
    p := NewExecutionStep(run[k], run[k + 1], op);
    ContentsPart(run[k], p);
  }

  /** Material is asked for only from files that, read again, are the ones the execution was created with: a process goes
   *  on to send it only then. */
  lemma MaterialIsUnchanged(run: seq<ApplyWorld>, k: nat, p: nat, choice: Choice)
    requires ApplyRun(run) && k + 1 < |run| && Acts(run[k], run[k + 1], p, choice)
    requires run[k].apps[p].Working? && run[k].apps[p].tasks != [] && Asks(run[k].apps[p].tasks[0])
    requires p in run[k + 1].apps && run[k + 1].apps[p].Working? && run[k + 1].apps[p].tasks != []
    requires run[k + 1].apps[p].tasks[0] == AskPrepare(true) || run[k + 1].apps[p].tasks[0] == AskFinalize(true)
    ensures var op := run[k].apps[p].ctx.inputs.op;
      && op in run[k].files.execs && choice.files == run[k].files.execs[op].core.files
      && run[k].apps[p].ctx.inputs.plan == run[k].files.execs[op].core.plan
  {
    hide ApplyNext, ApplyInit, LeasesApart, IdsUnique, FramesOk, ExecutionOk, Ordered, TasksOk;
    ApplyRunOk(run);
    assert ApplyOk(run[k]);
    var ctx, r, tasks := run[k].apps[p].ctx, run[k].apps[p].rec, run[k].apps[p].tasks;
    assert ApplyKnows(run[k].apps[p], run[k].files.execs);
    MaterialAsked(ctx, r, tasks[0], choice);
  }

  lemma MaterialAsked(ctx: Context, r: ExecutionRecord, task: Task, choice: Choice)
    requires Asks(task) && Answered(ctx, r, task, choice).Working? && Answered(ctx, r, task, choice).tasks != []
    requires var next := Answered(ctx, r, task, choice).tasks[0]; next == AskPrepare(true) || next == AskFinalize(true)
    ensures choice.files == r.core.files && ctx.inputs.plan == r.core.plan
  {
    hide ValidatedResult, ValidatedStart, HeaderFor, ProjectionMatches;
  }

  lemma NewExecutionStep(w: ApplyWorld, w': ApplyWorld, op: Token) returns (p: nat)
    requires ApplyOk(w) && ContentsOk(w) && ApplyNext(w, w') && op !in w.files.execs && op in w'.files.execs
    ensures p in w.apps && LeaseOf(w.apps[p]) == Some(op) && w.apps[p].Creating?
    ensures MadeFrom(w'.files.execs[op].core, w.apps[p].ctx.inputs)
  {
    hide ApplyStep, ContentsOk, LeasesApart, IdsUnique, FramesOk, TaskFrame, PlanFits, Enabled, FreshIds, Ordered;
    hide RecordsValid, ApplyKnows, ExecsOk, Foreign, SnapshotBound, FromPlan, BoundBy, MadeFrom, After, HistoryAfter;
    OrderedRecords(w.files);
    var q, choice :| Acts(w, w', q, choice);
    var free := w.apps[q].Leasing? && LeaseFree(w, w.apps[q].ctx.inputs.op);
    ContentsPart(w, q);
    StepPutsBound(w.apps[q], w.files, free, choice);
    PerformExecs(w.files, ApplyStep(w.apps[q], w.files, free, choice).1);
    StepOk(w.apps[q], w.files, free, choice);
    p := q;
  }
}
