/** How far the operation may be ahead of its execution: never.
 *
 * The execution record is written first; the connector claim and the operation follow it.  A crash in between leaves
 * them behind, and `Projection` brings them up again.
 */
module Lag {
  import opened Domain
  import opened Records
  import opened StateActions
  import opened StateInvariants
  import opened Calls
  import opened Execution
  import opened ApplyMachine
  import opened ApplyProofs
  import opened HostFrames

  // ----- operations -----

  ghost predicate Reaches(execs: map<Token, ExecutionRecord>, op: Token, rank: nat) {
    op in execs && ExecutionRank(execs[op].phase) >= rank
  }

  /** What the execution must have come to before an operation of a connector host may be in a phase. */
  ghost predicate PhaseBacked(phase: OperationPhase, execs: map<Token, ExecutionRecord>, op: Token) {
    match phase
    case MaterialPrepared | ConfigsWritten => Reaches(execs, op, 1)
    case ServicesConverged => Reaches(execs, op, 2)
    case ReadinessVerified => Reaches(execs, op, 3) && execs[op].core.bundle.None?
    case Completed => Reaches(execs, op, 4) && execs[op].core.bundle.None?
    case ExpiredUnclaimed => op in execs && execs[op].phase.ExecExpired?
    case _ => true
  }

  ghost predicate OperationsBehind(records: map<Token, OperationRecord>, execs: map<Token, ExecutionRecord>) {
    forall op :: op in records && records[op].core.binding.workload.ConnectorHost? ==>
      PhaseBacked(records[op].lastProven, execs, op)
  }

  /** An execution begins only once its operation has proven its artifacts. */
  ghost predicate ExecutionsBacked(records: map<Token, OperationRecord>, execs: map<Token, ExecutionRecord>) {
    forall op :: op in execs ==> op in records && ProvenRank(records[op].lastProven) >= 3
  }

  lemma BackedGrows(phase: OperationPhase, execs: map<Token, ExecutionRecord>, execs': map<Token, ExecutionRecord>,
                    op: Token)
    requires PhaseBacked(phase, execs, op) && ExecsGrow(execs, execs')
    ensures PhaseBacked(phase, execs', op)
  {
    if op in execs {
      assert ExecutionKept(execs[op], execs'[op]);
    }
  }

  /** What a write must find in the execution records. */
  ghost predicate WriteBacked(s: Store, w: Write, execs: map<Token, ExecutionRecord>) {
    w.UpdateRecord? && w.op in s.records && s.records[w.op].core.binding.workload.ConnectorHost? ==>
      && (w.change.Advance? ==> PhaseBacked(w.change.to, execs, w.op))
      && (w.change.Expire? ==> PhaseBacked(ExpiredUnclaimed, execs, w.op))
  }

  lemma ChangeKeepsBacked(r: OperationRecord, change: Change, execs: map<Token, ExecutionRecord>)
    requires ValidRecord(r) && Changed(r, change).Ok? && PhaseBacked(r.lastProven, execs, r.core.op)
    requires change.Advance? ==> PhaseBacked(change.to, execs, r.core.op)
    requires change.Expire? ==> PhaseBacked(ExpiredUnclaimed, execs, r.core.op)
    ensures PhaseBacked(Changed(r, change).value.lastProven, execs, r.core.op)
  {
    hide PhaseBacked, ValidIdentity;
  }

  lemma WriteKeepsBehind(s: Store, w: Write, execs: map<Token, ExecutionRecord>)
    requires RecordsValid(s) && Enabled(s, w) && WriteBacked(s, w, execs)
    requires OperationsBehind(s.records, execs) && ExecutionsBacked(s.records, execs)
    ensures OperationsBehind(After(s, w).records, execs) && ExecutionsBacked(After(s, w).records, execs)
  {
    hide CanOwn, CompletionVerified, ClaimAdmitted, PriorAllows, NamedElsewhere, ClaimChanged, ValidRecord, ProvenRank;
    hide PhaseBacked, Changed;
    WriteGrowsRecords(s, w);
    match w
    case UpdateRecord(op, change) =>
      ChangedCore(s.records[op], change);
      if s.records[op].core.binding.workload.ConnectorHost? {
        ChangeKeepsBacked(s.records[op], change, execs);
      }
    case CreateRecord(core) => PlannedBacked(core, execs);
    case _ =>
  }

  lemma PlannedBacked(core: OperationIdentity, execs: map<Token, ExecutionRecord>)
    ensures PhaseBacked(Initial(core).lastProven, execs, core.op)
  {
  }

  lemma BehindGrows(records: map<Token, OperationRecord>, execs: map<Token, ExecutionRecord>, act: Act)
    requires OperationsBehind(records, execs) && ActOk(act, execs) && ExecsOk(execs)
    ensures OperationsBehind(records, ExecsAfter(execs, act))
  {
    hide PhaseBacked, ExecsOk, ActOk, ExecsGrow;
    ActGrows(act, execs);
    forall op | op in records && records[op].core.binding.workload.ConnectorHost?
      ensures PhaseBacked(records[op].lastProven, ExecsAfter(execs, act), op) {
      BackedGrows(records[op].lastProven, execs, ExecsAfter(execs, act), op);
    }
  }

  // ----- the process's copy of its operation -----

  /** The copy is of the right operation and not ahead of the file. */
  ghost predicate CopyOk(operation: OperationRecord, inputs: Inputs, records: map<Token, OperationRecord>) {
    && inputs.op in records
    && operation.core == records[inputs.op].core && operation.core.op == inputs.op
    && operation.core.binding.workload.ConnectorHost?
    && (PhaseRank(operation.phase).Some? ==> ProvenRank(operation.phase) <= ProvenRank(records[inputs.op].lastProven))
  }

  ghost predicate ArtifactsProven(inputs: Inputs, records: map<Token, OperationRecord>) {
    inputs.op in records && ProvenRank(records[inputs.op].lastProven) >= 3
  }

  ghost predicate CopyKnown(pc: ApplyPc, records: map<Token, OperationRecord>) {
    match pc
    case Returned(_) => true
    case Entering(_, _) => true
    case Preparing(inputs, _, operation) => CopyOk(operation, inputs, records)
    case Publishing(inputs, _, operation, _) => CopyOk(operation, inputs, records)
    case Converging(inputs, _, operation, _) => CopyOk(operation, inputs, records)
    case Proving(ctx) => CopyOk(ctx.operation, ctx.inputs, records)
    case _ => CopyOk(pc.ctx.operation, pc.ctx.inputs, records) && ArtifactsProven(pc.ctx.inputs, records)
  }

  ghost predicate LagOk(w: ApplyWorld) {
    && OperationsBehind(w.files.store.records, w.files.execs)
    && ExecutionsBacked(w.files.store.records, w.files.execs)
    && forall p :: p in w.apps ==> CopyKnown(w.apps[p], w.files.store.records)
  }

  /** Records of the earlier files are there in the later, and no less proven. */
  ghost predicate RecordsGrow(records: map<Token, OperationRecord>, records': map<Token, OperationRecord>) {
    forall op :: op in records ==>
      && op in records' && records'[op].core == records[op].core
      && ProvenRank(records[op].lastProven) <= ProvenRank(records'[op].lastProven)
  }

  lemma WriteGrowsRecords(s: Store, w: Write)
    requires RecordsValid(s) && Enabled(s, w)
    ensures RecordsGrow(s.records, After(s, w).records)
  {
    hide CanOwn, CompletionVerified, ClaimAdmitted, PriorAllows, NamedElsewhere, ClaimChanged;
    if w.UpdateRecord? {
      hide Changed, LegalEdge, ProvenRank, IsCurrent;
      ChangedIsLegal(s.records[w.op], w.change);
      ChangedCore(s.records[w.op], w.change);
    }
  }

  lemma ChangedCore(r: OperationRecord, change: Change)
    requires Changed(r, change).Ok?
    ensures Changed(r, change).value.core == r.core
  {
  }

  lemma CopyStays(pc: ApplyPc, records: map<Token, OperationRecord>, records': map<Token, OperationRecord>)
    requires CopyKnown(pc, records) && RecordsGrow(records, records')
    ensures CopyKnown(pc, records')
  {
    hide ProvenRank, PhaseRank;
  }

  // ----- one step -----

  /** The step writes nothing that runs ahead of the execution, and the process's copy stays right. */
  ghost predicate StepBacked(pc: ApplyPc, act: Act, d: Durable) {
    && (act.Do? ==> Enabled(d.store, act.write) && WriteBacked(d.store, act.write, d.execs)
                    && CopyKnown(pc, After(d.store, act.write).records))
    && (!act.Do? ==> CopyKnown(pc, d.store.records))
    && (act.PutExecution? && act.record.core.op !in d.execs ==>
          act.record.core.op in d.store.records && ProvenRank(d.store.records[act.record.core.op].lastProven) >= 3)
  }

  lemma RoundAdvances(s: Store, operation: OperationRecord, inputs: Inputs, target: OperationPhase)
    requires RecordsValid(s) && CopyOk(operation, inputs, s.records)
    requires PhaseRank(target).Some? && AdvanceRound(s, operation, target).Onward?
    ensures PhaseAfter(operation.phase).Some?
    ensures var a := AdvanceRound(s, operation, target);
      && a.write == UpdateRecord(inputs.op, Change.Advance(PhaseAfter(operation.phase).value))
      && PhaseRank(PhaseAfter(operation.phase).value).Some?
      && PhaseRank(PhaseAfter(operation.phase).value).value <= PhaseRank(target).value
      && CopyOk(a.operation, inputs, After(s, a.write).records)
  {
    hide CompletionVerified, IsCurrent, ValidRecord;
  }

  lemma AdvanceIsBacked(r: ExecutionRecord, target: OperationPhase, phase: OperationPhase, execs: map<Token,
                        ExecutionRecord>)
    requires r.core.op in execs && execs[r.core.op] == r && ExecutionOk(r) && AdvanceOk(r, target)
    requires PhaseRank(target).Some? && PhaseRank(phase).Some? && PhaseRank(phase).value <= PhaseRank(target).value
    ensures PhaseBacked(phase, execs, r.core.op)
  {
  }

  lemma WorkBacked(ctx: Context, r: ExecutionRecord, tasks: seq<Task>, d: Durable, choice: Choice)
    requires RecordsValid(d.store) && ExecsOk(d.execs) && tasks != [] && ApplyKnows(Working(ctx, r, tasks), d.execs)
    requires CopyKnown(Working(ctx, r, tasks), d.store.records)
    ensures var (pc, act) := WorkStep(ctx, r, tasks, d, choice); StepBacked(pc, act, d)
  {
    hide RecordsValid, ExecutionOk, ExecutionKept, Answered, TaskFrame, Continued, Enabled, After, ChangeRecorded;
    hide ExpiryRecorded, AdvanceRound, TasksOk;
    hide PhaseBacked, ProvenRank, PhaseRank;
    var task := tasks[0];
    assert TaskOk(r, task) by { FirstDue(r, tasks); }
    match task
    case AdvanceTo(target) =>
      var a := AdvanceRound(d.store, ctx.operation, target);
      if a.Onward? {
        AdvanceTargets(r, target);
        RoundAdvances(d.store, ctx.operation, ctx.inputs, target);
        AdvanceIsBacked(r, target, PhaseAfter(ctx.operation.phase).value, d.execs);
        WriteKeepsCopy(Working(ctx, r, tasks), d.store, a.write);
      }
    case GiveUpOperation =>
      ExpiryBacked(r, d.execs);
      if Enabled(d.store, UpdateRecord(r.core.op, Expire(r.core.connector))) {
        WriteKeepsCopy(Working(ctx, r, tasks), d.store, UpdateRecord(r.core.op, Expire(r.core.connector)));
      }
    case ObserveHandoff => ClaimTaskBacked(ctx, r, tasks, d, Observe);
    case ReleaseClaim => ClaimTaskBacked(ctx, r, tasks, d, Release);
    case GiveUpClaim => ClaimTaskBacked(ctx, r, tasks, d, ExpireClaim);
    case Continue => ContinuedKeepsCopy(ctx, r);
    case Persist(next) => SameOp(r, next);
    case Reissue =>
    case ask =>
      AnsweredKeepsCopy(ctx, r, ask, choice);
  }

  lemma FirstDue(r: ExecutionRecord, tasks: seq<Task>)
    requires tasks != [] && TasksOk(r, tasks)
    ensures TaskOk(r, tasks[0])
  {
  }

  lemma ExpiryBacked(r: ExecutionRecord, execs: map<Token, ExecutionRecord>)
    requires r.core.op in execs && execs[r.core.op] == r && r.phase.ExecExpired?
    ensures PhaseBacked(ExpiredUnclaimed, execs, r.core.op)
  {
  }

  lemma AdvanceTargets(r: ExecutionRecord, target: OperationPhase)
    requires AdvanceOk(r, target)
    ensures PhaseRank(target).Some?
  {
  }

  lemma WriteKeepsCopy(pc: ApplyPc, s: Store, w: Write)
    requires RecordsValid(s) && Enabled(s, w) && CopyKnown(pc, s.records)
    ensures CopyKnown(pc, After(s, w).records)
  {
    hide RecordsValid, Enabled, After, CopyKnown, RecordsGrow;
    WriteGrowsRecords(s, w);
    CopyStays(pc, s.records, After(s, w).records);
  }

  lemma ClaimTaskBacked(ctx: Context, r: ExecutionRecord, tasks: seq<Task>, d: Durable, change: ClaimChange)
    requires RecordsValid(d.store) && tasks != [] && CopyKnown(Working(ctx, r, tasks), d.store.records)
    ensures var (pc, act) := ClaimTask(d.store, ctx, r, tasks, change); StepBacked(pc, act, d)
  {
    hide RecordsValid, Enabled, After, ChangeRecorded, CopyOk, ArtifactsProven;
    var w := UpdateClaim(r.core.connector, change);
    if Enabled(d.store, w) {
      WriteKeepsCopy(Working(ctx, r, tasks), d.store, w);
    }
  }

  lemma ContinuedKeepsCopy(ctx: Context, r: ExecutionRecord)
    ensures Continued(ctx, r).Returned? || (Continued(ctx, r).Working? && Continued(ctx, r).ctx == ctx)
  {
  }

  lemma AnsweredKeepsCopy(ctx: Context, r: ExecutionRecord, task: Task, choice: Choice)
    ensures Answered(ctx, r, task, choice).Returned? || (Answered(ctx, r, task, choice).Working? && Answered(ctx, r, task, choice).ctx == ctx)
  {
    hide ValidatedResult, ValidatedStart;
  }

  lemma LoadedKeepsCopy(ctx: Context, r: ExecutionRecord)
    ensures Loaded(ctx, r).Returned? || (Loaded(ctx, r).Working? && Loaded(ctx, r).ctx == ctx)
  {
  }

  lemma ProvingBacked(ctx: Context, d: Durable)
    requires RecordsValid(d.store) && CopyOk(ctx.operation, ctx.inputs, d.store.records)
    ensures var (pc, act) := ApplyStep(Proving(ctx), d, false, Choice(Rejected, HostIds(0, 0, 0), Files(0, 0, 0, 0, 0), false));
      StepBacked(pc, act, d)
  {
    hide Enabled, After, RecordsValid;
    var a := AdvanceRound(d.store, ctx.operation, ArtifactsVerified);
    if a.Onward? {
      RoundAdvances(d.store, ctx.operation, ctx.inputs, ArtifactsVerified);
      assert PhaseBacked(a.write.change.to, d.execs, ctx.inputs.op);
    }
  }

  lemma EnteringKnows(inputs: Inputs, r: OperationRecord, records: map<Token, OperationRecord>)
    requires inputs.op in records && records[inputs.op] == r && r.core.op == inputs.op && ValidRecord(r)
    requires OperationMatches(r.core, inputs)
    ensures CopyOk(r, inputs, records)
  {
  }

  lemma RecordValid(s: Store, op: Token)
    requires RecordsValid(s) && op in s.records
    ensures s.records[op].core.op == op && ValidRecord(s.records[op])
  {
  }

  lemma ConnectorBacked(pc: ApplyPc, d: Durable)
    requires (pc.Publishing? || pc.Converging?) && RecordsValid(d.store) && CopyKnown(pc, d.store.records)
    ensures var (next, act) := ConnectorStep(pc, d); StepBacked(next, act, d)
  {
    hide ConnectorAllowed, ForeignClaim, Enabled, After, RecordsValid, CopyOk;
    if pc.Publishing? && Enabled(d.store, PublishConnectorOwner(pc.claim)) {
      WriteKeepsCopy(pc, d.store, PublishConnectorOwner(pc.claim));
    } else if pc.Converging? && Enabled(d.store, CreateClaim(pc.claim)) {
      WriteKeepsCopy(pc, d.store, CreateClaim(pc.claim));
    }
  }

  lemma StepIsBacked(pc: ApplyPc, d: Durable, free: bool, choice: Choice)
    requires RecordsValid(d.store) && ExecsOk(d.execs) && ApplyKnows(pc, d.execs) && CopyKnown(pc, d.store.records)
    ensures var (next, act) := ApplyStep(pc, d, free, choice); StepBacked(next, act, d)
  {
    hide RecordsValid, ExecsOk, WorkStep, ConnectorStep, AdvanceRound, Loaded, IdentityMatches, OperationMatches;
    hide LeaseGranted, ApplyKnows;
    hide ConnectorPredecessor, PreparedClaim, FilesMatchPlan, ValidRevision, HeaderFor, Enabled, After, PhaseBacked;
    match pc
    case Working(ctx, r, tasks) => if tasks != [] { WorkBacked(ctx, r, tasks, d, choice); }
    case Reading(ctx) => if ctx.inputs.op in d.execs { LoadedKeepsCopy(ctx, d.execs[ctx.inputs.op]); }
    case Creating(ctx, initial) => LoadedKeepsCopy(ctx, NewRecord(ctx.inputs, initial, choice.ids));
    case Publishing(_, _, _, _) => ConnectorBacked(pc, d);
    case Converging(_, _, _, _) => ConnectorBacked(pc, d);
    case Proving(ctx) => ProvingBacked(ctx, d);
    case Entering(inputs, _) =>
      if inputs.op in d.store.records {
        RecordValid(d.store, inputs.op);
        if OperationMatches(d.store.records[inputs.op].core, inputs) {
          EnteringKnows(inputs, d.store.records[inputs.op], d.store.records);
        }
      }
    case _ =>
  }

  lemma ForeignIsBacked(s: Store, w: Write, execs: map<Token, ExecutionRecord>)
    requires Foreign(s, w)
    ensures WriteBacked(s, w, execs)
  {
  }

  // ----- every world -----

  lemma ActsKeepsLag(w: ApplyWorld, w': ApplyWorld, p: nat, choice: Choice)
    requires ApplyOk(w) && LagOk(w) && Acts(w, w', p, choice)
    ensures LagOk(w')
  {
    hide ApplyStep, FilesOk, LeasesApart, ApplyKnows, CopyKnown, OperationsBehind, ExecutionsBacked, Enabled, FreshIds;
    hide ActOk, After;
    var free := w.apps[p].Leasing? && LeaseFree(w, w.apps[p].ctx.inputs.op);
    var (pc, act) := ApplyStep(w.apps[p], w.files, free, choice);
    FilesParts(w.files);
    StepOk(w.apps[p], w.files, free, choice);
    StepIsBacked(w.apps[p], w.files, free, choice);
    PerformKeepsLag(w.files, pc, act);
    forall q | q in w.apps && q != p ensures CopyKnown(w.apps[q], w'.files.store.records) {
      if act.Do? {
        WriteKeepsCopy(w.apps[q], w.files.store, act.write);
      }
    }
  }

  lemma FilesParts(d: Durable)
    requires FilesOk(d)
    ensures RecordsValid(d.store) && ClaimsValid(d.store) && ExecsOk(d.execs)
  {
    hide RecordsValid, ClaimsValid, ExecsOk, OwnersValid, Chained, HistoryCurrent, UnownedPlanned, Rooted, NoRepeats;
    hide AllSettledBehind;
  }

  lemma PerformKeepsLag(d: Durable, pc: ApplyPc, act: Act)
    requires RecordsValid(d.store) && ExecsOk(d.execs) && ActOk(act, d.execs) && StepBacked(pc, act, d)
    requires OperationsBehind(d.store.records, d.execs) && ExecutionsBacked(d.store.records, d.execs)
    ensures OperationsBehind(Perform(d, act).store.records, Perform(d, act).execs)
    ensures ExecutionsBacked(Perform(d, act).store.records, Perform(d, act).execs)
    ensures CopyKnown(pc, Perform(d, act).store.records)
  {
    hide RecordsValid, ExecsOk, ActOk, Enabled, WriteBacked, OperationsBehind, CopyKnown, HistoryAfter, After;
    match act
    case Do(w) => WriteKeepsBehind(d.store, w, d.execs);
    case PutExecution(_) => BehindGrows(d.store.records, d.execs, act);
    case _ =>
  }

  lemma NextKeepsLag(w: ApplyWorld, w': ApplyWorld)
    requires ApplyOk(w) && LagOk(w) && ApplyNext(w, w')
    ensures LagOk(w')
  {
    hide Acts, LosesReply, Meddles, ApplyOk, CopyKnown, OperationsBehind, ExecutionsBacked;
    if p, choice :| Acts(w, w', p, choice) {
      ActsKeepsLag(w, w', p, choice);
    } else if p :| LosesReply(w, w', p) {
      LosesKeepsLag(w, w', p);
    } else if write :| Meddles(w, w', write) {
      MeddlesKeepsLag(w, w', write);
    } else if p, inputs, expired :| Begins(w, w', p, inputs, expired) {
      EntryCopy(inputs, expired, w.files.store.records);
    } else {
    }
  }

  lemma EntryCopy(inputs: Inputs, expired: bool, records: map<Token, OperationRecord>)
    ensures CopyKnown(Entering(inputs, expired), records)
  {
  }

  lemma LosesKeepsLag(w: ApplyWorld, w': ApplyWorld, p: nat)
    requires LagOk(w) && LosesReply(w, w', p)
    ensures LagOk(w')
  {
    hide CopyKnown, OperationsBehind, ExecutionsBacked, TaskFrame;
  }

  lemma MeddlesKeepsLag(w: ApplyWorld, w': ApplyWorld, write: Write)
    requires ApplyOk(w) && LagOk(w) && Meddles(w, w', write)
    ensures LagOk(w')
  {
    hide FilesOk, LeasesApart, ApplyKnows, CopyKnown, OperationsBehind, ExecutionsBacked, Enabled, After, Foreign;
    hide WriteBacked;
    FilesParts(w.files);
    ForeignIsBacked(w.files.store, write, w.files.execs);
    WriteKeepsBehind(w.files.store, write, w.files.execs);
    forall q | q in w.apps ensures CopyKnown(w.apps[q], w'.files.store.records) {
      WriteKeepsCopy(w.apps[q], w.files.store, write);
    }
  }

  lemma {:induction false} RunKeepsLag(run: seq<ApplyWorld>)
    requires ApplyRun(run)
    ensures forall k :: 0 <= k < |run| ==> ApplyOk(run[k]) && LagOk(run[k])
  {
    hide ApplyNext, ApplyOk;
    ApplyRunOk(run);
    InitLag(run[0]);
    hide LagOk, ApplyInit;
    var k := 0;
    while k < |run| - 1
      invariant 0 <= k < |run|
      invariant forall j :: 0 <= j <= k ==> LagOk(run[j])
    {
      assert ApplyNext(run[k], run[k + 1]);
      NextKeepsLag(run[k], run[k + 1]);
      k := k + 1;
    }
  }

  lemma InitLag(w: ApplyWorld)
    requires ApplyInit(w)
    ensures LagOk(w)
  {
  }

  ghost predicate NeverAhead(r: OperationRecord, execs: map<Token, ExecutionRecord>, op: Token) {
    && (r.lastProven in {MaterialPrepared, ConfigsWritten} ==> Reaches(execs, op, 1))
    && (r.lastProven == ServicesConverged ==> Reaches(execs, op, 2))
    && (r.lastProven == ReadinessVerified ==> Reaches(execs, op, 3))
    && (r.lastProven == Completed ==> Reaches(execs, op, 4))
    && (r.lastProven == ExpiredUnclaimed ==> op in execs && execs[op].phase.ExecExpired?)
    && (op in execs && execs[op].core.bundle.Some? ==>
          ExecutionRank(execs[op].phase) <= 3 && r.lastProven !in {ReadinessVerified, Completed})
  }

  lemma BackedNeverAhead(r: OperationRecord, execs: map<Token, ExecutionRecord>, op: Token)
    requires ExecsOk(execs) && PhaseBacked(r.lastProven, execs, op)
    ensures NeverAhead(r, execs, op)
  {
    hide ExecutionOk;
    if op in execs && ExecutionRank(execs[op].phase) == 4 {
      BundleNeverFinalized(execs[op]);
    }
  }

  lemma BundleNeverFinalized(r: ExecutionRecord)
    requires ExecutionOk(r) && r.phase.ExecFinalized?
    ensures r.core.bundle.None?
  {
  }

  /** After a crash between any two writes, a connector-host operation is never ahead of its execution: past the
   *  material it is at least prepared, past the services started, past readiness running, completed finalized; an
   *  operation bound to an agent bundle never passes its services and its execution never passes running. */
  lemma OperationNeverAhead(run: seq<ApplyWorld>, k: nat, op: Token)
    requires ApplyRun(run) && k < |run|
    requires op in run[k].files.store.records && run[k].files.store.records[op].core.binding.workload.ConnectorHost?
    ensures NeverAhead(run[k].files.store.records[op], run[k].files.execs, op)
  {
    hide ApplyRun, ApplyOk, ExecutionsBacked, CopyKnown, NeverAhead, PhaseBacked, Ordered, IdsUnique, FramesOk, ExecsOk;
    RunKeepsLag(run);
    WorldFilesOk(run, k);
    assert LagOk(run[k]);
    BackedNeverAhead(run[k].files.store.records[op], run[k].files.execs, op);
  }

  /** An operation expires only after the Host proved that nothing happened: its sole connector's claim has expired, the
   *  no-effect reply to its Prepare is on record, and no Start or Finalize frame was ever sent for it. */
  lemma OperationExpiryHadNoEffect(run: seq<ApplyWorld>, k: nat, op: Token)
    requires ApplyRun(run) && k < |run|
    requires op in run[k].files.store.records && run[k].files.store.records[op].phase == ExpiredUnclaimed
    ensures var d := run[k].files; var core := d.store.records[op].core;
      && SoleConnector(core) && ClaimKey(SoleInstance(core), op) in d.store.claims
      && d.store.claims[ClaimKey(SoleInstance(core), op)].phase == ClaimExpired
      && op in d.execs && NoEffectProven(d.sent, d.execs[op].core)
      && (forall m :: m in d.sent && m.op == op ==> !m.frame.StartFrame? && !m.frame.FinalizeFrame?)
  {
    hide ApplyRun, NeverAhead, NoEffectProven, ExecsOk, IdsUnique, FramesOk, Consistent, Rooted, NoRepeats;
    hide AllSettledBehind, ConnectorsOrdered;
    WorldFilesOk(run, k);
    ExpiredIsConnectorHost(run[k].files, op);
    OperationNeverAhead(run, k, op);
    ExpiredAhead(run[k].files.store.records[op], run[k].files.execs, op);
    ExpiryHadNoEffect(run, k, op);
  }

  lemma ExpiredIsConnectorHost(d: Durable, op: Token)
    requires FilesOk(d) && op in d.store.records && d.store.records[op].phase == ExpiredUnclaimed
    ensures d.store.records[op].core.binding.workload.ConnectorHost? && d.store.records[op].lastProven == ExpiredUnclaimed
  {
    FilesParts(d);
    hide Ordered, ExecsOk, IdsUnique, FramesOk;
  }

  lemma ExpiredAhead(r: OperationRecord, execs: map<Token, ExecutionRecord>, op: Token)
    requires NeverAhead(r, execs, op) && r.lastProven == ExpiredUnclaimed
    ensures op in execs && execs[op].phase.ExecExpired?
  {
  }
}
