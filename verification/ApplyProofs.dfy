/** What every step of every applying process keeps, whatever the Host answers.
 */
module ApplyProofs {
  import opened Domain
  import opened StateActions
  import opened StateInvariants
  import opened StateProofs
  import opened Calls
  import opened Execution
  import opened ApplyMachine
  import Ownership

  // ----- invariants -----

  ghost predicate ExecsOk(execs: map<Token, ExecutionRecord>) {
    forall op :: op in execs ==> execs[op].core.op == op && ExecutionOk(execs[op])
  }

  ghost predicate IdsUnique(execs: map<Token, ExecutionRecord>) {
    forall a, b :: a in execs && b in execs && a != b ==> IdsApart(execs[a].core.ids, execs[b].core.ids)
  }

  /** The frame repeats what the durable record of its operation says. */
  ghost predicate FrameOk(m: Sent, execs: map<Token, ExecutionRecord>) {
    match m.frame
    case PrepareFrame(h) =>
      && m.op in execs
      && h == execs[m.op].prepareHeader.(payload := h.payload)
      && (h.payload == NoPayload || h.payload == execs[m.op].core.material)
    case StartFrame(request) =>
      && m.op in execs
      && ExecutionRank(execs[m.op].phase) >= 1 && execs[m.op].prepareResult.Some?
      && request == StartFor(execs[m.op].core, execs[m.op].prepareResult.value.revision)
    case FinalizeFrame(h) =>
      && m.op in execs
      && ExecutionRank(execs[m.op].phase) >= 3 && execs[m.op].finalizeHeader.Some?
      && h == execs[m.op].finalizeHeader.value.(payload := h.payload)
      && (h.payload == NoPayload || h.payload == FinalizeMaterialOf(execs[m.op].core.files, execs[m.op].core.plan))
    case ObserveFrame(tenant, hostId, connector) =>
      && m.op in execs
      && tenant == execs[m.op].core.tenant && hostId == execs[m.op].core.hostId && connector == execs[m.op].core.connector
    case SnapshotFrame(_, _) => true
  }

  ghost predicate FramesOk(sent: seq<Sent>, execs: map<Token, ExecutionRecord>) {
    forall k :: 0 <= k < |sent| ==> FrameOk(sent[k], execs)
  }

  /** How far the execution must have come before an operation is advanced to a phase. */
  predicate AdvanceOk(r: ExecutionRecord, target: OperationPhase) {
    match target
    case ConfigsWritten => ExecutionRank(r.phase) >= 1
    case ServicesConverged => ExecutionRank(r.phase) >= 2
    case ReadinessVerified => ExecutionRank(r.phase) >= 3 && r.core.bundle.None?
    case Completed => r.phase.ExecFinalized?
    case _ => false
  }

  ghost predicate TaskOk(r: ExecutionRecord, task: Task) {
    match task
    case ObserveHandoff => ExecutionRank(r.phase) >= 1
    case ReleaseClaim => r.phase.ExecFinalized?
    case GiveUpClaim | GiveUpOperation | Reissue => r.phase.ExecExpired?
    case AdvanceTo(target) => AdvanceOk(r, target)
    case Persist(next) => ExecutionOk(next) && ExecutionKept(r, next)
    case AskPrepare(_) => r.phase.ExecClaimed?
    case AskStart => r.phase.ExecPrepared?
    case AskObservation => r.phase.ExecStarted?
    case AskFinalize(_) => r.phase.ExecRunning? && r.finalizeHeader.Some?
    case Continue => !r.phase.ExecExpired?
  }

  /** Each task is due in the record as it will be when its turn comes. */
  ghost predicate TasksOk(r: ExecutionRecord, tasks: seq<Task>)
    decreases |tasks|
  {
    tasks != [] ==>
      TaskOk(r, tasks[0]) && TasksOk(if tasks[0].Persist? then tasks[0].next else r, tasks[1..])
  }

  /** What a process knows: its copy of the execution record is the durable one, because it holds the lease. */
  ghost predicate ApplyKnows(pc: ApplyPc, execs: map<Token, ExecutionRecord>) {
    match pc
    case Snapshotting(ctx) => ctx.inputs.op !in execs
    case Creating(ctx, initial) => ctx.inputs.op !in execs && ValidRevision(initial)
    case Working(ctx, r, tasks) => ctx.inputs.op in execs && execs[ctx.inputs.op] == r && TasksOk(r, tasks)
    case _ => true
  }

  ghost predicate LeasesApart(w: ApplyWorld) {
    forall p, q :: p in w.apps && q in w.apps && p != q && LeaseOf(w.apps[p]).Some? ==> LeaseOf(w.apps[p]) != LeaseOf(w.apps[q])
  }

  ghost predicate FilesOk(d: Durable) {
    && Ordered(d.store, d.history)
    && ExecsOk(d.execs)
    && IdsUnique(d.execs)
    && FramesOk(d.sent, d.execs)
  }

  ghost predicate ApplyOk(w: ApplyWorld) {
    && FilesOk(w.files)
    && LeasesApart(w)
    && forall p :: p in w.apps ==> ApplyKnows(w.apps[p], w.files.execs)
  }

  // ----- tasks -----

  ghost predicate GoesOn(pc: ApplyPc, ctx: Context, r: ExecutionRecord) {
    pc.Returned? || (pc.Working? && pc.ctx == ctx && pc.rec == r && TasksOk(r, pc.tasks))
  }

  lemma TwoTasks(r: ExecutionRecord, a: Task, b: Task)
    requires TaskOk(r, a) && !a.Persist? && TaskOk(r, b)
    ensures TasksOk(r, [a]) && TasksOk(r, [a, b])
  {
    OneTask(r, b);
    OneTask(r, a);
    assert [a, b][1..] == [b];
  }

  lemma OneTask(r: ExecutionRecord, a: Task)
    requires TaskOk(r, a)
    ensures TasksOk(r, [a])
  {
    assert [a][1..] == [];
  }

  lemma TasksJoin(r: ExecutionRecord, a: seq<Task>, b: seq<Task>)
    requires TasksOk(r, a) && TasksOk(r, b) && forall k :: 0 <= k < |a| ==> !a[k].Persist?
    ensures TasksOk(r, a + b)
  {
    if a == [] {
      assert a + b == b;
    } else {
      assert (a + b)[1..] == a[1..] + b;
      TasksJoin(r, a[1..], b);
    }
  }

  lemma PersistThen(r: ExecutionRecord, next: ExecutionRecord, rest: seq<Task>)
    requires ExecutionOk(next) && ExecutionKept(r, next) && TasksOk(next, rest)
    ensures TasksOk(r, [Persist(next)] + rest)
  {
    assert ([Persist(next)] + rest)[1..] == rest;
  }

  lemma ProjectionDue(r: ExecutionRecord)
    requires !r.phase.ExecExpired?
    ensures TasksOk(r, Projection(r) + [Continue])
  {
    hide TasksOk;
    var p1 := if ExecutionRank(r.phase) >= 1 then [ObserveHandoff, AdvanceTo(ConfigsWritten)] else [];
    var p2 := if ExecutionRank(r.phase) >= 2 then [AdvanceTo(ServicesConverged)] else [];
    var p3 := if ExecutionRank(r.phase) >= 3 && r.core.bundle.None? then [AdvanceTo(ReadinessVerified)] else [];
    var p4 := if r.phase.ExecFinalized? then [ReleaseClaim, AdvanceTo(Completed)] else [];
    NoTasks(r);
    if ExecutionRank(r.phase) >= 1 { TwoTasks(r, ObserveHandoff, AdvanceTo(ConfigsWritten)); }
    if ExecutionRank(r.phase) >= 2 { OneTask(r, AdvanceTo(ServicesConverged)); }
    if ExecutionRank(r.phase) >= 3 && r.core.bundle.None? { OneTask(r, AdvanceTo(ReadinessVerified)); }
    if r.phase.ExecFinalized? { TwoTasks(r, ReleaseClaim, AdvanceTo(Completed)); }
    OneTask(r, Continue);
    TasksJoin(r, p1, p2);
    TasksJoin(r, p1 + p2, p3);
    TasksJoin(r, p1 + p2 + p3, p4);
    TasksJoin(r, p1 + p2 + p3 + p4, [Continue]);
  }

  lemma NoTasks(r: ExecutionRecord)
    ensures TasksOk(r, [])
  {
  }

  lemma LoadedOk(ctx: Context, r: ExecutionRecord)
    ensures GoesOn(Loaded(ctx, r), ctx, r)
  {
    if r.phase.ExecExpired? {
      TwoTasks(r, GiveUpOperation, Reissue);
      OneTask(r, GiveUpClaim);
      TasksJoin(r, [GiveUpClaim], [GiveUpOperation, Reissue]);
      assert [] + [GiveUpOperation, Reissue] == [GiveUpOperation, Reissue];
    } else {
      ProjectionDue(r);
    }
  }

  lemma ContinuedOk(ctx: Context, r: ExecutionRecord)
    requires ExecutionOk(r) && !r.phase.ExecExpired?
    ensures GoesOn(Continued(ctx, r), ctx, r)
  {
    hide TasksOk, ExecutionOk;
    match r.phase
    case ExecClaimed => OneTask(r, AskPrepare(false));
    case ExecPrepared => OneTask(r, AskStart);
    case ExecStarted => OneTask(r, AskObservation);
    case ExecRunning =>
      if r.core.bundle.None? && r.runningRevision.Some? {
        var header := HeaderFor(r.core, r.prepareResult, FinalizeMaterial, r.runningRevision.value, NoPayload);
        if header.Ok? && r.finalizeHeader.None? {
          var next := r.(finalizeHeader := Some(header.value));
          HeaderPersisted(r, header.value);
          OneTask(next, AskFinalize(false));
          PersistThen(r, next, [AskFinalize(false)]);
          assert [Persist(next)] + [AskFinalize(false)] == [Persist(next), AskFinalize(false)];
        } else {
          if r.finalizeHeader.Some? { OneTask(r, AskFinalize(false)); }
        }
      }
    case ExecFinalized =>
  }

  lemma HeaderPersisted(r: ExecutionRecord, header: Header)
    requires ExecutionOk(r) && r.phase.ExecRunning? && r.core.bundle.None? && r.finalizeHeader.None?
    requires HeaderFor(r.core, r.prepareResult, FinalizeMaterial, r.runningRevision.value, NoPayload) == Ok(header)
    ensures ExecutionOk(r.(finalizeHeader := Some(header))) && ExecutionKept(r, r.(finalizeHeader := Some(header)))
  {
  }

  // ----- replies -----

  lemma PrepareDoneOk(ctx: Context, r: ExecutionRecord, result: MaterialResult)
    requires ExecutionOk(r) && r.phase.ExecClaimed?
    requires ValidatedResult(result, r.core, None, PrepareMaterial, r.core.initial).Ok?
    ensures GoesOn(PrepareDone(ctx, r, result), ctx, r)
  {
    hide TasksOk, ExecutionOk;
    if ExpiredPrepare(result) {
      var next := r.(phase := ExecExpired);
      ExpiryPersisted(r);
      TwoTasks(next, GiveUpOperation, Reissue);
      OneTask(next, GiveUpClaim);
      TasksJoin(next, [GiveUpClaim], [GiveUpOperation, Reissue]);
      PersistThen(r, next, [GiveUpClaim] + [GiveUpOperation, Reissue]);
      assert [Persist(next)] + ([GiveUpClaim] + [GiveUpOperation, Reissue]) == [Persist(next), GiveUpClaim, GiveUpOperation, Reissue];
    } else {
      var next := r.(prepareResult := Some(result), phase := ExecPrepared);
      PreparePersisted(r, result);
      TwoTasks(next, ObserveHandoff, AdvanceTo(ConfigsWritten));
      OneTask(next, Continue);
      TasksJoin(next, [ObserveHandoff, AdvanceTo(ConfigsWritten)], [Continue]);
      PersistThen(r, next, [ObserveHandoff, AdvanceTo(ConfigsWritten)] + [Continue]);
      assert [Persist(next)] + ([ObserveHandoff, AdvanceTo(ConfigsWritten)] + [Continue])
          == [Persist(next), ObserveHandoff, AdvanceTo(ConfigsWritten), Continue];
    }
  }

  lemma ExpiryPersisted(r: ExecutionRecord)
    requires ExecutionOk(r) && r.phase.ExecClaimed?
    ensures ExecutionOk(r.(phase := ExecExpired)) && ExecutionKept(r, r.(phase := ExecExpired))
  {
  }

  lemma PreparePersisted(r: ExecutionRecord, result: MaterialResult)
    requires ExecutionOk(r) && r.phase.ExecClaimed? && !ExpiredPrepare(result)
    requires ValidatedResult(result, r.core, None, PrepareMaterial, r.core.initial).Ok?
    ensures var next := r.(prepareResult := Some(result), phase := ExecPrepared); ExecutionOk(next) && ExecutionKept(r, next)
  {
  }

  lemma StartDoneOk(ctx: Context, r: ExecutionRecord, revision: Revision)
    requires ExecutionOk(r) && r.phase.ExecPrepared? && NextRevision(r.prepareResult.value.revision, revision)
    ensures GoesOn(StartDone(ctx, r, revision), ctx, r)
  {
    hide TasksOk;
    var next := r.(startRevision := Some(revision), phase := ExecStarted);
    assert ExecutionOk(next) && ExecutionKept(r, next);
    hide ExecutionOk, ExecutionKept;
    TwoTasks(next, AdvanceTo(ServicesConverged), Continue);
    PersistThen(r, next, [AdvanceTo(ServicesConverged), Continue]);
    assert [Persist(next)] + [AdvanceTo(ServicesConverged), Continue] == [Persist(next), AdvanceTo(ServicesConverged), Continue];
  }

  lemma ObserveDoneOk(ctx: Context, r: ExecutionRecord, revision: Revision)
    requires ExecutionOk(r) && r.phase.ExecStarted? && r.startRevision == Some(revision)
    ensures GoesOn(ObserveDone(ctx, r, revision), ctx, r)
  {
    hide TasksOk;
    var next := r.(runningRevision := Some(revision), phase := ExecRunning);
    assert ExecutionOk(next) && ExecutionKept(r, next);
    hide ExecutionOk, ExecutionKept;
    OneTask(next, Continue);
    if r.core.bundle.None? {
      TwoTasks(next, AdvanceTo(ReadinessVerified), Continue);
      PersistThen(r, next, [AdvanceTo(ReadinessVerified), Continue]);
      assert [Persist(next)] + [AdvanceTo(ReadinessVerified), Continue] == [Persist(next)] + [AdvanceTo(ReadinessVerified)] + [Continue];
    } else {
      PersistThen(r, next, [Continue]);
      assert [Persist(next)] + [Continue] == [Persist(next)] + [] + [Continue];
    }
  }

  lemma FinalizeDoneOk(ctx: Context, r: ExecutionRecord, result: MaterialResult)
    requires ExecutionOk(r) && r.phase.ExecRunning? && r.finalizeHeader.Some?
    requires ValidatedResult(result, r.core, r.prepareResult, FinalizeMaterial, r.runningRevision.value).Ok?
    ensures GoesOn(FinalizeDone(ctx, r, result), ctx, r)
  {
    hide TasksOk;
    var next := r.(finalizeResult := Some(result), phase := ExecFinalized);
    FinalizePersisted(r, result);
    hide ExecutionOk, ExecutionKept;
    TwoTasks(next, ReleaseClaim, AdvanceTo(Completed));
    OneTask(next, Continue);
    TasksJoin(next, [ReleaseClaim, AdvanceTo(Completed)], [Continue]);
    PersistThen(r, next, [ReleaseClaim, AdvanceTo(Completed)] + [Continue]);
    assert [Persist(next)] + ([ReleaseClaim, AdvanceTo(Completed)] + [Continue])
        == [Persist(next), ReleaseClaim, AdvanceTo(Completed), Continue];
  }

  lemma FinalizePersisted(r: ExecutionRecord, result: MaterialResult)
    requires ExecutionOk(r) && r.phase.ExecRunning? && r.finalizeHeader.Some?
    requires ValidatedResult(result, r.core, r.prepareResult, FinalizeMaterial, r.runningRevision.value).Ok?
    ensures var next := r.(finalizeResult := Some(result), phase := ExecFinalized); ExecutionOk(next) && ExecutionKept(r, next)
  {
  }

  /** Whatever the Host replies, the process ends or goes on with tasks that are due. */
  lemma AnsweredOk(ctx: Context, r: ExecutionRecord, task: Task, choice: Choice)
    requires ExecutionOk(r) && Asks(task) && TaskOk(r, task)
    ensures GoesOn(Answered(ctx, r, task, choice), ctx, r)
  {
    hide TasksOk, ValidatedResult, PrepareDone, StartDone, ObserveDone, FinalizeDone, HeaderFor, NextRevision;
    match task
    case AskPrepare(_) =>
      OneTask(r, AskPrepare(true));
      if choice.reply.MaterialReply? { PrepareAnsweredOk(ctx, r, choice.reply.result); }
    case AskStart =>
      if choice.reply.StartReply? && r.prepareResult.Some?
         && ValidatedStart(choice.reply.started, r.core, r.prepareResult.value.revision).Ok? {
        StartDoneOk(ctx, r, choice.reply.started.revision);
      }
    case AskObservation =>
      OneTask(r, AskObservation);
      if choice.reply.ObservationReply? && r.startRevision == Some(choice.reply.observed) {
        ObserveDoneOk(ctx, r, choice.reply.observed);
      }
    case AskFinalize(_) =>
      OneTask(r, AskFinalize(true));
      if choice.reply.MaterialReply? { FinalizeAnsweredOk(ctx, r, choice.reply); }
  }

  lemma PrepareAnsweredOk(ctx: Context, r: ExecutionRecord, result: MaterialResult)
    requires ExecutionOk(r) && r.phase.ExecClaimed?
    ensures GoesOn(PrepareAnswered(ctx, r, result), ctx, r)
  {
    hide TasksOk, ExecutionOk, ValidatedResult, PrepareDone;
    if ValidatedResult(result, r.core, None, PrepareMaterial, r.core.initial).Ok? {
      PrepareDoneOk(ctx, r, result);
    }
  }

  lemma FinalizeAnsweredOk(ctx: Context, r: ExecutionRecord, reply: Reply)
    requires ExecutionOk(r) && r.phase.ExecRunning? && r.finalizeHeader.Some?
    ensures GoesOn(FinalizeAnswered(ctx, r, reply), ctx, r)
  {
    hide TasksOk, ExecutionOk, ValidatedResult, FinalizeDone;
    if reply.MaterialReply? && r.runningRevision.Some?
       && ValidatedResult(reply.result, r.core, r.prepareResult, FinalizeMaterial, r.runningRevision.value).Ok? {
      FinalizeDoneOk(ctx, r, reply.result);
    }
  }

  // ----- one step -----

  /** A step replaces an execution record only by a later state of it, or creates one with identifiers of its own, and
   *  sends only frames that repeat the durable record. */
  ghost predicate ActOk(act: Act, execs: map<Token, ExecutionRecord>) {
    match act
    case PutExecution(r) =>
      && ExecutionOk(r)
      && (if r.core.op in execs then ExecutionKept(execs[r.core.op], r) else FreshIds(r.core.ids, execs))
    case Send(m) => FrameOk(m, execs)
    case _ => true
  }

  function ExecsAfter(execs: map<Token, ExecutionRecord>, act: Act): map<Token, ExecutionRecord> {
    if act.PutExecution? then execs[act.record.core.op := act.record] else execs
  }

  lemma TaskFrameOk(r: ExecutionRecord, task: Task, execs: map<Token, ExecutionRecord>)
    requires r.core.op in execs && execs[r.core.op] == r && ExecutionOk(r) && Asks(task) && TaskOk(r, task)
    requires TaskFrame(r, task).Ok?
    ensures forall reply :: FrameOk(Sent(r.core.op, TaskFrame(r, task).value, reply), execs)
  {
  }

  lemma WorkOk(ctx: Context, r: ExecutionRecord, tasks: seq<Task>, d: Durable, choice: Choice)
    requires ExecsOk(d.execs) && tasks != [] && ApplyKnows(Working(ctx, r, tasks), d.execs)
    ensures var (pc, act) := WorkStep(ctx, r, tasks, d, choice);
      ActOk(act, d.execs) && ApplyKnows(pc, ExecsAfter(d.execs, act)) && (pc.Working? ==> pc.ctx.inputs == ctx.inputs)
      && (act.PutExecution? ==> act.record.core.op == ctx.inputs.op)
  {
    hide ExecutionOk, ExecutionKept, Answered, TaskFrame, FrameOk, Continued, Enabled, After, ChangeRecorded;
    hide ExpiryRecorded, AdvanceRound;
    var task := tasks[0];
    if Asks(task) {
      if TaskFrame(r, task).Ok? {
        TaskFrameOk(r, task, d.execs);
        AnsweredOk(ctx, r, task, choice);
      }
    } else if task.Continue? {
      ContinuedOk(ctx, r);
    } else if task.Persist? {
      SameOp(r, task.next);
    }
  }

  lemma SameOp(r: ExecutionRecord, next: ExecutionRecord)
    requires ExecutionKept(r, next)
    ensures next.core == r.core
  {
  }

  lemma CreatedOk(inputs: Inputs, initial: Revision, ids: HostIds, execs: map<Token, ExecutionRecord>)
    requires ValidRevision(initial) && DistinctIds(ids)
    ensures var r := NewRecord(inputs, initial, ids); ExecutionOk(r) && r.core.op == inputs.op && r.core.ids == ids && r.phase.ExecClaimed?
  {
  }

  lemma StepOk(pc: ApplyPc, d: Durable, free: bool, choice: Choice)
    requires ExecsOk(d.execs) && ApplyKnows(pc, d.execs)
    requires pc.Creating? ==> FreshIds(choice.ids, d.execs)
    ensures var (next, act) := ApplyStep(pc, d, free, choice);
      ActOk(act, d.execs) && ApplyKnows(next, ExecsAfter(d.execs, act))
      && (LeaseOf(next).Some? ==> LeaseOf(next) == LeaseOf(pc) || (pc.Leasing? && free && LeaseOf(next) == Some(pc.ctx.inputs.op)))
      && (act.PutExecution? ==> LeaseOf(pc) == Some(act.record.core.op))
  {
    hide ExecutionOk, FrameOk, TasksOk, WorkStep, ConnectorStep, AdvanceRound, Loaded, NewRecord, IdentityMatches;
    hide OperationMatches;
    hide LeaseGranted, ConnectorPredecessor, PreparedClaim, ExecutionKept;
    match pc
    case Working(ctx, r, tasks) =>
      if tasks != [] { WorkOk(ctx, r, tasks, d, choice); WorkStays(ctx, r, tasks, d, choice); }
    case Reading(ctx) =>
      if ctx.inputs.op in d.execs { LoadedOk(ctx, d.execs[ctx.inputs.op]); }
    case Creating(ctx, initial) =>
      CreatedOk(ctx.inputs, initial, choice.ids, d.execs);
      LoadedOk(ctx, NewRecord(ctx.inputs, initial, choice.ids));
    case Publishing(_, _, _, _) => ConnectorStaysOut(pc, d);
    case Converging(_, _, _, _) => ConnectorStaysOut(pc, d);
    case Snapshotting(ctx) => SnapshotOk(ctx.inputs.op, d.execs);
    case _ =>
  }

  lemma SnapshotOk(op: Token, execs: map<Token, ExecutionRecord>)
    ensures forall tenant, hostId, reply :: FrameOk(Sent(op, SnapshotFrame(tenant, hostId), reply), execs)
  {
  }

  lemma ConnectorStaysOut(pc: ApplyPc, d: Durable)
    requires pc.Publishing? || pc.Converging?
    ensures var (next, act) := ConnectorStep(pc, d); LeaseOf(next).None? && !next.Creating? && (act.Skip? || act.Do?)
  {
    hide ConnectorAllowed, ForeignClaim, Enabled;
  }

  lemma WorkStays(ctx: Context, r: ExecutionRecord, tasks: seq<Task>, d: Durable, choice: Choice)
    requires tasks != []
    ensures var (pc, act) := WorkStep(ctx, r, tasks, d, choice); pc.Returned? || (pc.Working? && pc.ctx.inputs == ctx.inputs)
  {
    hide Enabled, After, ChangeRecorded, ExpiryRecorded, AdvanceRound, TaskFrame, HeaderFor, ValidatedResult, ValidatedStart;
  }

  // ----- the files -----

  lemma FrameKept(m: Sent, execs: map<Token, ExecutionRecord>, execs': map<Token, ExecutionRecord>)
    requires FrameOk(m, execs)
    requires m.op in execs ==> m.op in execs' && ExecutionKept(execs[m.op], execs'[m.op])
    ensures FrameOk(m, execs')
  {
  }

  lemma KeptReflexive(r: ExecutionRecord)
    ensures ExecutionKept(r, r)
  {
  }

  lemma KeptTransitive(a: ExecutionRecord, b: ExecutionRecord, c: ExecutionRecord)
    requires ExecutionKept(a, b) && ExecutionKept(b, c)
    ensures ExecutionKept(a, c)
  {
  }

  /** Every execution of the earlier files is there in the later, in the same or a later state. */
  ghost predicate ExecsGrow(execs: map<Token, ExecutionRecord>, execs': map<Token, ExecutionRecord>) {
    forall op :: op in execs ==> op in execs' && ExecutionKept(execs[op], execs'[op])
  }

  lemma ActGrows(act: Act, execs: map<Token, ExecutionRecord>)
    requires ActOk(act, execs)
    ensures ExecsGrow(execs, ExecsAfter(execs, act))
  {
    hide ExecutionOk, FrameOk;
    forall op | op in execs ensures op in ExecsAfter(execs, act) && ExecutionKept(execs[op], ExecsAfter(execs, act)[op]) {
      KeptReflexive(execs[op]);
    }
  }

  lemma FramesKept(sent: seq<Sent>, execs: map<Token, ExecutionRecord>, execs': map<Token, ExecutionRecord>)
    requires FramesOk(sent, execs) && ExecsGrow(execs, execs')
    ensures FramesOk(sent, execs')
  {
    hide FrameOk, ExecutionKept;
    forall k | 0 <= k < |sent| ensures FrameOk(sent[k], execs') {
      FrameKept(sent[k], execs, execs');
    }
  }

  lemma ExecsStayOk(act: Act, execs: map<Token, ExecutionRecord>)
    requires ActOk(act, execs) && ExecsOk(execs) && IdsUnique(execs)
    ensures ExecsOk(ExecsAfter(execs, act)) && IdsUnique(ExecsAfter(execs, act))
  {
    hide ExecutionOk, FrameOk;
  }

  lemma FilesStayOk(d: Durable, act: Act)
    requires FilesOk(d) && ActOk(act, d.execs) && (act.Do? ==> Enabled(d.store, act.write))
    ensures FilesOk(Perform(d, act))
  {
    hide ExecsOk, IdsUnique, Ordered, Enabled, After, HistoryAfter, FrameOk, ExecsGrow, ExecutionKept;
    ExecsStayOk(act, d.execs);
    ActGrows(act, d.execs);
    FramesKept(d.sent, d.execs, ExecsAfter(d.execs, act));
    if act.Do? {
      WriteOrdered(d.store, d.history, act.write);
    }
  }

  // ----- the processes -----

  /** Another process's copy stays the durable one, because only the lease holder writes its record. */
  lemma OthersKeepKnowing(pc: ApplyPc, act: Act, execs: map<Token, ExecutionRecord>)
    requires ApplyKnows(pc, execs) && (act.PutExecution? ==> LeaseOf(pc) != Some(act.record.core.op))
    ensures ApplyKnows(pc, ExecsAfter(execs, act))
  {
    hide TasksOk;
  }

  lemma ActsKeepsOk(w: ApplyWorld, w': ApplyWorld, p: nat, choice: Choice)
    requires ApplyOk(w) && Acts(w, w', p, choice)
    ensures ApplyOk(w')
  {
    hide ApplyStep, ActOk, LeaseOf, ApplyKnows, Ordered, ExecsOk, IdsUnique, FramesOk, FreshIds, Enabled;
    var free := w.apps[p].Leasing? && LeaseFree(w, w.apps[p].ctx.inputs.op);
    var (pc, act) := ApplyStep(w.apps[p], w.files, free, choice);
    StepOk(w.apps[p], w.files, free, choice);
    FilesStayOk(w.files, act);
    PerformExecs(w.files, act);
    forall q | q in w'.apps ensures ApplyKnows(w'.apps[q], w'.files.execs) {
      if q != p {
        OthersKeepKnowing(w.apps[q], act, w.files.execs);
      }
    }
    assert LeasesApart(w') by {
      forall q, r | q in w'.apps && r in w'.apps && q != r && LeaseOf(w'.apps[q]).Some?
        ensures LeaseOf(w'.apps[q]) != LeaseOf(w'.apps[r]) {
        LeaseStaysApart(w, w', p, pc, free, q, r);
      }
    }
  }

  lemma PerformExecs(d: Durable, act: Act)
    requires act.Do? ==> Enabled(d.store, act.write)
    ensures Perform(d, act).execs == ExecsAfter(d.execs, act)
  {
    hide Enabled, After, HistoryAfter;
  }

  lemma LeaseStaysApart(w: ApplyWorld, w': ApplyWorld, p: nat, pc: ApplyPc, free: bool, q: nat, r: nat)
    requires LeasesApart(w) && p in w.apps && w'.apps == w.apps[p := pc]
    requires free ==> w.apps[p].Leasing? && LeaseFree(w, w.apps[p].ctx.inputs.op)
    requires LeaseOf(pc).Some? ==>
      LeaseOf(pc) == LeaseOf(w.apps[p]) || (w.apps[p].Leasing? && free && LeaseOf(pc) == Some(w.apps[p].ctx.inputs.op))
    requires q in w'.apps && r in w'.apps && q != r && LeaseOf(w'.apps[q]).Some?
    ensures LeaseOf(w'.apps[q]) != LeaseOf(w'.apps[r])
  {
    hide LeaseOf;
  }

  lemma ApplyNextOk(w: ApplyWorld, w': ApplyWorld)
    requires ApplyOk(w) && ApplyNext(w, w')
    ensures ApplyOk(w')
  {
    hide ApplyOk, Acts, LosesReply, Meddles;
    if p, choice :| Acts(w, w', p, choice) {
      ActsKeepsOk(w, w', p, choice);
    } else if p :| LosesReply(w, w', p) {
      LosesKeepsOk(w, w', p);
    } else if write :| Meddles(w, w', write) {
      MeddlesKeepsOk(w, w', write);
    } else {
      AppsKeepOk(w, w');
    }
  }

  lemma LosesKeepsOk(w: ApplyWorld, w': ApplyWorld, p: nat)
    requires ApplyOk(w) && LosesReply(w, w', p)
    ensures ApplyOk(w')
  {
    hide Ordered, IdsUnique, ExecutionOk, FrameOk, TaskFrame, LeaseOf, FramesOk;
    var r, task := w.apps[p].rec, w.apps[p].tasks[0];
    assert ApplyKnows(w.apps[p], w.files.execs);
    TaskFrameOk(r, task, w.files.execs);
    FilesStayOk(w.files, Send(Sent(r.core.op, TaskFrame(r, task).value, None)));
  }

  lemma MeddlesKeepsOk(w: ApplyWorld, w': ApplyWorld, write: Write)
    requires ApplyOk(w) && Meddles(w, w', write)
    ensures ApplyOk(w')
  {
    hide FilesOk, Enabled, Foreign, LeaseOf, ApplyKnows;
    FilesStayOk(w.files, Do(write));
  }

  lemma AppsKeepOk(w: ApplyWorld, w': ApplyWorld)
    requires ApplyOk(w) && w'.files == w.files
    requires (exists p, inputs, expired :: Begins(w, w', p, inputs, expired)) || (exists p :: Dies(w, w', p))
    ensures ApplyOk(w')
  {
    hide FilesOk, TasksOk;
  }

  lemma ApplyInitOk(w: ApplyWorld)
    requires ApplyInit(w)
    ensures ApplyOk(w)
  {
    Ownership.LegacyOrdered(w.files.store, w.files.history);
    hide Ordered, StateInvariants.Dangles;
  }

  /** In every world of every run the execution records, the frames sent and the leases are as they should be. */
  lemma {:induction false} ApplyRunOk(run: seq<ApplyWorld>)
    requires ApplyRun(run)
    ensures forall k :: 0 <= k < |run| ==> ApplyOk(run[k])
  {
    hide ApplyOk, ApplyInit, ApplyNext;
    var k := 0;
    ApplyInitOk(run[0]);
    while k < |run| - 1
      invariant 0 <= k < |run|
      invariant forall j :: 0 <= j <= k ==> ApplyOk(run[j])
    {
      assert ApplyNext(run[k], run[k + 1]);
      ApplyNextOk(run[k], run[k + 1]);
      k := k + 1;
    }
  }
}
