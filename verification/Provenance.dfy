/** Nothing is recorded of an execution that the Host did not say in reply to one of its frames.
 */
module Provenance {
  import opened Domain
  import opened StateActions
  import opened StateInvariants
  import opened Calls
  import opened Execution
  import opened ApplyMachine
  import opened ApplyProofs
  import HostFrames

  // ----- what the Host must have said -----

  /** The Host named by the plan told this revision of itself. */
  ghost predicate SnapshotAnswer(m: Sent, op: Token, host: Host, revision: Revision) {
    && m.op == op && m.frame.SnapshotFrame?
    && m.reply == Some(SnapshotReply(host.tenant, host.hostId, revision))
  }

  /** A Prepare frame of the execution was answered by the recorded result: applied or replayed, about this connector,
   *  with a prepare receipt and no other. */
  ghost predicate PreparedAnswer(m: Sent, r: ExecutionRecord) {
    && m.op == r.core.op && m.frame.PrepareFrame? && r.prepareResult.Some?
    && m.reply == Some(MaterialReply(r.prepareResult.value))
    && var said := r.prepareResult.value;
    && said.operation == PrepareMaterial && said.connector == r.core.connector && said.state == StatePrepared
    && said.disposition == DispositionApplied && (said.application == Applied || said.application == Replayed)
    && said.prepared.Some? && said.prepared.value.Receipt? && said.finalized.None?
  }

  /** The connector as it should be: this one, with the adapter and release of the execution, told to run. */
  ghost predicate RightConnector(said: ConnectorProjection, core: ExecutionCore) {
    && said.connector == core.connector && said.adapter == core.adapter && said.release == core.release
    && said.desired == DesiredRunning
  }

  ghost predicate StartedAnswer(m: Sent, r: ExecutionRecord) {
    && m.op == r.core.op && m.frame.StartFrame?
    && m.reply.Some? && m.reply.value.StartReply?
    && var said := m.reply.value.started;
    && r.startRevision == Some(said.revision) && said.disposition == DispositionApplied
    && RightConnector(said.connector, r.core) && said.connector.generation > 0
  }

  ghost predicate RunningAnswer(m: Sent, r: ExecutionRecord) {
    && m.op == r.core.op && m.frame.ObserveFrame?
    && m.reply.Some? && m.reply.value.ObservationReply?
    && var said := m.reply.value;
    && r.runningRevision == Some(said.observed) && RightConnector(said.connector, r.core)
    && said.actual == ObservedRunning && said.connector.recorded == ObservedRunning
  }

  ghost predicate FinalizedAnswer(m: Sent, r: ExecutionRecord) {
    && m.op == r.core.op && m.frame.FinalizeFrame? && r.finalizeResult.Some? && r.prepareResult.Some?
    && m.reply == Some(MaterialReply(r.finalizeResult.value))
    && var said := r.finalizeResult.value;
    && said.operation == FinalizeMaterial && said.connector == r.core.connector && said.state == StateFinalized
    && said.disposition == DispositionApplied && (said.application == Applied || said.application == Replayed)
    && said.prepared == r.prepareResult.value.prepared
    && said.finalized.Some? && said.finalized.value.Receipt?
  }

  ghost predicate InitialSaid(sent: seq<Sent>, op: Token, host: Host, revision: Revision) {
    exists k :: 0 <= k < |sent| && SnapshotAnswer(sent[k], op, host, revision)
  }

  ghost predicate Said(sent: seq<Sent>, r: ExecutionRecord) {
    && InitialSaid(sent, r.core.op, r.core.plan.host, r.core.initial)
    && (r.prepareResult.Some? ==> exists k :: 0 <= k < |sent| && PreparedAnswer(sent[k], r))
    && (r.startRevision.Some? ==> exists k :: 0 <= k < |sent| && StartedAnswer(sent[k], r))
    && (r.runningRevision.Some? ==> exists k :: 0 <= k < |sent| && RunningAnswer(sent[k], r))
    && (r.finalizeResult.Some? ==> exists k :: 0 <= k < |sent| && FinalizedAnswer(sent[k], r))
  }

  // ----- the log grows -----

  /** The same results, so the same answers. */
  ghost predicate SameResults(r: ExecutionRecord, next: ExecutionRecord) {
    && next.core == r.core
    && next.prepareResult == r.prepareResult && next.startRevision == r.startRevision
    && next.runningRevision == r.runningRevision && next.finalizeResult == r.finalizeResult
  }

  lemma SaidStays(sent: seq<Sent>, sent': seq<Sent>, r: ExecutionRecord, next: ExecutionRecord)
    requires sent <= sent' && Said(sent, r) && SameResults(r, next)
    ensures Said(sent', next)
  {
    InitialStaysSaid(sent, sent', r.core.op, r.core.plan.host, r.core.initial);
    if r.prepareResult.Some? {
      var k :| 0 <= k < |sent| && PreparedAnswer(sent[k], r);
      assert PreparedAnswer(sent'[k], next);
    }
    if r.startRevision.Some? {
      var k :| 0 <= k < |sent| && StartedAnswer(sent[k], r);
      assert StartedAnswer(sent'[k], next);
    }
    if r.runningRevision.Some? {
      var k :| 0 <= k < |sent| && RunningAnswer(sent[k], r);
      assert RunningAnswer(sent'[k], next);
    }
    if r.finalizeResult.Some? {
      var k :| 0 <= k < |sent| && FinalizedAnswer(sent[k], r);
      assert FinalizedAnswer(sent'[k], next);
    }
  }

  lemma InitialStaysSaid(sent: seq<Sent>, sent': seq<Sent>, op: Token, host: Host, revision: Revision)
    requires sent <= sent' && InitialSaid(sent, op, host, revision)
    ensures InitialSaid(sent', op, host, revision)
  {
    var k :| 0 <= k < |sent| && SnapshotAnswer(sent[k], op, host, revision);
    assert SnapshotAnswer(sent'[k], op, host, revision);
  }

  ghost predicate TasksSaid(tasks: seq<Task>, sent: seq<Sent>) {
    forall k :: 0 <= k < |tasks| && tasks[k].Persist? ==> Said(sent, tasks[k].next)
  }

  ghost predicate PcSaid(pc: ApplyPc, sent: seq<Sent>) {
    && (pc.Working? ==> Said(sent, pc.rec) && TasksSaid(pc.tasks, sent))
    && (pc.Creating? ==> InitialSaid(sent, pc.ctx.inputs.op, pc.ctx.inputs.plan.host, pc.initial))
  }

  ghost predicate ExecsSaid(execs: map<Token, ExecutionRecord>, sent: seq<Sent>) {
    forall op :: op in execs ==> Said(sent, execs[op])
  }

  ghost predicate WorldSaid(w: ApplyWorld) {
    && ExecsSaid(w.files.execs, w.files.sent)
    && forall p :: p in w.apps ==> PcSaid(w.apps[p], w.files.sent)
  }

  lemma PcStaysSaid(pc: ApplyPc, sent: seq<Sent>, sent': seq<Sent>)
    requires sent <= sent' && PcSaid(pc, sent)
    ensures PcSaid(pc, sent')
  {
    hide Said, InitialSaid;
    if pc.Creating? {
      InitialStaysSaid(sent, sent', pc.ctx.inputs.op, pc.ctx.inputs.plan.host, pc.initial);
    }
    if pc.Working? {
      SaidStays(sent, sent', pc.rec, pc.rec);
      forall k | 0 <= k < |pc.tasks| && pc.tasks[k].Persist? ensures Said(sent', pc.tasks[k].next) {
        SaidStays(sent, sent', pc.tasks[k].next, pc.tasks[k].next);
      }
    }
  }

  lemma ExecsStaySaid(execs: map<Token, ExecutionRecord>, sent: seq<Sent>, sent': seq<Sent>)
    requires sent <= sent' && ExecsSaid(execs, sent)
    ensures ExecsSaid(execs, sent')
  {
    hide Said;
    forall op | op in execs ensures Said(sent', execs[op]) {
      SaidStays(sent, sent', execs[op], execs[op]);
    }
  }

  // ----- one exchange -----

  /** Only the next result is new, and this exchange said it. */
  lemma NewlySaid(sent: seq<Sent>, m: Sent, r: ExecutionRecord, next: ExecutionRecord)
    requires Said(sent, r) && next.core == r.core
    requires next.prepareResult == r.prepareResult || (r.phase.ExecClaimed? && PreparedAnswer(m, next))
    requires next.startRevision == r.startRevision || StartedAnswer(m, next)
    requires next.runningRevision == r.runningRevision || RunningAnswer(m, next)
    requires next.finalizeResult == r.finalizeResult || FinalizedAnswer(m, next)
    requires next.finalizeResult.Some? ==> next.prepareResult == r.prepareResult
    ensures Said(sent + [m], next)
  {
    var sent' := sent + [m];
    assert sent'[|sent|] == m;
    InitialStaysSaid(sent, sent', r.core.op, r.core.plan.host, r.core.initial);
    if next.prepareResult.Some? && next.prepareResult == r.prepareResult {
      var k :| 0 <= k < |sent| && PreparedAnswer(sent[k], r);
      assert PreparedAnswer(sent'[k], next);
    }
    if next.startRevision.Some? && next.startRevision == r.startRevision {
      var k :| 0 <= k < |sent| && StartedAnswer(sent[k], r);
      assert StartedAnswer(sent'[k], next);
    }
    if next.runningRevision.Some? && next.runningRevision == r.runningRevision {
      var k :| 0 <= k < |sent| && RunningAnswer(sent[k], r);
      assert RunningAnswer(sent'[k], next);
    }
    if next.finalizeResult.Some? && next.finalizeResult == r.finalizeResult {
      var k :| 0 <= k < |sent| && FinalizedAnswer(sent[k], r);
      assert FinalizedAnswer(sent'[k], next);
    }
  }

  /** A process persists at most in the first of its tasks. */
  ghost predicate OnlyFirstPersists(tasks: seq<Task>) {
    forall k :: 0 < k < |tasks| ==> !tasks[k].Persist?
  }

  lemma AnswerSaid(ctx: Context, r: ExecutionRecord, task: Task, choice: Choice, sent: seq<Sent>)
    requires ExecutionOk(r) && Asks(task) && TaskOk(r, task) && TaskFrame(r, task).Ok? && Said(sent, r)
    ensures PcSaid(Answered(ctx, r, task, choice), sent + [Sent(r.core.op, TaskFrame(r, task).value, Some(choice.reply))])
  {
    var m := Sent(r.core.op, TaskFrame(r, task).value, Some(choice.reply));
    var pc := Answered(ctx, r, task, choice);
    if pc.Working? {
      SaidStays(sent, sent + [m], r, r);
      AnswerShape(ctx, r, task, choice);
      if pc.tasks != [] && pc.tasks[0].Persist? {
        AnswerIsNew(ctx, r, task, choice);
        hide Said, PreparedAnswer, StartedAnswer, RunningAnswer, FinalizedAnswer, Answered, TaskFrame, ExecutionOk;
        NewlySaid(sent, m, r, pc.tasks[0].next);
      }
    }
  }

  lemma AnswerShape(ctx: Context, r: ExecutionRecord, task: Task, choice: Choice)
    requires Asks(task) && Answered(ctx, r, task, choice).Working?
    ensures Answered(ctx, r, task, choice).rec == r && OnlyFirstPersists(Answered(ctx, r, task, choice).tasks)
  {
    hide ValidatedResult, ValidatedStart, HeaderFor, ProjectionMatches, MaterialReadable;
  }

  /** What a reply leads a process to persist is what the reply said. */
  lemma AnswerIsNew(ctx: Context, r: ExecutionRecord, task: Task, choice: Choice)
    requires ExecutionOk(r) && Asks(task) && TaskOk(r, task) && TaskFrame(r, task).Ok?
    requires Answered(ctx, r, task, choice).Working? && Answered(ctx, r, task, choice).tasks != []
    requires Answered(ctx, r, task, choice).tasks[0].Persist?
    ensures var m := Sent(r.core.op, TaskFrame(r, task).value, Some(choice.reply));
      var next := Answered(ctx, r, task, choice).tasks[0].next;
      && next.core == r.core
      && (next.prepareResult == r.prepareResult || (r.phase.ExecClaimed? && PreparedAnswer(m, next)))
      && (next.startRevision == r.startRevision || StartedAnswer(m, next))
      && (next.runningRevision == r.runningRevision || RunningAnswer(m, next))
      && (next.finalizeResult == r.finalizeResult || FinalizedAnswer(m, next))
      && (next.finalizeResult.Some? ==> next.prepareResult == r.prepareResult)
  {
    hide HeaderFor, NextRevision, FinalizeHeaderOk;
    match task
    case AskPrepare(_) => PrepareIsNew(ctx, r, task, choice);
    case AskStart =>
    case AskObservation =>
    case AskFinalize(_) => FinalizeIsNew(ctx, r, task, choice);
  }

  lemma PrepareIsNew(ctx: Context, r: ExecutionRecord, task: Task, choice: Choice)
    requires ExecutionOk(r) && task.AskPrepare? && TaskOk(r, task) && TaskFrame(r, task).Ok?
    requires Answered(ctx, r, task, choice).Working? && Answered(ctx, r, task, choice).tasks != []
    requires Answered(ctx, r, task, choice).tasks[0].Persist?
    ensures var m := Sent(r.core.op, TaskFrame(r, task).value, Some(choice.reply));
      var next := Answered(ctx, r, task, choice).tasks[0].next;
      && next == r.(phase := next.phase, prepareResult := next.prepareResult)
      && (next.prepareResult == r.prepareResult || PreparedAnswer(m, next))
      && next.finalizeResult.None?
  {
    hide HeaderFor, NextRevision, FinalizeHeaderOk;
  }

  lemma FinalizeIsNew(ctx: Context, r: ExecutionRecord, task: Task, choice: Choice)
    requires ExecutionOk(r) && task.AskFinalize? && TaskOk(r, task) && TaskFrame(r, task).Ok?
    requires Answered(ctx, r, task, choice).Working? && Answered(ctx, r, task, choice).tasks != []
    requires Answered(ctx, r, task, choice).tasks[0].Persist?
    ensures var m := Sent(r.core.op, TaskFrame(r, task).value, Some(choice.reply));
      var next := Answered(ctx, r, task, choice).tasks[0].next;
      next == r.(phase := next.phase, finalizeResult := next.finalizeResult) && FinalizedAnswer(m, next)
  {
    hide HeaderFor, NextRevision, FinalizeHeaderOk;
  }

  // ----- one step -----

  lemma ContinuedSaid(ctx: Context, r: ExecutionRecord, sent: seq<Sent>)
    requires Said(sent, r)
    ensures PcSaid(Continued(ctx, r), sent)
  {
    hide HeaderFor, Said;
    var pc := Continued(ctx, r);
    if pc.Working? && pc.tasks[0].Persist? {
      SaidStays(sent, sent, r, pc.tasks[0].next);
    }
  }

  lemma LoadedSaid(ctx: Context, r: ExecutionRecord, sent: seq<Sent>)
    requires Said(sent, r)
    ensures PcSaid(Loaded(ctx, r), sent)
  {
    hide Said;
  }

  lemma NewSaid(inputs: Inputs, initial: Revision, ids: HostIds, sent: seq<Sent>)
    requires InitialSaid(sent, inputs.op, inputs.plan.host, initial)
    ensures Said(sent, NewRecord(inputs, initial, ids))
  {
    hide HeaderFor;
  }

  lemma WorkSaid(ctx: Context, r: ExecutionRecord, tasks: seq<Task>, d: Durable, choice: Choice)
    requires tasks != [] && ExecutionOk(r) && TaskOk(r, tasks[0])
    requires PcSaid(Working(ctx, r, tasks), d.sent) && ExecsSaid(d.execs, d.sent)
    ensures var (pc, act) := WorkStep(ctx, r, tasks, d, choice);
      var sent' := if act.Send? then d.sent + [act.message] else d.sent;
      PcSaid(pc, sent') && ExecsSaid(ExecsAfter(d.execs, act), sent')
  {
    hide Said, ExecutionOk, Answered, TaskFrame, Continued, Enabled, After, ChangeRecorded, ExpiryRecorded, AdvanceRound;
    var task := tasks[0];
    if Asks(task) {
      if TaskFrame(r, task).Ok? {
        AnswerSaid(ctx, r, task, choice, d.sent);
        ExecsStaySaid(d.execs, d.sent, d.sent + [Sent(r.core.op, TaskFrame(r, task).value, Some(choice.reply))]);
      }
    } else if task.Continue? {
      ContinuedSaid(ctx, r, d.sent);
    } else if task.Persist? {
      assert Said(d.sent, task.next);
    }
  }

  lemma StepSaid(pc: ApplyPc, d: Durable, free: bool, choice: Choice)
    requires ApplyKnows(pc, d.execs) && ExecsOk(d.execs) && PcSaid(pc, d.sent) && ExecsSaid(d.execs, d.sent)
    ensures var (next, act) := ApplyStep(pc, d, free, choice);
      var sent' := if act.Send? then d.sent + [act.message] else d.sent;
      PcSaid(next, sent') && ExecsSaid(ExecsAfter(d.execs, act), sent')
  {
    hide Said, WorkStep, ConnectorStep, AdvanceRound, Loaded, IdentityMatches, OperationMatches, LeaseGranted, TasksSaid;
    hide ConnectorPredecessor, PreparedClaim, FilesMatchPlan, ValidRevision, HeaderFor, NewRecord, ExecutionOk;
    match pc
    case Working(ctx, r, tasks) =>
      if tasks != [] { WorkSaid(ctx, r, tasks, d, choice); }
    case Reading(ctx) =>
      if ctx.inputs.op in d.execs { LoadedSaid(ctx, d.execs[ctx.inputs.op], d.sent); }
    case Creating(ctx, initial) =>
      NewSaid(ctx.inputs, initial, choice.ids, d.sent);
      LoadedSaid(ctx, NewRecord(ctx.inputs, initial, choice.ids), d.sent);
    case Snapshotting(ctx) =>
      var host := ctx.inputs.plan.host;
      var m := Sent(ctx.inputs.op, SnapshotFrame(host.tenant, host.hostId), Some(choice.reply));
      ExecsStaySaid(d.execs, d.sent, d.sent + [m]);
      assert (d.sent + [m])[|d.sent|] == m;
    case Publishing(_, _, _, _) => ConnectorStaysOut(pc, d); HostFrames.ConnectorProven(pc, d);
    case Converging(_, _, _, _) => ConnectorStaysOut(pc, d); HostFrames.ConnectorProven(pc, d);
    case _ =>
  }

  // ----- the run -----

  lemma NextSaid(w: ApplyWorld, w': ApplyWorld)
    requires ApplyOk(w) && WorldSaid(w) && ApplyNext(w, w')
    ensures WorldSaid(w')
  {
    hide ApplyStep, PcSaid, ExecsSaid, Ordered, LeasesApart, ApplyKnows, Enabled, After, HistoryAfter, TaskFrame, FreshIds;
    hide ExecsOk, IdsUnique, FramesOk;
    if p, choice :| Acts(w, w', p, choice) {
      var free := w.apps[p].Leasing? && LeaseFree(w, w.apps[p].ctx.inputs.op);
      StepSaid(w.apps[p], w.files, free, choice);
      PerformExecs(w.files, ApplyStep(w.apps[p], w.files, free, choice).1);
      OthersStaySaid(w, w', p);
    } else if p :| LosesReply(w, w', p) {
      OthersStaySaid(w, w', p);
      ExecsStaySaid(w.files.execs, w.files.sent, w'.files.sent);
    } else if p, inputs, expired :| Begins(w, w', p, inputs, expired) {
      EntrySaid(inputs, expired, w.files.sent);
    } else {
    }
  }

  lemma EntrySaid(inputs: Inputs, expired: bool, sent: seq<Sent>)
    ensures PcSaid(Entering(inputs, expired), sent)
  {
  }

  lemma OthersStaySaid(w: ApplyWorld, w': ApplyWorld, p: nat)
    requires WorldSaid(w) && w.files.sent <= w'.files.sent
    ensures forall q :: q in w.apps && q != p ==> PcSaid(w.apps[q], w'.files.sent)
  {
    hide PcSaid, ExecsSaid;
    forall q | q in w.apps && q != p ensures PcSaid(w.apps[q], w'.files.sent) {
      PcStaysSaid(w.apps[q], w.files.sent, w'.files.sent);
    }
  }

  lemma InitSaid(w: ApplyWorld)
    requires ApplyInit(w)
    ensures WorldSaid(w)
  {
  }

  lemma {:induction false} RunSaid(run: seq<ApplyWorld>)
    requires ApplyRun(run)
    ensures forall k :: 0 <= k < |run| ==> WorldSaid(run[k])
  {
    hide ApplyNext, ApplyOk;
    ApplyRunOk(run);
    InitSaid(run[0]);
    hide WorldSaid, ApplyInit;
    var k := 0;
    while k < |run| - 1
      invariant 0 <= k < |run|
      invariant forall j :: 0 <= j <= k ==> WorldSaid(run[j])
    {
      assert ApplyNext(run[k], run[k + 1]);
      NextSaid(run[k], run[k + 1]);
      k := k + 1;
    }
  }

  /** Over every run, crashes and lost replies included: the initial revision is what the Host of the plan told of itself,
   *  and each result in an execution record is the Host's own answer to a
   *  frame of that execution, about its connector, with its adapter and release, applied and not merely acknowledged;
   *  running was seen running; and the finalize answer names the recorded prepare receipt. */
  lemma RecordedWasSaid(run: seq<ApplyWorld>, k: nat, op: Token)
    requires ApplyRun(run) && k < |run| && op in run[k].files.execs
    ensures var r := run[k].files.execs[op]; var sent := run[k].files.sent;
      && (exists m :: m in sent && SnapshotAnswer(m, op, r.core.plan.host, r.core.initial))
      && 0 < r.core.initial.desired <= 9_007_199_254_740_991
      && (r.core.initial.observed.Some? ==> 0 < r.core.initial.observed.value <= r.core.initial.desired)
      && (r.prepareResult.Some? ==> exists m :: m in sent && PreparedAnswer(m, r))
      && (r.startRevision.Some? ==> exists m :: m in sent && StartedAnswer(m, r))
      && (r.runningRevision.Some? ==> exists m :: m in sent && RunningAnswer(m, r))
      && (r.finalizeResult.Some? ==> exists m :: m in sent && FinalizedAnswer(m, r))
  {
    hide ApplyRun, PcSaid, SnapshotAnswer, PreparedAnswer, StartedAnswer, RunningAnswer, FinalizedAnswer;
    RunSaid(run);
    HostFrames.WorldFilesOk(run, k);
    assert ExecutionOk(run[k].files.execs[op]);
    hide ExecutionOk;
    assert WorldSaid(run[k]);
    assert Said(run[k].files.sent, run[k].files.execs[op]);
  }
}
