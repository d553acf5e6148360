/** What a process does whose plan had expired before it began: it finishes what was prepared in time, but prepares
 *  nothing itself, and it gives up only what the Host, with the material in its hands, says it never touched.
 */
module ExpiredPlans {
  import opened Domain
  import opened StateActions
  import opened StateInvariants
  import opened Calls
  import opened Execution
  import opened ApplyMachine
  import opened ApplyProofs
  import opened HostFrames
  import opened Provenance

  /** The Host had the material when it replied that nothing happened. */
  ghost predicate ProvenWithMaterial(sent: seq<Sent>, core: ExecutionCore) {
    exists k :: 0 <= k < |sent| && WithMaterial(sent[k], core)
  }

  ghost predicate WithMaterial(m: Sent, core: ExecutionCore) {
    NoEffectExchange(m, core) && m.frame.header.payload == core.material
  }

  ghost predicate TasksRestrained(r: ExecutionRecord, tasks: seq<Task>, sent: seq<Sent>) {
    forall k :: 0 <= k < |tasks| && tasks[k].Persist? ==>
      && tasks[k].next.prepareResult == r.prepareResult && tasks[k].next.core == r.core
      && (tasks[k].next.phase.ExecExpired? ==> r.phase.ExecExpired? || ProvenWithMaterial(sent, r.core))
  }

  ghost predicate Restrained(pc: ApplyPc, sent: seq<Sent>) {
    pc.Working? && pc.ctx.expired ==> TasksRestrained(pc.rec, pc.tasks, sent)
  }

  lemma RestrainedStays(pc: ApplyPc, sent: seq<Sent>, sent': seq<Sent>)
    requires sent <= sent' && Restrained(pc, sent)
    ensures Restrained(pc, sent')
  {
    hide WithMaterial;
    if pc.Working? && pc.ctx.expired {
      forall k | 0 <= k < |pc.tasks| && pc.tasks[k].Persist? && pc.tasks[k].next.phase.ExecExpired? && !pc.rec.phase.ExecExpired?
        ensures ProvenWithMaterial(sent', pc.rec.core)
      {
        var i :| 0 <= i < |sent| && WithMaterial(sent[i], pc.rec.core);
        assert WithMaterial(sent'[i], pc.rec.core);
      }
    }
  }

  // ----- one step -----

  lemma AnswerRestrained(ctx: Context, r: ExecutionRecord, task: Task, choice: Choice, sent: seq<Sent>)
    requires ExecutionOk(r) && Asks(task) && TaskOk(r, task) && TaskFrame(r, task).Ok? && ctx.expired
    ensures Restrained(Answered(ctx, r, task, choice), sent + [Sent(r.core.op, TaskFrame(r, task).value, Some(choice.reply))])
  {
    var m := Sent(r.core.op, TaskFrame(r, task).value, Some(choice.reply));
    assert (sent + [m])[|sent|] == m;
    hide HeaderFor, NextRevision, FinalizeHeaderOk;
    if task.AskPrepare? {
      PrepareRestrained(ctx, r, task.material, choice, sent);
    } else {
      OthersRestrained(ctx, r, task, choice, sent + [m]);
    }
  }

  /** Only a no-effect reply to the material is accepted. */
  lemma PrepareRestrained(ctx: Context, r: ExecutionRecord, material: bool, choice: Choice, sent: seq<Sent>)
    requires ExecutionOk(r) && TaskFrame(r, AskPrepare(material)).Ok? && ctx.expired
    ensures var m := Sent(r.core.op, TaskFrame(r, AskPrepare(material)).value, Some(choice.reply));
      Restrained(Answered(ctx, r, AskPrepare(material), choice), sent + [m])
  {
    var m := Sent(r.core.op, TaskFrame(r, AskPrepare(material)).value, Some(choice.reply));
    assert (sent + [m])[|sent|] == m;
    var pc := Answered(ctx, r, AskPrepare(material), choice);
    if pc.Working? && pc.tasks[0].Persist? {
      assert WithMaterial(m, r.core);
    }
  }

  lemma OthersRestrained(ctx: Context, r: ExecutionRecord, task: Task, choice: Choice, sent: seq<Sent>)
    requires task.AskStart? || task.AskObservation? || task.AskFinalize?
    ensures Restrained(Answered(ctx, r, task, choice), sent)
  {
    hide HeaderFor, ValidatedResult, ValidatedStart, ProvenWithMaterial;
  }

  lemma ContinuedRestrained(ctx: Context, r: ExecutionRecord, sent: seq<Sent>)
    ensures Restrained(Continued(ctx, r), sent)
  {
    hide HeaderFor, ProvenWithMaterial;
  }

  lemma LoadedRestrained(ctx: Context, r: ExecutionRecord, sent: seq<Sent>)
    ensures Restrained(Loaded(ctx, r), sent)
  {
    hide ProvenWithMaterial;
  }

  /** A step of a process whose plan has expired records no prepare result, and an expiry only with that proof. */
  ghost predicate PutsRestrained(pc: ApplyPc, act: Act, d: Durable) {
    act.PutExecution? && act.record.core.op in d.execs && pc.Working? && pc.ctx.expired ==>
      && act.record.prepareResult == d.execs[act.record.core.op].prepareResult
      && (act.record.phase.ExecExpired? ==>
            d.execs[act.record.core.op].phase.ExecExpired? || ProvenWithMaterial(d.sent, act.record.core))
  }

  lemma WorkRestrained(ctx: Context, r: ExecutionRecord, tasks: seq<Task>, d: Durable, choice: Choice)
    requires tasks != [] && ApplyKnows(Working(ctx, r, tasks), d.execs) && ExecsOk(d.execs)
    requires Restrained(Working(ctx, r, tasks), d.sent) && OnlyFirstPersists(tasks)
    ensures var (pc, act) := WorkStep(ctx, r, tasks, d, choice);
      var sent' := if act.Send? then d.sent + [act.message] else d.sent;
      && Restrained(pc, sent') && PutsRestrained(Working(ctx, r, tasks), act, d)
      && (pc.Working? ==> OnlyFirstPersists(pc.tasks))
  {
    var task := tasks[0];
    assert TasksOk(r, tasks) && TaskOk(r, task);
    hide ProvenWithMaterial, ExecutionOk, Answered, TaskFrame, Continued, Enabled, After, ChangeRecorded, ExpiryRecorded;
    hide AdvanceRound, TasksOk, TaskOk, ExecutionKept;
    if Asks(task) {
      if TaskFrame(r, task).Ok? {
        if Answered(ctx, r, task, choice).Working? { AnswerShape(ctx, r, task, choice); }
        if ctx.expired { AnswerRestrained(ctx, r, task, choice, d.sent); } else { KeepsContext(ctx, r, task, choice); }
      }
    } else if task.Continue? {
      ContinuedRestrained(ctx, r, d.sent);
      ContinuedPersistsFirst(ctx, r);
    }
  }

  lemma KeepsContext(ctx: Context, r: ExecutionRecord, task: Task, choice: Choice)
    ensures var pc := Answered(ctx, r, task, choice); pc.Returned? || (pc.Working? && pc.ctx == ctx)
  {
    hide HeaderFor, ValidatedResult, ValidatedStart;
  }

  lemma ContinuedPersistsFirst(ctx: Context, r: ExecutionRecord)
    ensures Continued(ctx, r).Working? ==> OnlyFirstPersists(Continued(ctx, r).tasks)
  {
    hide HeaderFor;
  }

  lemma LoadedPersistsFirst(ctx: Context, r: ExecutionRecord)
    ensures Loaded(ctx, r).Working? ==> OnlyFirstPersists(Loaded(ctx, r).tasks)
  {
  }

  ghost predicate PcOk(pc: ApplyPc, sent: seq<Sent>) {
    Restrained(pc, sent) && (pc.Working? ==> OnlyFirstPersists(pc.tasks))
  }

  lemma StepRestrained(pc: ApplyPc, d: Durable, free: bool, choice: Choice)
    requires ApplyKnows(pc, d.execs) && ExecsOk(d.execs) && PcOk(pc, d.sent)
    ensures var (next, act) := ApplyStep(pc, d, free, choice);
      var sent' := if act.Send? then d.sent + [act.message] else d.sent;
      PcOk(next, sent') && PutsRestrained(pc, act, d)
  {
    hide TasksRestrained, WorkStep, ConnectorStep, AdvanceRound, Loaded, IdentityMatches, OperationMatches, LeaseGranted;
    hide ConnectorPredecessor, PreparedClaim, FilesMatchPlan, ValidRevision, HeaderFor, NewRecord, ExecutionOk, OnlyFirstPersists;
    hide TasksOk, ProvenWithMaterial;
    match pc
    case Working(ctx, r, tasks) =>
      if tasks != [] { WorkRestrained(ctx, r, tasks, d, choice); }
    case Reading(ctx) =>
      if ctx.inputs.op in d.execs {
        LoadedRestrained(ctx, d.execs[ctx.inputs.op], d.sent);
        LoadedPersistsFirst(ctx, d.execs[ctx.inputs.op]);
      }
    case Creating(ctx, initial) =>
      LoadedRestrained(ctx, NewRecord(ctx.inputs, initial, choice.ids), d.sent);
      LoadedPersistsFirst(ctx, NewRecord(ctx.inputs, initial, choice.ids));
    case Publishing(_, _, _, _) => ConnectorStaysOut(pc, d); ConnectorProven(pc, d);
    case Converging(_, _, _, _) => ConnectorStaysOut(pc, d); ConnectorProven(pc, d);
    case _ =>
  }

  // ----- the run -----

  ghost predicate AllRestrained(w: ApplyWorld) {
    forall p :: p in w.apps ==> PcOk(w.apps[p], w.files.sent)
  }

  lemma OthersStayRestrained(w: ApplyWorld, w': ApplyWorld, p: nat)
    requires AllRestrained(w) && w.files.sent <= w'.files.sent
    ensures forall q :: q in w.apps && q != p ==> PcOk(w.apps[q], w'.files.sent)
  {
    hide Restrained, OnlyFirstPersists;
    forall q | q in w.apps && q != p ensures PcOk(w.apps[q], w'.files.sent) {
      RestrainedStays(w.apps[q], w.files.sent, w'.files.sent);
    }
  }

  lemma EntryRestrained(inputs: Inputs, expired: bool, sent: seq<Sent>)
    ensures PcOk(Entering(inputs, expired), sent)
  {
  }

  lemma NextRestrained(w: ApplyWorld, w': ApplyWorld)
    requires ApplyOk(w) && AllRestrained(w) && ApplyNext(w, w')
    ensures AllRestrained(w')
  {
    hide ApplyStep, PcOk, Ordered, LeasesApart, ApplyKnows, Enabled, After, HistoryAfter, TaskFrame, FreshIds, ExecsOk;
    hide IdsUnique, FramesOk, PutsRestrained;
    if p, choice :| Acts(w, w', p, choice) {
      var free := w.apps[p].Leasing? && LeaseFree(w, w.apps[p].ctx.inputs.op);
      StepRestrained(w.apps[p], w.files, free, choice);
      var (pc, act) := ApplyStep(w.apps[p], w.files, free, choice);
      assert w'.files.sent == if act.Send? then w.files.sent + [act.message] else w.files.sent;
      OthersStayRestrained(w, w', p);
      assert w'.apps[p] == pc;
    } else if p :| LosesReply(w, w', p) {
      OthersStayRestrained(w, w', p);
    } else if write :| Meddles(w, w', write) {
    } else if p, inputs, expired :| Begins(w, w', p, inputs, expired) {
      EntryRestrained(inputs, expired, w.files.sent);
    } else {
    }
  }

  lemma {:induction false} RunRestrained(run: seq<ApplyWorld>)
    requires ApplyRun(run)
    ensures forall k :: 0 <= k < |run| ==> AllRestrained(run[k])
  {
    hide ApplyNext, ApplyOk;
    ApplyRunOk(run);
    assert AllRestrained(run[0]);
    hide AllRestrained, ApplyInit;
    var k := 0;
    while k < |run| - 1
      invariant 0 <= k < |run|
      invariant forall j :: 0 <= j <= k ==> AllRestrained(run[j])
    {
      assert ApplyNext(run[k], run[k + 1]);
      NextRestrained(run[k], run[k + 1]);
      k := k + 1;
    }
  }

  /** In no step of any run does a process whose plan had expired record a prepare result, and it records an expiry only
   *  after the Host, sent the exact material, answered that nothing happened and its revision is the initial one. */
  lemma ExpiredPlanPreparesNothing(run: seq<ApplyWorld>, k: nat, p: nat, choice: Choice, op: Token)
    requires ApplyRun(run) && k + 1 < |run| && Acts(run[k], run[k + 1], p, choice)
    requires run[k].apps[p].Working? && run[k].apps[p].ctx.expired && op in run[k].files.execs
    ensures op in run[k + 1].files.execs
    ensures var before, after := run[k].files.execs[op], run[k + 1].files.execs[op];
      && after.prepareResult == before.prepareResult
      && (after.phase.ExecExpired? && !before.phase.ExecExpired? ==>
            exists m :: m in run[k].files.sent && NoEffectExchange(m, after.core) && m.frame.header.payload == after.core.material)
  {
    hide ApplyNext, ApplyInit, ApplyStep, PcOk, Ordered, LeasesApart, ApplyKnows, Enabled, After, HistoryAfter, FreshIds;
    hide ExecutionOk, IdsUnique, FramesOk, NoEffectExchange;
    RunRestrained(run);
    ApplyRunOk(run);
    var w := run[k];
    assert ApplyOk(w) && AllRestrained(w);
    StepRestrained(w.apps[p], w.files, false, choice);
    PerformExecs(w.files, ApplyStep(w.apps[p], w.files, false, choice).1);
  }
}
