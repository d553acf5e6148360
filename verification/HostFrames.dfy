/** What the Host sees of one execution, over all crashes and restarts.
 */
module HostFrames {
  import opened Domain
  import opened StateActions
  import opened StateInvariants
  import opened Calls
  import opened Execution
  import opened ApplyMachine
  import opened ApplyProofs

  // ----- records over a run -----

  lemma {:induction false} ExecutionsGrow(run: seq<ApplyWorld>, i: nat, j: nat)
    requires ApplyRun(run) && i <= j < |run|
    ensures ExecsGrow(run[i].files.execs, run[j].files.execs)
    ensures run[i].files.sent <= run[j].files.sent
    decreases j
  {
    hide ApplyNext, ApplyOk, ApplyInit, ExecsGrow;
    if i == j {
      GrowsReflexive(run[i].files.execs);
    } else {
      ExecutionsGrow(run, i, j - 1);
      ApplyRunOk(run);
      assert ApplyNext(run[j - 1], run[j]);
      NextGrows(run[j - 1], run[j]);
      GrowsTransitive(run[i].files.execs, run[j - 1].files.execs, run[j].files.execs);
    }
  }

  lemma GrowsReflexive(execs: map<Token, ExecutionRecord>)
    ensures ExecsGrow(execs, execs)
  {
  }

  lemma GrowsTransitive(a: map<Token, ExecutionRecord>, b: map<Token, ExecutionRecord>, c: map<Token, ExecutionRecord>)
    requires ExecsGrow(a, b) && ExecsGrow(b, c)
    ensures ExecsGrow(a, c)
  {
    hide ExecutionKept;
    forall op | op in a ensures op in c && ExecutionKept(a[op], c[op]) {
      KeptTransitive(a[op], b[op], c[op]);
    }
  }

  lemma NextGrows(w: ApplyWorld, w': ApplyWorld)
    requires ApplyOk(w) && ApplyNext(w, w')
    ensures ExecsGrow(w.files.execs, w'.files.execs)
    ensures w.files.sent <= w'.files.sent
  {
    hide ApplyStep, ExecsGrow, ExecutionKept, Enabled, After, HistoryAfter, Ordered, FramesOk, IdsUnique, ExecsOk, TaskFrame;
    GrowsReflexive(w.files.execs);
    if p, choice :| Acts(w, w', p, choice) {
      var free := w.apps[p].Leasing? && LeaseFree(w, w.apps[p].ctx.inputs.op);
      StepOk(w.apps[p], w.files, free, choice);
      ActGrows(ApplyStep(w.apps[p], w.files, free, choice).1, w.files.execs);
    }
  }

  /** An execution record is never rewritten: its identity and everything once recorded in it stay. */
  lemma ExecutionNeverRewritten(run: seq<ApplyWorld>, i: nat, j: nat, op: Token)
    requires ApplyRun(run) && i <= j < |run| && op in run[i].files.execs
    ensures op in run[j].files.execs && ExecutionKept(run[i].files.execs[op], run[j].files.execs[op])
  {
    hide ApplyRun, ExecutionKept;
    ExecutionsGrow(run, i, j);
  }

  /** A finalized execution holds an exact revision chain, and its finalize result names the receipt of its prepare. */
  lemma FinalizedRevisions(run: seq<ApplyWorld>, k: nat, op: Token)
    requires ApplyRun(run) && k < |run| && op in run[k].files.execs && run[k].files.execs[op].phase.ExecFinalized?
    ensures var r := run[k].files.execs[op]; var n := r.core.initial.desired;
      && r.prepareResult.Some? && r.prepareResult.value.revision == Revision(n + 1, Some(n + 1))
      && r.startRevision == Some(Revision(n + 2, Some(n + 2)))
      && r.runningRevision == Some(Revision(n + 2, Some(n + 2)))
      && r.finalizeResult.Some? && r.finalizeResult.value.revision == Revision(n + 3, Some(n + 3))
      && n + 3 <= 9_007_199_254_740_991
      && r.finalizeResult.value.prepared.Some? && r.finalizeResult.value.prepared == r.prepareResult.value.prepared
  {
    hide ApplyRun, LeasesApart, ApplyKnows, Ordered, FramesOk, IdsUnique;
    WorldFilesOk(run, k);
    FinalizedChain(run[k].files.execs[op]);
  }

  lemma WorldFilesOk(run: seq<ApplyWorld>, k: nat)
    requires ApplyRun(run) && k < |run|
    ensures FilesOk(run[k].files)
  {
    hide ApplyRun, FilesOk, LeasesApart, ApplyKnows;
    ApplyRunOk(run);
    assert ApplyOk(run[k]);
  }

  // ----- frames -----

  /** The same request, up to whether the material went along. */
  predicate SameRequest(a: Frame, b: Frame) {
    match (a, b)
    case (PrepareFrame(h), PrepareFrame(k)) => k == h.(payload := k.payload)
    case (StartFrame(q), StartFrame(r)) => q == r
    case (FinalizeFrame(h), FinalizeFrame(k)) => k == h.(payload := k.payload)
    case _ => false
  }

  lemma FramesCarryOneIdentity(m: Sent, n: Sent, execs: map<Token, ExecutionRecord>)
    requires FrameOk(m, execs) && FrameOk(n, execs) && ExecsOk(execs) && IdsUnique(execs)
    requires EffectOf(m.frame).Some? && EffectOf(n.frame).Some?
    ensures m.op in execs && n.op in execs
    ensures EffectOf(m.frame).value.1 == EffectOf(n.frame).value.1 <==> m.op == n.op && EffectOf(m.frame).value.0 == EffectOf(n.frame).value.0
    ensures m.op == n.op && EffectOf(m.frame).value.0 == EffectOf(n.frame).value.0 ==> SameRequest(m.frame, n.frame)
  {
    FrameId(m, execs);
    FrameId(n, execs);
    hide ExecutionOk;
    if m.op != n.op {
      assert IdsApart(execs[m.op].core.ids, execs[n.op].core.ids);
    }
  }

  function IdFor(ids: HostIds, kind: Kind): Token {
    match kind
    case ToPrepare => ids.prepare
    case ToStart => ids.start
    case ToFinalize => ids.finalize
  }

  lemma FrameId(m: Sent, execs: map<Token, ExecutionRecord>)
    requires FrameOk(m, execs) && ExecsOk(execs) && EffectOf(m.frame).Some?
    ensures m.op in execs && EffectOf(m.frame).value.1 == IdFor(execs[m.op].core.ids, EffectOf(m.frame).value.0)
    ensures DistinctIds(execs[m.op].core.ids)
  {
    assert ExecutionOk(execs[m.op]);
  }

  /** Over all crashes and restarts, every Prepare, Start and Finalize frame of one execution is the same request, with
   *  the same identifier, expected revision and digests; no two executions or kinds share an identifier; and the
   *  execution record is durable before the first of them. */
  lemma FramesAgree(run: seq<ApplyWorld>, k: nat, a: nat, b: nat)
    requires ApplyRun(run) && k < |run|
    requires a < |run[k].files.sent| && b < |run[k].files.sent|
    requires EffectOf(run[k].files.sent[a].frame).Some? && EffectOf(run[k].files.sent[b].frame).Some?
    ensures var m, n := run[k].files.sent[a], run[k].files.sent[b];
      && m.op in run[k].files.execs
      && (EffectOf(m.frame).value.1 == EffectOf(n.frame).value.1 <==> m.op == n.op && EffectOf(m.frame).value.0 == EffectOf(n.frame).value.0)
      && (m.op == n.op && EffectOf(m.frame).value.0 == EffectOf(n.frame).value.0 ==> SameRequest(m.frame, n.frame))
  {
    hide ApplyRun, ExecsOk, IdsUnique, FrameOk, Ordered, SameRequest, EffectOf;
    WorldFilesOk(run, k);
    FramesCarryOneIdentity(run[k].files.sent[a], run[k].files.sent[b], run[k].files.execs);
  }

  // ----- expiry -----

  /** The Host said that the expired bootstrap had no effect and left its revision alone. */
  ghost predicate NoEffectProven(sent: seq<Sent>, core: ExecutionCore) {
    exists k :: 0 <= k < |sent| && NoEffectExchange(sent[k], core)
  }

  ghost predicate NoEffectExchange(m: Sent, core: ExecutionCore) {
    && m.op == core.op && m.frame.PrepareFrame?
    && m.reply.Some? && m.reply.value.MaterialReply?
    && var said := m.reply.value.result;
    && said.operation == PrepareMaterial && said.connector == core.connector
    && said.state == StateExpired && said.disposition == DispositionExpired
    && (said.application == Applied || said.application == Replayed)
    && said.revision == core.initial && said.prepared.None? && said.finalized.None?
  }

  predicate Expires(task: Task) {
    task.Persist? && task.next.phase.ExecExpired?
  }

  ghost predicate TasksProven(tasks: seq<Task>, sent: seq<Sent>) {
    forall k :: 0 <= k < |tasks| && Expires(tasks[k]) ==> NoEffectProven(sent, tasks[k].next.core)
  }

  ghost predicate PcProven(pc: ApplyPc, sent: seq<Sent>) {
    pc.Working? ==> TasksProven(pc.tasks, sent)
  }

  ghost predicate ExecsProven(execs: map<Token, ExecutionRecord>, sent: seq<Sent>) {
    forall op :: op in execs && execs[op].phase.ExecExpired? ==> NoEffectProven(sent, execs[op].core)
  }

  /** No execution expires, or is about to, without the Host's no-effect reply having arrived. */
  ghost predicate ExpiryProven(w: ApplyWorld) {
    && ExecsProven(w.files.execs, w.files.sent)
    && forall p :: p in w.apps ==> PcProven(w.apps[p], w.files.sent)
  }

  lemma ProvenStays(sent: seq<Sent>, sent': seq<Sent>, core: ExecutionCore)
    requires sent <= sent' && NoEffectProven(sent, core)
    ensures NoEffectProven(sent', core)
  {
    var k :| 0 <= k < |sent| && NoEffectExchange(sent[k], core);
    assert sent'[k] == sent[k];
  }

  lemma AllStayProven(pc: ApplyPc, execs: map<Token, ExecutionRecord>, sent: seq<Sent>, sent': seq<Sent>)
    requires sent <= sent' && PcProven(pc, sent) && ExecsProven(execs, sent)
    ensures PcProven(pc, sent') && ExecsProven(execs, sent')
  {
    hide NoEffectProven;
    forall op | op in execs && execs[op].phase.ExecExpired? ensures NoEffectProven(sent', execs[op].core) {
      ProvenStays(sent, sent', execs[op].core);
    }
    if pc.Working? {
      forall k | 0 <= k < |pc.tasks| && Expires(pc.tasks[k]) ensures NoEffectProven(sent', pc.tasks[k].next.core) {
        ProvenStays(sent, sent', pc.tasks[k].next.core);
      }
    }
  }

  lemma ProvenLast(sent: seq<Sent>, m: Sent, core: ExecutionCore)
    requires NoEffectExchange(m, core)
    ensures NoEffectProven(sent + [m], core)
  {
    assert (sent + [m])[|sent|] == m;
  }

  /** A process comes to record an expiry only with the no-effect reply in its hands. */
  lemma OnlyNoEffectExpires(ctx: Context, r: ExecutionRecord, task: Task, choice: Choice, k: nat)
    requires Asks(task) && TaskFrame(r, task).Ok? && TaskOk(r, task)
    requires Answered(ctx, r, task, choice).Working?
    requires k < |Answered(ctx, r, task, choice).tasks| && Expires(Answered(ctx, r, task, choice).tasks[k])
    ensures NoEffectExchange(Sent(r.core.op, TaskFrame(r, task).value, Some(choice.reply)), r.core)
    ensures Answered(ctx, r, task, choice).tasks[k].next.core == r.core
  {
    hide HeaderFor, NextRevision, ExecutionOk;
    if task.AskPrepare? {
    } else {
      OthersNeverExpire(ctx, r, task, choice, k);
    }
  }

  lemma OthersNeverExpire(ctx: Context, r: ExecutionRecord, task: Task, choice: Choice, k: nat)
    requires task.AskStart? || task.AskObservation? || task.AskFinalize?
    requires Answered(ctx, r, task, choice).Working? && k < |Answered(ctx, r, task, choice).tasks|
    ensures !Expires(Answered(ctx, r, task, choice).tasks[k])
  {
    hide HeaderFor, ValidatedResult, ValidatedStart;
  }

  lemma ContinuedNeverExpires(ctx: Context, r: ExecutionRecord, sent: seq<Sent>)
    requires !r.phase.ExecExpired?
    ensures PcProven(Continued(ctx, r), sent)
  {
    hide HeaderFor, NoEffectProven;
  }

  lemma LoadedNeverExpires(ctx: Context, r: ExecutionRecord, sent: seq<Sent>)
    ensures PcProven(Loaded(ctx, r), sent)
  {
    hide NoEffectProven;
  }

  lemma WorkProven(ctx: Context, r: ExecutionRecord, tasks: seq<Task>, d: Durable, choice: Choice)
    requires tasks != [] && TaskOk(r, tasks[0]) && TasksProven(tasks, d.sent) && ExecsProven(d.execs, d.sent)
    ensures var (pc, act) := WorkStep(ctx, r, tasks, d, choice);
      var sent' := if act.Send? then d.sent + [act.message] else d.sent;
      PcProven(pc, sent') && ExecsProven(ExecsAfter(d.execs, act), sent')
  {
    hide NoEffectProven, NoEffectExchange, Answered, TaskFrame, Continued, Enabled, After, ChangeRecorded;
    hide ExpiryRecorded, AdvanceRound;
    var task := tasks[0];
    if Asks(task) {
      if TaskFrame(r, task).Ok? {
        AskProven(ctx, r, tasks, d, choice);
      }
    } else if task.Continue? {
      ContinuedNeverExpires(ctx, r, d.sent);
    } else if task.Persist? {
      assert Expires(task) ==> NoEffectProven(d.sent, task.next.core);
    }
  }

  lemma AskProven(ctx: Context, r: ExecutionRecord, tasks: seq<Task>, d: Durable, choice: Choice)
    requires tasks != [] && Asks(tasks[0]) && TaskFrame(r, tasks[0]).Ok? && TaskOk(r, tasks[0])
    requires TasksProven(tasks, d.sent) && ExecsProven(d.execs, d.sent)
    ensures var sent' := d.sent + [Sent(r.core.op, TaskFrame(r, tasks[0]).value, Some(choice.reply))];
      PcProven(Answered(ctx, r, tasks[0], choice), sent') && ExecsProven(d.execs, sent')
  {
    hide NoEffectProven, NoEffectExchange, Answered, TaskFrame;
    var m := Sent(r.core.op, TaskFrame(r, tasks[0]).value, Some(choice.reply));
    var pc := Answered(ctx, r, tasks[0], choice);
    AllStayProven(Returned(Ok(())), d.execs, d.sent, d.sent + [m]);
    if pc.Working? {
      forall k | 0 <= k < |pc.tasks| && Expires(pc.tasks[k]) ensures NoEffectProven(d.sent + [m], pc.tasks[k].next.core) {
        OnlyNoEffectExpires(ctx, r, tasks[0], choice, k);
        ProvenLast(d.sent, m, r.core);
      }
    }
  }

  lemma StepProven(pc: ApplyPc, d: Durable, free: bool, choice: Choice)
    requires ApplyKnows(pc, d.execs) && PcProven(pc, d.sent) && ExecsProven(d.execs, d.sent)
    ensures var (next, act) := ApplyStep(pc, d, free, choice);
      var sent' := if act.Send? then d.sent + [act.message] else d.sent;
      PcProven(next, sent') && ExecsProven(ExecsAfter(d.execs, act), sent')
  {
    hide NoEffectProven, WorkStep, ConnectorStep, AdvanceRound, Loaded, IdentityMatches, OperationMatches, LeaseGranted;
    hide TasksProven;
    hide ConnectorPredecessor, PreparedClaim, FilesMatchPlan, ValidRevision, HeaderFor;
    match pc
    case Working(ctx, r, tasks) =>
      if tasks != [] { WorkProven(ctx, r, tasks, d, choice); }
    case Reading(ctx) =>
      if ctx.inputs.op in d.execs { LoadedNeverExpires(ctx, d.execs[ctx.inputs.op], d.sent); }
    case Creating(ctx, initial) => LoadedNeverExpires(ctx, NewRecord(ctx.inputs, initial, choice.ids), d.sent);
    case Snapshotting(ctx) =>
      var host := ctx.inputs.plan.host;
      AllStayProven(pc, d.execs, d.sent,
                    d.sent + [Sent(ctx.inputs.op, SnapshotFrame(host.tenant, host.hostId), Some(choice.reply))]);
    case Publishing(_, _, _, _) => ConnectorStaysOut(pc, d); ConnectorProven(pc, d);
    case Converging(_, _, _, _) => ConnectorStaysOut(pc, d); ConnectorProven(pc, d);
    case _ =>
  }

  lemma ConnectorProven(pc: ApplyPc, d: Durable)
    requires pc.Publishing? || pc.Converging?
    ensures !ConnectorStep(pc, d).0.Working? && (ConnectorStep(pc, d).1.Skip? || ConnectorStep(pc, d).1.Do?)
  {
    hide ConnectorAllowed, ForeignClaim, Enabled;
  }

  lemma NextProven(w: ApplyWorld, w': ApplyWorld)
    requires ApplyOk(w) && ExpiryProven(w) && ApplyNext(w, w')
    ensures ExpiryProven(w')
  {
    hide ApplyStep, PcProven, ExecsProven, FilesOk, LeasesApart, ApplyKnows, Enabled, After, HistoryAfter, TaskFrame;
    hide FreshIds;
    if p, choice :| Acts(w, w', p, choice) {
      var free := w.apps[p].Leasing? && LeaseFree(w, w.apps[p].ctx.inputs.op);
      StepProven(w.apps[p], w.files, free, choice);
      PerformExecs(w.files, ApplyStep(w.apps[p], w.files, free, choice).1);
      OthersStayProven(w, w', p);
    } else if p :| LosesReply(w, w', p) {
      OthersStayProven(w, w', p);
      NothingProven(w.files.sent);
      AllStayProven(Returned(Ok(())), w.files.execs, w.files.sent, w'.files.sent);
    } else if p, inputs, expired :| Begins(w, w', p, inputs, expired) {
      EntryProven(inputs, expired, w.files.sent);
    } else {
    }
  }

  lemma EntryProven(inputs: Inputs, expired: bool, sent: seq<Sent>)
    ensures PcProven(Entering(inputs, expired), sent)
  {
  }

  lemma NothingProven(sent: seq<Sent>)
    ensures PcProven(Returned(Ok(())), sent)
  {
  }

  lemma OthersStayProven(w: ApplyWorld, w': ApplyWorld, p: nat)
    requires ExpiryProven(w) && w.files.sent <= w'.files.sent
    ensures forall q :: q in w.apps && q != p ==> PcProven(w.apps[q], w'.files.sent)
  {
    hide PcProven, ExecsProven;
    forall q | q in w.apps && q != p ensures PcProven(w.apps[q], w'.files.sent) {
      AllStayProven(w.apps[q], w.files.execs, w.files.sent, w'.files.sent);
    }
  }

  lemma {:induction false} RunProven(run: seq<ApplyWorld>)
    requires ApplyRun(run)
    ensures forall k :: 0 <= k < |run| ==> ExpiryProven(run[k])
  {
    hide ApplyNext, ApplyOk;
    ApplyRunOk(run);
    InitProven(run[0]);
    hide ExpiryProven, ApplyInit;
    var k := 0;
    while k < |run| - 1
      invariant 0 <= k < |run|
      invariant forall j :: 0 <= j <= k ==> ExpiryProven(run[j])
    {
      assert ApplyNext(run[k], run[k + 1]);
      NextProven(run[k], run[k + 1]);
      k := k + 1;
    }
  }

  lemma InitProven(w: ApplyWorld)
    requires ApplyInit(w)
    ensures ExpiryProven(w)
  {
  }

  /** An execution expires only after the Host replied to a Prepare that nothing happened and its revision is what it
   *  was, and neither a Start nor a Finalize frame is ever sent for it. */
  lemma ExpiryHadNoEffect(run: seq<ApplyWorld>, k: nat, op: Token)
    requires ApplyRun(run) && k < |run| && op in run[k].files.execs && run[k].files.execs[op].phase.ExecExpired?
    ensures NoEffectProven(run[k].files.sent, run[k].files.execs[op].core)
    ensures forall m :: m in run[k].files.sent && m.op == op ==> !m.frame.StartFrame? && !m.frame.FinalizeFrame?
  {
    hide ApplyRun, PcProven, NoEffectProven, Ordered, IdsUnique, ExecutionOk;
    RunProven(run);
    WorldFilesOk(run, k);
    var d := run[k].files;
    assert ExpiryProven(run[k]);
    forall m | m in d.sent && m.op == op ensures !m.frame.StartFrame? && !m.frame.FinalizeFrame? {
      var i :| 0 <= i < |d.sent| && d.sent[i] == m;
      assert FrameOk(d.sent[i], d.execs);
    }
  }
}
