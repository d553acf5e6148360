/** Any number of applications of one operation, with crashes anywhere, against a cooperating Host.
 */
module Cooperation {
  import opened Domain
  import opened StateActions
  import opened Calls
  import opened Execution
  import opened ApplyMachine
  import opened ApplyProofs
  import HostFrames
  import opened Lag
  import opened Handover
  import opened HostModel

  datatype CoopWorld = CoopWorld(w: ApplyWorld, host: HostState)

  /** The Host handles the frame sent in this step, if any, and a reply that arrived is its reply. */
  ghost predicate HostAnswers(c: CoopWorld, c': CoopWorld) {
    if c'.w.files.sent == c.w.files.sent then c'.host == c.host
    else
      && |c'.w.files.sent| == |c.w.files.sent| + 1
      && var m := c'.w.files.sent[|c.w.files.sent|];
      && c'.host == Handles(c.host, m.frame).0
      && (m.reply.Some? ==> m.reply.value == Handles(c.host, m.frame).1)
  }

  /** Only this operation is executed on the Host, under identifiers the Host has not seen. */
  ghost predicate OnlyThis(c: CoopWorld, c': CoopWorld, op: Token) {
    && (forall o :: o in c'.w.files.execs ==> o == op)
    && (op in c'.w.files.execs && op !in c.w.files.execs ==> IdsUnknown(c'.w.files.execs[op].core.ids, c.host))
  }

  ghost predicate CoopRun(run: seq<CoopWorld>, op: Token) {
    && |run| > 0 && ApplyInit(run[0].w)
    && ValidRevision(run[0].host.revision) && run[0].host.revision.desired + 3 <= MAX_REVISION
    && forall a, b :: 0 <= a && b == a + 1 < |run| ==> CoopStep(run[a], run[b], op)
  }

  ghost predicate CoopStep(c: CoopWorld, c': CoopWorld, op: Token) {
    ApplyNext(c.w, c'.w) && StepFits(c.w, c'.w) && HostAnswers(c, c') && OnlyThis(c, c', op)
  }

  // ----- invariant -----

  ghost predicate PendingOk(tasks: seq<Task>, host: HostState) {
    && (tasks != [] && tasks[0].Persist? ==> Coherent(tasks[0].next, host))
    && (forall k :: 1 <= k < |tasks| ==> !tasks[k].Persist?)
  }

  ghost predicate PcCoherent(pc: ApplyPc, host: HostState, op: Token) {
    LeaseOf(pc) == Some(op) ==>
      && (pc.Creating? ==> pc.initial == host.revision)
      && (pc.Working? ==> PendingOk(pc.tasks, host))
  }

  ghost predicate ExecCoherent(execs: map<Token, ExecutionRecord>, host: HostState, op: Token) {
    if op in execs then Coherent(execs[op], host)
    else ValidRevision(host.revision) && host.revision.desired + 3 <= MAX_REVISION
  }

  ghost predicate CoopOk(c: CoopWorld, op: Token) {
    && ApplyOk(c.w) && LagOk(c.w) && HandoverOk(c.w)
    && ExecCoherent(c.w.files.execs, c.host, op)
    && (forall o :: o in c.w.files.execs ==> o == op)
    && forall p :: p in c.w.apps ==> PcCoherent(c.w.apps[p], c.host, op)
  }

  // ----- replies -----

  /** What the process does with the Host's reply leaves record and Host in step. */
  lemma AskCoherent(ctx: Context, r: ExecutionRecord, task: Task, choice: Choice, host: HostState)
    requires ExecutionOk(r) && Coherent(r, host) && Asks(task) && TaskOk(r, task)
    requires TaskFrame(r, task).Ok? ==> choice.reply == Handles(host, TaskFrame(r, task).value).1
    ensures TaskFrame(r, task).Ok?
    ensures var host' := Handles(host, TaskFrame(r, task).value).0;
      Coherent(r, host') && (Answered(ctx, r, task, choice).Working? ==> PendingOk(Answered(ctx, r, task, choice).tasks, host'))
  {
    hide Coherent, ExecutionOk, Handles, TaskFrame, ValidatedResult, NextRevision;
    match task
    case AskPrepare(material) => PrepareExchange(r, host, material);
    case AskStart => StartExchange(r, host);
    case AskObservation => ObserveExchange(r, host);
    case AskFinalize(material) => FinalizeExchange(r, host, material);
  }

  lemma FrameCoherent(r: ExecutionRecord, task: Task, host: HostState)
    requires ExecutionOk(r) && Coherent(r, host) && Asks(task) && TaskOk(r, task)
    ensures TaskFrame(r, task).Ok? && Coherent(r, Handles(host, TaskFrame(r, task).value).0)
  {
    hide Coherent, ExecutionOk, Handles, TaskFrame, ValidatedResult, ValidatedStart, NextRevision;
    match task
    case AskPrepare(material) => PrepareExchange(r, host, material);
    case AskStart => StartExchange(r, host);
    case AskObservation => ObserveExchange(r, host);
    case AskFinalize(material) => FinalizeExchange(r, host, material);
  }

  lemma ContinuedCoherent(ctx: Context, r: ExecutionRecord, host: HostState)
    requires Coherent(r, host)
    ensures Continued(ctx, r).Working? ==> PendingOk(Continued(ctx, r).tasks, host)
  {
    hide HeaderFor;
  }

  lemma LoadedCoherent(ctx: Context, r: ExecutionRecord, host: HostState)
    ensures Loaded(ctx, r).Working? ==> PendingOk(Loaded(ctx, r).tasks, host)
  {
    hide Coherent;
  }

  lemma PoppedCoherent(tasks: seq<Task>, host: HostState)
    requires tasks != [] && PendingOk(tasks, host)
    ensures PendingOk(tasks[1..], host)
  {
    hide Coherent;
  }

  lemma KeptCoherent(tasks: seq<Task>, host: HostState, host': HostState)
    requires tasks != [] && PendingOk(tasks, host) && !tasks[0].Persist?
    ensures PendingOk(tasks, host')
  {
    hide Coherent;
  }

  /** The Host's state after the step's frame, and the record's and process's agreement with it. */
  ghost predicate StepCoherent(pc: ApplyPc, act: Act, d: Durable, host: HostState, op: Token) {
    var host' := if act.Send? then Handles(host, act.message.frame).0 else host;
    ExecCoherent(ExecsAfter(d.execs, act), host', op) && PcCoherent(pc, host', op)
  }

  lemma WorkCoherent(ctx: Context, r: ExecutionRecord, tasks: seq<Task>, d: Durable, choice: Choice, host: HostState,
                     op: Token)
    requires ctx.inputs.op == op && op in d.execs && d.execs[op] == r && ExecutionOk(r) && r.core.op == op
    requires tasks != [] && TaskOk(r, tasks[0]) && Coherent(r, host) && PendingOk(tasks, host)
    requires WorkStep(ctx, r, tasks, d, choice).1.Send? ==>
      choice.reply == Handles(host, WorkStep(ctx, r, tasks, d, choice).1.message.frame).1
    ensures var (pc, act) := WorkStep(ctx, r, tasks, d, choice); StepCoherent(pc, act, d, host, op)
  {
    hide Coherent, ExecutionOk, ExecutionKept, Answered, TaskFrame, Continued, Enabled, After, ChangeRecorded;
    hide ExpiryRecorded, AdvanceRound;
    hide Handles, PendingOk;
    var task := tasks[0];
    if Asks(task) {
      FrameCoherent(r, task, host);
      AskCoherent(ctx, r, task, choice, host);
      AnsweredSame(ctx, r, task, choice);
    } else if task.Continue? {
      ContinuedCoherent(ctx, r, host);
      ContinuedSame(ctx, r);
    } else if task.AdvanceTo? {
      KeptCoherent(tasks, host, host);
      PoppedCoherent(tasks, host);
    } else {
      PoppedCoherent(tasks, host);
      if task.Persist? {
        SameOp(r, task.next);
        PersistCoherent(tasks, host);
      }
    }
  }

  lemma PersistCoherent(tasks: seq<Task>, host: HostState)
    requires tasks != [] && tasks[0].Persist? && PendingOk(tasks, host)
    ensures Coherent(tasks[0].next, host)
  {
  }

  // ----- one step -----

  lemma WorkLogsReply(ctx: Context, r: ExecutionRecord, tasks: seq<Task>, d: Durable, choice: Choice)
    requires tasks != []
    ensures WorkStep(ctx, r, tasks, d, choice).1.Send? ==> WorkStep(ctx, r, tasks, d, choice).1.message.reply == Some(choice.reply)
  {
    hide Answered, TaskFrame, Continued, Enabled, After, ChangeRecorded, ExpiryRecorded;
  }

  lemma StepLogsReply(pc: ApplyPc, d: Durable, free: bool, choice: Choice)
    ensures ApplyStep(pc, d, free, choice).1.Send? ==> ApplyStep(pc, d, free, choice).1.message.reply == Some(choice.reply)
  {
    hide WorkStep, ConnectorStep, AdvanceRound, Loaded, IdentityMatches, OperationMatches, LeaseGranted;
    hide ConnectorPredecessor, PreparedClaim;
    match pc
    case Working(ctx, r, tasks) => if tasks != [] { WorkLogsReply(ctx, r, tasks, d, choice); }
    case Publishing(_, _, _, _) => ConnectorStaysOut(pc, d);
    case Converging(_, _, _, _) => ConnectorStaysOut(pc, d);
    case _ =>
  }

  lemma StepIsCoherent(pc: ApplyPc, d: Durable, free: bool, choice: Choice, host: HostState, op: Token)
    requires ExecsOk(d.execs) && ApplyKnows(pc, d.execs) && HandoverKnown(pc, d.execs)
    requires ExecCoherent(d.execs, host, op) && PcCoherent(pc, host, op)
    requires ApplyStep(pc, d, free, choice).1.Send? ==>
      choice.reply == Handles(host, ApplyStep(pc, d, free, choice).1.message.frame).1
    requires forall o :: o in d.execs ==> o == op
    requires forall o :: o in ExecsAfter(d.execs, ApplyStep(pc, d, free, choice).1) ==> o == op
    requires op in ExecsAfter(d.execs, ApplyStep(pc, d, free, choice).1) && op !in d.execs ==>
      IdsUnknown(ExecsAfter(d.execs, ApplyStep(pc, d, free, choice).1)[op].core.ids, host)
    requires pc.Creating? ==> DistinctIds(choice.ids)
    ensures var (next, act) := ApplyStep(pc, d, free, choice); StepCoherent(next, act, d, host, op)
  {
    hide ExecutionOk, WorkStep, ConnectorStep, AdvanceRound, Loaded, IdentityMatches, OperationMatches, LeaseGranted;
    hide NewRecord;
    hide ConnectorPredecessor, PreparedClaim, FilesMatchPlan, Coherent, PendingOk, TasksOk, ClaimBacked;
    hide HandlesMaterial, IdsUnknown;
    match pc
    case Working(ctx, r, tasks) =>
      if tasks == [] {
      } else {
        FirstDue(r, tasks);
        if ctx.inputs.op == op {
          WorkCoherent(ctx, r, tasks, d, choice, host, op);
        }
      }
    case Reading(ctx) =>
      if ctx.inputs.op in d.execs {
        LoadedSame(ctx, d.execs[ctx.inputs.op]);
        LoadedCoherent(ctx, d.execs[ctx.inputs.op], host);
      }
    case Creating(ctx, initial) =>
      var r := NewRecord(ctx.inputs, initial, choice.ids);
      NewIs(ctx.inputs, initial, choice.ids);
      LoadedSame(ctx, r);
      LoadedCoherent(ctx, r, host);
      assert ExecsAfter(d.execs, ApplyStep(pc, d, free, choice).1) == d.execs[ctx.inputs.op := r];
      assert ctx.inputs.op in ExecsAfter(d.execs, ApplyStep(pc, d, free, choice).1);
      assert ctx.inputs.op == op && initial == host.revision;
      NewIsCoherent(ctx.inputs, choice.ids, host);
    case Publishing(_, _, _, _) => ConnectorStaysOut(pc, d);
    case Converging(_, _, _, _) => ConnectorStaysOut(pc, d);
    case _ =>
  }

  lemma NewIs(inputs: Inputs, initial: Revision, ids: HostIds)
    ensures NewRecord(inputs, initial, ids).core.op == inputs.op && NewRecord(inputs, initial, ids).core.ids == ids
  {
  }

  lemma OthersCoherent(pc: ApplyPc, host: HostState, host': HostState, op: Token)
    requires PcCoherent(pc, host, op) && LeaseOf(pc) != Some(op)
    ensures PcCoherent(pc, host', op)
  {
  }

  lemma ActsCoherent(c: CoopWorld, c': CoopWorld, op: Token, p: nat, choice: Choice)
    requires CoopOk(c, op) && Acts(c.w, c'.w, p, choice) && HostAnswers(c, c') && OnlyThis(c, c', op)
    requires ApplyOk(c'.w) && LagOk(c'.w) && HandoverOk(c'.w)
    ensures CoopOk(c', op)
  {
    hide ApplyStep, FilesOk, LagOk, ApplyKnows, HandoverKnown, ClaimsBehind, Enabled, After, HistoryAfter, Handles;
    hide ExecCoherent, PcCoherent, LeaseOf, IdsUnknown;
    var w := c.w;
    var free := w.apps[p].Leasing? && LeaseFree(w, w.apps[p].ctx.inputs.op);
    var (pc, act) := ApplyStep(w.apps[p], w.files, free, choice);
    FilesParts(w.files);
    PerformExecs(w.files, act);
    StepLogsReply(w.apps[p], w.files, free, choice);
    StepOk(w.apps[p], w.files, free, choice);
    assert act.Send? ==> c'.w.files.sent[|c.w.files.sent|] == act.message;
    StepIsCoherent(w.apps[p], w.files, free, choice, c.host, op);
    forall q | q in c'.w.apps ensures PcCoherent(c'.w.apps[q], c'.host, op) {
      if q != p && c'.host != c.host {
        OthersHaveNoLease(c, p, q, act, op, free, choice);
        OthersCoherent(w.apps[q], c.host, c'.host, op);
      }
    }
  }

  /** Only the holder of the operation's lease talks to the Host in a way that changes it. */
  lemma OthersHaveNoLease(c: CoopWorld, p: nat, q: nat, act: Act, op: Token, free: bool, choice: Choice)
    requires CoopOk(c, op) && p in c.w.apps && q in c.w.apps && p != q
    requires act == ApplyStep(c.w.apps[p], c.w.files, free, choice).1 && act.Send?
    requires Handles(c.host, act.message.frame).0 != c.host
    ensures LeaseOf(c.w.apps[q]) != Some(op)
  {
    hide FilesOk, LagOk, HandoverOk, TasksOk, WorkStep, ConnectorStep, AdvanceRound, Loaded, IdentityMatches;
    hide OperationMatches, LeaseGranted;
    hide ConnectorPredecessor, PreparedClaim, FilesMatchPlan, Coherent, PcCoherent, ExecCoherent;
    var pc := c.w.apps[p];
    assert ApplyKnows(pc, c.w.files.execs);
    if pc.Publishing? || pc.Converging? {
      ConnectorStaysOut(pc, c.w.files);
    }
    assert pc.Working?;
    assert LeaseOf(pc) == Some(op);
  }

  lemma LosesCoherent(c: CoopWorld, c': CoopWorld, op: Token, p: nat)
    requires CoopOk(c, op) && LosesReply(c.w, c'.w, p) && HostAnswers(c, c') && OnlyThis(c, c', op)
    requires ApplyOk(c'.w) && LagOk(c'.w) && HandoverOk(c'.w)
    ensures CoopOk(c', op)
  {
    hide FilesOk, LagOk, ClaimsBehind, Handles, TaskFrame, TasksOk, Coherent, ExecutionOk, PendingOk;
    var r, task := c.w.apps[p].rec, c.w.apps[p].tasks[0];
    FilesParts(c.w.files);
    assert ApplyKnows(c.w.apps[p], c.w.files.execs);
    assert HandoverKnown(c.w.apps[p], c.w.files.execs);
    FirstDue(r, c.w.apps[p].tasks);
    FrameCoherent(r, task, c.host);
    assert PcCoherent(c.w.apps[p], c.host, op);
    forall q | q in c'.w.apps ensures PcCoherent(c'.w.apps[q], c'.host, op) {
      OthersCoherent(c.w.apps[q], c.host, c'.host, op);
    }
  }

  lemma StillCoherent(c: CoopWorld, c': CoopWorld, op: Token)
    requires CoopOk(c, op) && c'.host == c.host && c'.w.files.execs == c.w.files.execs
    requires forall p :: p in c'.w.apps ==> c'.w.apps[p].Entering? || (p in c.w.apps && c'.w.apps[p] == c.w.apps[p])
    requires ApplyOk(c'.w) && LagOk(c'.w) && HandoverOk(c'.w)
    ensures CoopOk(c', op)
  {
    hide ApplyOk, LagOk, HandoverOk, ExecCoherent, PendingOk;
  }

  lemma StepKeepsCoop(c: CoopWorld, c': CoopWorld, op: Token)
    requires CoopOk(c, op) && CoopStep(c, c', op)
    ensures CoopOk(c', op)
  {
    hide ApplyOk, LagOk, HandoverOk, Acts, LosesReply, ExecCoherent, PcCoherent, StepFits, OnlyThis, Enabled, Foreign;
    hide After, HistoryAfter, Handles;
    ApplyNextOk(c.w, c'.w);
    NextKeepsLag(c.w, c'.w);
    NextHandsOver(c.w, c'.w);
    if p, choice :| Acts(c.w, c'.w, p, choice) {
      ActsCoherent(c, c', op, p, choice);
    } else if p :| LosesReply(c.w, c'.w, p) {
      LosesCoherent(c, c', op, p);
    } else {
      StillCoherent(c, c', op);
    }
  }

  lemma {:induction false} CoopRunOk(run: seq<CoopWorld>, op: Token)
    requires CoopRun(run, op)
    ensures forall k :: 0 <= k < |run| ==> CoopOk(run[k], op)
  {
    hide CoopStep;
    CoopInitOk(run[0], op);
    hide ApplyInit, CoopOk;
    var k := 0;
    while k < |run| - 1
      invariant 0 <= k < |run|
      invariant forall j :: 0 <= j <= k ==> CoopOk(run[j], op)
    {
      assert CoopStep(run[k], run[k + 1], op);
      StepKeepsCoop(run[k], run[k + 1], op);
      k := k + 1;
    }
  }

  lemma CoopInitOk(c: CoopWorld, op: Token)
    requires ApplyInit(c.w) && ValidRevision(c.host.revision) && c.host.revision.desired + 3 <= MAX_REVISION
    ensures CoopOk(c, op)
  {
    ApplyInitOk(c.w);
    InitLag(c.w);
    InitHandover(c.w);
  }

  // ----- effects -----

  /** Applications of any number of operations against the Host, each frame handled once; nothing else is asked. */
  ghost predicate HostedRun(run: seq<CoopWorld>) {
    && |run| > 0 && ApplyInit(run[0].w)
    && forall a, b :: 0 <= a && b == a + 1 < |run| ==> ApplyNext(run[a].w, run[b].w) && HostAnswers(run[a], run[b])
  }

  function Worlds(run: seq<CoopWorld>): (worlds: seq<ApplyWorld>)
    ensures |worlds| == |run| && forall k :: 0 <= k < |run| ==> worlds[k] == run[k].w
  {
    seq(|run|, k requires 0 <= k < |run| => run[k].w)
  }

  lemma WorldsAreRun(run: seq<CoopWorld>)
    requires HostedRun(run)
    ensures ApplyRun(Worlds(run))
  {
    hide ApplyNext, ApplyInit, HostAnswers;
    var worlds := Worlds(run);
    forall a, b | 0 <= a && b == a + 1 < |worlds| ensures ApplyNext(worlds[a], worlds[b]) {
      assert ApplyNext(run[a].w, run[b].w);
    }
  }

  /** The Host's revision moves in this step: it applies the effect that the frame sent asks for. */
  predicate AppliesEffect(c: CoopWorld, c': CoopWorld) {
    c'.host.revision != c.host.revision
  }

  /** The effect of the step, its identifier, and the operation it is for. */
  lemma EffectOfStep(c: CoopWorld, c': CoopWorld) returns (kind: Kind, id: Token)
    requires HostAnswers(c, c') && AppliesEffect(c, c')
    ensures |c'.w.files.sent| == |c.w.files.sent| + 1
    ensures EffectOf(c'.w.files.sent[|c.w.files.sent|].frame) == Some((kind, id))
    ensures !Remembers(c.host, kind, id) && Remembers(c'.host, kind, id)
  {
    hide Handles, Remembers;
    var frame := c'.w.files.sent[|c.w.files.sent|].frame;
    MovesOnlyWithEffect(c.host, frame);
    kind, id := EffectOf(frame).value.0, EffectOf(frame).value.1;
  }

  lemma {:induction false} EffectRemembered(run: seq<CoopWorld>, a: nat, b: nat, kind: Kind, id: Token)
    requires HostedRun(run) && a <= b < |run| && Remembers(run[a].host, kind, id)
    ensures Remembers(run[b].host, kind, id)
    decreases b
  {
    hide ApplyNext, ApplyInit, Handles, Remembers;
    if a < b {
      EffectRemembered(run, a, b - 1, kind, id);
      assert HostAnswers(run[b - 1], run[b]);
      var sent, sent' := run[b - 1].w.files.sent, run[b].w.files.sent;
      if sent' != sent {
        NeverForgets(run[b - 1].host, sent'[|sent|].frame, kind, id);
      }
    }
  }

  /** Against a Host that remembers what it did by identifier, over any number of operations, crashes and restarts, each
   *  effect of an execution is applied in at most one step of a run. */
  lemma EffectsAtMostOnce(run: seq<CoopWorld>, a: nat, b: nat)
    requires HostedRun(run) && a + 1 < |run| && b + 1 < |run|
    requires AppliesEffect(run[a], run[a + 1]) && AppliesEffect(run[b], run[b + 1])
    requires |run[a + 1].w.files.sent| > 0 && |run[b + 1].w.files.sent| > 0
    requires var m, n := run[a + 1].w.files.sent[|run[a + 1].w.files.sent| - 1], run[b + 1].w.files.sent[|run[b + 1].w.files.sent| - 1];
      m.op == n.op && EffectOf(m.frame).Some? && EffectOf(n.frame).Some? && EffectOf(m.frame).value.0 == EffectOf(n.frame).value.0
    ensures a == b
  {
    if a < b {
      EffectsDiffer(run, a, b);
    } else if b < a {
      EffectsDiffer(run, b, a);
    }
  }

  lemma EffectsDiffer(run: seq<CoopWorld>, a: nat, b: nat)
    requires HostedRun(run) && a < b && b + 1 < |run|
    requires AppliesEffect(run[a], run[a + 1]) && AppliesEffect(run[b], run[b + 1])
    ensures var x, y := run[a + 1].w.files.sent, run[b + 1].w.files.sent;
      |x| > 0 && |y| > 0
      && var m, n := x[|x| - 1], y[|y| - 1];
      && EffectOf(m.frame).Some? && EffectOf(n.frame).Some?
      && !(m.op == n.op && EffectOf(m.frame).value.0 == EffectOf(n.frame).value.0)
  {
    hide ApplyNext, ApplyInit, Handles, Remembers, ApplyRun, HostFrames.SameRequest, ExecsGrow;
    assert HostAnswers(run[a], run[a + 1]) && HostAnswers(run[b], run[b + 1]);
    var kind, id := EffectOfStep(run[a], run[a + 1]);
    var kind', id' := EffectOfStep(run[b], run[b + 1]);
    EffectRemembered(run, a + 1, b, kind, id);
    WorldsAreRun(run);
    var worlds := Worlds(run);
    HostFrames.ExecutionsGrow(worlds, a + 1, b + 1);
    HostFrames.FramesAgree(worlds, b + 1, |run[a].w.files.sent|, |run[b].w.files.sent|);
  }
}
