/** How far a connector claim may be ahead of its execution: exactly when it is never ahead.
 *
 * Observing, releasing or expiring a claim acts on whichever operation owns the connector at that moment, while the
 * execution lease of some operation is what the process holds.  The relation is kept in a run if and only if each such
 * write finds the connector owned by that operation, or by one whose execution is that far already.  Hand-overs that
 * leave a connector alone while a lease holder may still write its claim are enough, and `HandoverRace` has runs in
 * which one does not.
 */
module Handover {
  import opened Domain
  import opened Records
  import opened StateActions
  import opened StateInvariants
  import opened Calls
  import opened Execution
  import opened ApplyMachine
  import opened ApplyProofs
  import opened Lag
  import HostFrames

  // ----- claims -----

  /** What the execution must have come to before a claim may be in a phase. */
  ghost predicate ClaimBacked(phase: ClaimPhase, execs: map<Token, ExecutionRecord>, key: ClaimKey) {
    match phase
    case Prepared => true
    case HandoffObserved => Reaches(execs, key.op, 1) && execs[key.op].core.connector == key.instance
    case Released => Reaches(execs, key.op, 4) && execs[key.op].core.connector == key.instance
    case ClaimExpired => key.op in execs && execs[key.op].phase.ExecExpired? && execs[key.op].core.connector == key.instance
  }

  ghost predicate ClaimsBehind(claims: map<ClaimKey, ConnectorClaim>, execs: map<Token, ExecutionRecord>) {
    forall key :: key in claims ==> ClaimBacked(claims[key].phase, execs, key)
  }

  lemma ClaimBackedGrows(phase: ClaimPhase, execs: map<Token, ExecutionRecord>, execs': map<Token, ExecutionRecord>,
                         key: ClaimKey)
    requires ClaimBacked(phase, execs, key) && ExecsGrow(execs, execs')
    ensures ClaimBacked(phase, execs', key)
  {
    if key.op in execs {
      assert ExecutionKept(execs[key.op], execs'[key.op]);
    }
  }

  /** The claim or the execution record that the process works on is of its own operation and connector. */
  predicate HandoverNamed(pc: ApplyPc) {
    match pc
    case Publishing(inputs, _, _, claim) => claim.op == inputs.op && claim.instance == inputs.plan.instance
    case Converging(inputs, _, _, claim) => claim.op == inputs.op && claim.instance == inputs.plan.instance
    case Working(ctx, r, _) => r.core.op == ctx.inputs.op && r.core.connector == ctx.inputs.plan.instance
    case _ => true
  }

  ghost predicate HandoverKnown(pc: ApplyPc, execs: map<Token, ExecutionRecord>) {
    && HandoverNamed(pc)
    && (pc.Proving? || pc.Leasing? || pc.Reading? ==>
          ClaimBacked(pc.ctx.claimPhase, execs, ClaimKey(pc.ctx.inputs.plan.instance, pc.ctx.inputs.op)))
  }

  ghost predicate HandoverOk(w: ApplyWorld) {
    && ClaimsBehind(w.files.store.claims, w.files.execs)
    && forall p :: p in w.apps ==> HandoverKnown(w.apps[p], w.files.execs)
  }

  /** What a process does in its next step. */
  ghost function ActOf(w: ApplyWorld, p: nat, choice: Choice): Act
    requires p in w.apps
  {
    ApplyStep(w.apps[p], w.files, w.apps[p].Leasing? && LeaseFree(w, w.apps[p].ctx.inputs.op), choice).1
  }

  /** A claim write finds the connector owned by the operation whose lease the process holds, or by one whose execution
   *  is as far as the claim will say. */
  ghost predicate ClaimWriteFits(pc: ApplyPc, act: Act, d: Durable) {
    act.Do? && act.write.UpdateClaim? && act.write.instance in d.store.connOwners ==>
      var owner := d.store.connOwners[act.write.instance].current;
      LeaseOf(pc) == Some(owner) || ClaimBacked(ClaimTarget(act.write.claimChange), d.execs, ClaimKey(act.write.instance, owner))
  }

  ghost predicate StepFits(w: ApplyWorld, w': ApplyWorld) {
    forall p, choice :: p in w.apps && Acts(w, w', p, choice) ==> ClaimWriteFits(w.apps[p], ActOf(w, p, choice), w.files)
  }

  /** A run in which every claim write fits. */
  ghost predicate FittingRun(run: seq<ApplyWorld>) {
    && ApplyRun(run)
    && forall a, b :: 0 <= a && b == a + 1 < |run| ==> StepFits(run[a], run[b])
  }

  // ----- one step -----

  /** The step's claim write is backed by the execution of the operation it hits. */
  ghost predicate ClaimWriteBacked(act: Act, d: Durable) {
    act.Do? && act.write.UpdateClaim? && act.write.instance in d.store.connOwners ==>
      ClaimBacked(ClaimTarget(act.write.claimChange), d.execs,
                  ClaimKey(act.write.instance, d.store.connOwners[act.write.instance].current))
  }

  lemma PerformKeepsClaims(d: Durable, act: Act)
    requires ExecsOk(d.execs) && ActOk(act, d.execs) && (act.Do? ==> Enabled(d.store, act.write))
    requires ClaimsBehind(d.store.claims, d.execs) && ClaimWriteBacked(act, d)
    ensures ClaimsBehind(Perform(d, act).store.claims, Perform(d, act).execs)
  {
    hide ExecsOk, CanOwn, CompletionVerified, ClaimAdmitted, PriorAllows, IsCurrent, Changed;
    if act.PutExecution? {
      ActGrows(act, d.execs);
      hide ActOk, ClaimBacked, ExecsGrow;
      forall key | key in d.store.claims ensures ClaimBacked(d.store.claims[key].phase, ExecsAfter(d.execs, act), key) {
        ClaimBackedGrows(d.store.claims[key].phase, d.execs, ExecsAfter(d.execs, act), key);
      }
    }
  }

  /** The rule has no slack: the write breaks the relation exactly when the operation it hits is not that far. */
  lemma UnbackedWriteBreaks(d: Durable, act: Act)
    requires act.Do? && act.write.UpdateClaim? && Enabled(d.store, act.write)
    requires ClaimsBehind(Perform(d, act).store.claims, Perform(d, act).execs)
    ensures ClaimWriteBacked(act, d)
  {
    hide CanOwn, CompletionVerified, ClaimAdmitted, PriorAllows, IsCurrent, ClaimBacked;
    var key := ClaimKey(act.write.instance, d.store.connOwners[act.write.instance].current);
    assert key in Perform(d, act).store.claims;
  }

  /** A process that makes a claim write keeps the relation exactly when the connector's owner is the operation whose
   *  lease the process holds, or happens to be as far as that operation. */
  lemma ClaimWriteExact(ctx: Context, r: ExecutionRecord, tasks: seq<Task>, d: Durable, choice: Choice)
    requires ExecsOk(d.execs) && ClaimsBehind(d.store.claims, d.execs)
    requires tasks != [] && ApplyKnows(Working(ctx, r, tasks), d.execs) && r.core.op == ctx.inputs.op
    requires WorkStep(ctx, r, tasks, d, choice).1.Do? && WorkStep(ctx, r, tasks, d, choice).1.write.UpdateClaim?
    requires Enabled(d.store, WorkStep(ctx, r, tasks, d, choice).1.write)
    ensures var act := WorkStep(ctx, r, tasks, d, choice).1; var owner := d.store.connOwners[r.core.connector].current;
      ClaimsBehind(Perform(d, act).store.claims, Perform(d, act).execs) <==>
        owner == ctx.inputs.op || ClaimBacked(ClaimTarget(act.write.claimChange), d.execs, ClaimKey(r.core.connector, owner))
  {
    hide ExecsOk, ClaimBacked, Enabled, After, HistoryAfter, AdvanceRound, ChangeRecorded, ExpiryRecorded, Answered;
    hide TaskFrame, Continued;
    hide TasksOk, ClaimsBehind;
    var act := WorkStep(ctx, r, tasks, d, choice).1;
    assert TaskOk(r, tasks[0]) by { FirstDue(r, tasks); }
    OwnerThere(d.store, act.write);
    if tasks[0].AdvanceTo? {
      RoundIsRecord(d.store, ctx.operation, tasks[0].target);
    } else {
      TaskBacksClaim(r, tasks[0], d.execs, act.write.claimChange);
    }
    if ClaimWriteBacked(act, d) {
      PerformKeepsClaims(d, act);
    } else if ClaimsBehind(Perform(d, act).store.claims, Perform(d, act).execs) {
      UnbackedWriteBreaks(d, act);
    }
  }

  lemma OwnerThere(s: Store, w: Write)
    requires w.UpdateClaim? && Enabled(s, w)
    ensures w.instance in s.connOwners
  {
  }

  lemma TaskBacksClaim(r: ExecutionRecord, task: Task, execs: map<Token, ExecutionRecord>, change: ClaimChange)
    requires r.core.op in execs && execs[r.core.op] == r && TaskOk(r, task)
    requires (task.ObserveHandoff? && change.Observe?) || (task.ReleaseClaim? && change.Release?) || (task.GiveUpClaim? && change.ExpireClaim?)
    ensures ClaimBacked(ClaimTarget(change), execs, ClaimKey(r.core.connector, r.core.op))
  {
  }

  ghost predicate StepHandsOver(pc: ApplyPc, act: Act, d: Durable) {
    ClaimWriteBacked(act, d) && HandoverKnown(pc, d.execs)
  }

  /** Only the tasks that are about claims write one, each in its own way. */
  lemma WorkClaimWrite(ctx: Context, r: ExecutionRecord, tasks: seq<Task>, d: Durable, choice: Choice)
    requires ExecsOk(d.execs) && tasks != [] && ApplyKnows(Working(ctx, r, tasks), d.execs) && r.core.op == ctx.inputs.op
    requires ClaimWriteFits(Working(ctx, r, tasks), WorkStep(ctx, r, tasks, d, choice).1, d)
    ensures ClaimWriteBacked(WorkStep(ctx, r, tasks, d, choice).1, d)
  {
    hide ExecutionOk, ExecutionKept, Answered, TaskFrame, Continued, Enabled, After, ChangeRecorded, ExpiryRecorded;
    hide AdvanceRound, TasksOk, ClaimBacked;
    var task := tasks[0];
    assert TaskOk(r, task) by { FirstDue(r, tasks); }
    match task
    case ObserveHandoff => TaskBacksClaim(r, task, d.execs, Observe);
    case ReleaseClaim => TaskBacksClaim(r, task, d.execs, Release);
    case GiveUpClaim => TaskBacksClaim(r, task, d.execs, ExpireClaim);
    case AdvanceTo(_) => RoundIsRecord(d.store, ctx.operation, task.target);
    case _ =>
  }

  lemma WorkHandsOver(ctx: Context, r: ExecutionRecord, tasks: seq<Task>, d: Durable, choice: Choice)
    requires ExecsOk(d.execs) && tasks != [] && ApplyKnows(Working(ctx, r, tasks), d.execs)
    requires HandoverKnown(Working(ctx, r, tasks), d.execs)
    requires ClaimWriteFits(Working(ctx, r, tasks), WorkStep(ctx, r, tasks, d, choice).1, d)
    ensures var (pc, act) := WorkStep(ctx, r, tasks, d, choice); StepHandsOver(pc, act, d)
  {
    WorkClaimWrite(ctx, r, tasks, d, choice);
    hide ExecutionOk, ExecutionKept, Answered, TaskFrame, Continued, Enabled, After, ChangeRecorded, ExpiryRecorded;
    hide AdvanceRound, TasksOk;
    hide ClaimBacked, ClaimWriteFits, ClaimWriteBacked, ExecsOk;
    var task := tasks[0];
    assert TaskOk(r, task) by { FirstDue(r, tasks); }
    match task
    case Continue => ContinuedSame(ctx, r);
    case Persist(next) => SameOp(r, next);
    case AdvanceTo(_) => RoundIsRecord(d.store, ctx.operation, task.target);
    case AskPrepare(_) | AskStart | AskObservation | AskFinalize(_) => AnsweredSame(ctx, r, task, choice);
    case _ =>
  }

  lemma RoundIsRecord(s: Store, operation: OperationRecord, target: OperationPhase)
    ensures AdvanceRound(s, operation, target).Onward? ==> AdvanceRound(s, operation, target).write.UpdateRecord?
  {
  }

  lemma ContinuedSame(ctx: Context, r: ExecutionRecord)
    ensures var pc := Continued(ctx, r); pc.Returned? || (pc.Working? && pc.ctx == ctx && pc.rec == r)
  {
    hide HeaderFor;
  }

  lemma AnsweredSame(ctx: Context, r: ExecutionRecord, task: Task, choice: Choice)
    ensures var pc := Answered(ctx, r, task, choice); pc.Returned? || (pc.Working? && pc.ctx == ctx && pc.rec == r)
  {
    hide ValidatedResult, ValidatedStart;
  }

  lemma LoadedSame(ctx: Context, r: ExecutionRecord)
    ensures var pc := Loaded(ctx, r); pc.Returned? || (pc.Working? && pc.ctx == ctx && pc.rec == r)
  {
  }

  lemma ConnectorHandsOver(pc: ApplyPc, d: Durable)
    requires (pc.Publishing? || pc.Converging?) && HandoverKnown(pc, d.execs) && ClaimsBehind(d.store.claims, d.execs)
    ensures var (next, act) := ConnectorStep(pc, d); StepHandsOver(next, act, d)
  {
    hide ConnectorAllowed, ForeignClaim, Enabled;
  }

  lemma PreparedNames(operation: OperationIdentity, instance: Token, predecessor: Option<Token>)
    ensures var claim := PreparedClaim(operation, instance, predecessor);
      claim.Ok? ==> claim.value.op == operation.op && claim.value.instance == instance
  {
  }

  lemma StepHandsOverOk(pc: ApplyPc, d: Durable, free: bool, choice: Choice)
    requires ExecsOk(d.execs) && ApplyKnows(pc, d.execs) && CopyKnown(pc, d.store.records)
    requires HandoverKnown(pc, d.execs) && ClaimsBehind(d.store.claims, d.execs)
    requires ClaimWriteFits(pc, ApplyStep(pc, d, free, choice).1, d)
    ensures var (next, act) := ApplyStep(pc, d, free, choice); StepHandsOver(next, act, d)
  {
    hide ExecsOk, WorkStep, ConnectorStep, AdvanceRound, Loaded, OperationMatches, ApplyKnows, ClaimsBehind, ClaimBacked;
    hide ConnectorPredecessor, PreparedClaim, FilesMatchPlan, ValidRevision, HeaderFor, Enabled, After, ProvenRank, PhaseRank;
    match pc
    case Working(ctx, r, tasks) => if tasks != [] { WorkHandsOver(ctx, r, tasks, d, choice); }
    case Reading(ctx) =>
      if ctx.inputs.op in d.execs { LoadedSame(ctx, d.execs[ctx.inputs.op]); }
    case Creating(ctx, initial) => LoadedSame(ctx, NewRecord(ctx.inputs, initial, choice.ids));
    case Publishing(_, _, _, _) => ConnectorHandsOver(pc, d);
    case Converging(_, _, _, _) => ConnectorHandsOver(pc, d);
    case Proving(ctx) => RoundIsRecord(d.store, ctx.operation, ArtifactsVerified);
    case Preparing(inputs, _, operation) =>
      if ConnectorPredecessor(d.store.records, operation.core, inputs.plan.instance).Ok? {
        PreparedNames(operation.core, inputs.plan.instance, ConnectorPredecessor(d.store.records, operation.core, inputs.plan.instance).value);
      }
    case _ =>
  }

  // ----- every world of every run -----

  ghost predicate AllNamed(w: ApplyWorld) {
    forall p :: p in w.apps ==> HandoverNamed(w.apps[p])
  }

  lemma StepIsNamed(pc: ApplyPc, d: Durable, free: bool, choice: Choice)
    requires ApplyKnows(pc, d.execs) && CopyKnown(pc, d.store.records) && HandoverNamed(pc)
    ensures HandoverNamed(ApplyStep(pc, d, free, choice).0)
  {
    hide WorkStep, ConnectorStep, AdvanceRound, Loaded, OperationMatches, ApplyKnows, LeaseGranted;
    hide ConnectorPredecessor, PreparedClaim, FilesMatchPlan, ValidRevision, HeaderFor, Enabled, After, ProvenRank, PhaseRank;
    match pc
    case Working(ctx, r, tasks) => if tasks != [] { WorkIsNamed(ctx, r, tasks, d, choice); }
    case Reading(ctx) =>
      if ctx.inputs.op in d.execs { LoadedSame(ctx, d.execs[ctx.inputs.op]); }
    case Creating(ctx, initial) => LoadedSame(ctx, NewRecord(ctx.inputs, initial, choice.ids));
    case Publishing(_, _, _, _) => ConnectorIsNamed(pc, d);
    case Converging(_, _, _, _) => ConnectorIsNamed(pc, d);
    case Preparing(inputs, _, operation) =>
      if ConnectorPredecessor(d.store.records, operation.core, inputs.plan.instance).Ok? {
        PreparedNames(operation.core, inputs.plan.instance, ConnectorPredecessor(d.store.records, operation.core, inputs.plan.instance).value);
      }
    case _ =>
  }

  lemma ConnectorIsNamed(pc: ApplyPc, d: Durable)
    requires (pc.Publishing? || pc.Converging?) && HandoverNamed(pc)
    ensures HandoverNamed(ConnectorStep(pc, d).0)
  {
    hide ConnectorAllowed, ForeignClaim, Enabled;
  }

  lemma WorkIsNamed(ctx: Context, r: ExecutionRecord, tasks: seq<Task>, d: Durable, choice: Choice)
    requires tasks != [] && ApplyKnows(Working(ctx, r, tasks), d.execs) && HandoverNamed(Working(ctx, r, tasks))
    ensures HandoverNamed(WorkStep(ctx, r, tasks, d, choice).0)
  {
    hide ExecutionOk, ExecutionKept, Answered, TaskFrame, Continued, Enabled, After, ChangeRecorded, ExpiryRecorded;
    hide AdvanceRound, TasksOk;
    var task := tasks[0];
    assert TaskOk(r, task) by { FirstDue(r, tasks); }
    match task
    case Continue => ContinuedSame(ctx, r);
    case Persist(next) => SameOp(r, next);
    case AskPrepare(_) | AskStart | AskObservation | AskFinalize(_) => AnsweredSame(ctx, r, task, choice);
    case _ =>
  }

  lemma NextNamed(w: ApplyWorld, w': ApplyWorld)
    requires ApplyOk(w) && LagOk(w) && AllNamed(w) && ApplyNext(w, w')
    ensures AllNamed(w')
  {
    hide ApplyStep, FilesOk, LeasesApart, ApplyKnows, CopyKnown, OperationsBehind, ExecutionsBacked, Enabled, FreshIds;
    hide After, HistoryAfter, TaskFrame;
    hide HandoverNamed, LeaseFree;
    if p, choice :| Acts(w, w', p, choice) {
      StepIsNamed(w.apps[p], w.files, w.apps[p].Leasing? && LeaseFree(w, w.apps[p].ctx.inputs.op), choice);
    } else if p, inputs, expired :| Begins(w, w', p, inputs, expired) {
      assert HandoverNamed(Entering(inputs, expired)) by { EntryNamed(inputs, expired); }
    } else {
    }
  }

  lemma EntryNamed(inputs: Inputs, expired: bool)
    ensures HandoverNamed(Entering(inputs, expired))
  {
  }

  lemma {:induction false} RunNamed(run: seq<ApplyWorld>)
    requires ApplyRun(run)
    ensures forall k :: 0 <= k < |run| ==> ApplyOk(run[k]) && LagOk(run[k]) && AllNamed(run[k])
  {
    hide ApplyNext, ApplyOk, LagOk;
    RunKeepsLag(run);
    assert AllNamed(run[0]);
    hide AllNamed, ApplyInit;
    var k := 0;
    while k < |run| - 1
      invariant 0 <= k < |run|
      invariant forall j :: 0 <= j <= k ==> AllNamed(run[j])
    {
      assert ApplyNext(run[k], run[k + 1]);
      NextNamed(run[k], run[k + 1]);
      k := k + 1;
    }
  }

  // ----- every world of a fitting run -----

  lemma KnownGrows(pc: ApplyPc, execs: map<Token, ExecutionRecord>, act: Act)
    requires HandoverKnown(pc, execs) && ActOk(act, execs)
    ensures HandoverKnown(pc, ExecsAfter(execs, act))
  {
    ActGrows(act, execs);
    hide ActOk, ClaimBacked, ExecsGrow;
    if pc.Proving? || pc.Leasing? || pc.Reading? {
      ClaimBackedGrows(pc.ctx.claimPhase, execs, ExecsAfter(execs, act), ClaimKey(pc.ctx.inputs.plan.instance, pc.ctx.inputs.op));
    }
  }

  lemma ActsHandsOver(w: ApplyWorld, w': ApplyWorld, p: nat, choice: Choice)
    requires ApplyOk(w) && LagOk(w) && HandoverOk(w) && Acts(w, w', p, choice) && StepFits(w, w')
    ensures HandoverOk(w')
  {
    hide ApplyStep, FilesOk, LeasesApart, ApplyKnows, CopyKnown, OperationsBehind, ExecutionsBacked, Enabled, FreshIds;
    hide ActOk, After;
    hide HandoverKnown, ClaimsBehind, ClaimWriteBacked, ClaimWriteFits, LeaseOf;
    var free := w.apps[p].Leasing? && LeaseFree(w, w.apps[p].ctx.inputs.op);
    var (pc, act) := ApplyStep(w.apps[p], w.files, free, choice);
    assert act == ActOf(w, p, choice);
    FilesParts(w.files);
    StepOk(w.apps[p], w.files, free, choice);
    StepHandsOverOk(w.apps[p], w.files, free, choice);
    PerformKeepsClaims(w.files, act);
    PerformExecs(w.files, act);
    forall q | q in w'.apps ensures HandoverKnown(w'.apps[q], w'.files.execs) {
      KnownGrows(w'.apps[q], w.files.execs, act);
    }
  }

  lemma MeddlesHandsOver(w: ApplyWorld, w': ApplyWorld, write: Write)
    requires ApplyOk(w) && HandoverOk(w) && Meddles(w, w', write)
    ensures HandoverOk(w')
  {
    hide FilesOk, LeasesApart, ApplyKnows, Enabled, After, HistoryAfter, HandoverKnown, ClaimsBehind;
    FilesParts(w.files);
    PerformKeepsClaims(w.files, Do(write));
    PerformExecs(w.files, Do(write));
  }

  lemma NextHandsOver(w: ApplyWorld, w': ApplyWorld)
    requires ApplyOk(w) && LagOk(w) && HandoverOk(w) && ApplyNext(w, w') && StepFits(w, w')
    ensures HandoverOk(w')
  {
    hide Acts, LosesReply, Meddles, ApplyOk, LagOk, HandoverKnown, ClaimsBehind, StepFits;
    if p, choice :| Acts(w, w', p, choice) {
      ActsHandsOver(w, w', p, choice);
    } else if p :| LosesReply(w, w', p) {
      LosesHandsOver(w, w', p);
    } else if write :| Meddles(w, w', write) {
      MeddlesHandsOver(w, w', write);
    } else if p, inputs, expired :| Begins(w, w', p, inputs, expired) {
      EntryHandsOver(inputs, expired, w.files);
    } else {
    }
  }

  lemma EntryHandsOver(inputs: Inputs, expired: bool, d: Durable)
    ensures HandoverKnown(Entering(inputs, expired), d.execs)
  {
  }

  lemma LosesHandsOver(w: ApplyWorld, w': ApplyWorld, p: nat)
    requires HandoverOk(w) && LosesReply(w, w', p)
    ensures HandoverOk(w')
  {
    hide HandoverKnown, ClaimsBehind, TaskFrame;
  }

  lemma InitHandover(w: ApplyWorld)
    requires ApplyInit(w)
    ensures HandoverOk(w)
  {
  }

  lemma {:induction false} FittingRunOk(run: seq<ApplyWorld>)
    requires FittingRun(run)
    ensures forall k :: 0 <= k < |run| ==> HandoverOk(run[k])
  {
    hide ApplyNext, ApplyOk, LagOk, StepFits;
    RunKeepsLag(run);
    InitHandover(run[0]);
    hide HandoverOk, ApplyInit;
    var k := 0;
    while k < |run| - 1
      invariant 0 <= k < |run|
      invariant forall j :: 0 <= j <= k ==> HandoverOk(run[j])
    {
      assert ApplyNext(run[k], run[k + 1]);
      assert StepFits(run[k], run[k + 1]);
      NextHandsOver(run[k], run[k + 1]);
      k := k + 1;
    }
  }

  // ----- theorems -----

  ghost predicate NeverAheadOfExecution(w: ApplyWorld) {
    ClaimsBehind(w.files.store.claims, w.files.execs)
  }

  /** The relation holds in every world of a run if and only if every claim write in it fits. */
  lemma ClaimsBehindExactly(run: seq<ApplyWorld>)
    requires ApplyRun(run)
    ensures (forall k :: 0 <= k < |run| ==> NeverAheadOfExecution(run[k])) <==> FittingRun(run)
  {
    hide ApplyNext, ApplyInit, ClaimWriteFits, Acts, ClaimsBehind;
    if FittingRun(run) {
      FittingRunOk(run);
      forall k | 0 <= k < |run| ensures NeverAheadOfExecution(run[k]) {
        assert HandoverOk(run[k]);
      }
    }
    if forall k :: 0 <= k < |run| ==> NeverAheadOfExecution(run[k]) {
      forall a, b | 0 <= a && b == a + 1 < |run| ensures StepFits(run[a], run[b]) {
        assert NeverAheadOfExecution(run[b]);
        forall p, choice | p in run[a].apps && Acts(run[a], run[b], p, choice)
          ensures ClaimWriteFits(run[a].apps[p], ActOf(run[a], p, choice), run[a].files) {
          KeptMeansFits(run[a], run[b], p, choice);
        }
      }
    }
  }

  lemma KeptMeansFits(w: ApplyWorld, w': ApplyWorld, p: nat, choice: Choice)
    requires Acts(w, w', p, choice) && NeverAheadOfExecution(w')
    ensures p in w.apps && ClaimWriteFits(w.apps[p], ActOf(w, p, choice), w.files)
  {
    hide ApplyStep, Enabled, FreshIds, LeaseOf, ClaimBacked, ClaimsBehind, After, HistoryAfter;
    var act := ActOf(w, p, choice);
    if act.Do? && act.write.UpdateClaim? {
      UnbackedWriteBreaks(w.files, act);
    }
  }

  /** Then a claim whose handoff was observed has a prepared execution, a released one a finalized execution and an
   *  expired one an expired execution, all of the same connector, after a crash between any two writes. */
  lemma ClaimNeverAhead(run: seq<ApplyWorld>, k: nat, key: ClaimKey)
    requires FittingRun(run) && k < |run| && key in run[k].files.store.claims
    ensures var phase := run[k].files.store.claims[key].phase; var execs := run[k].files.execs;
      && (phase != Prepared ==> key.op in execs && execs[key.op].core.connector == key.instance)
      && (phase == HandoffObserved ==> ExecutionRank(execs[key.op].phase) >= 1)
      && (phase == Released ==> execs[key.op].phase.ExecFinalized?)
      && (phase == ClaimExpired ==> execs[key.op].phase.ExecExpired?)
  {
    hide ApplyRun, HandoverKnown, StepFits;
    FittingRunOk(run);
    assert HandoverOk(run[k]);
    assert ClaimBacked(run[k].files.store.claims[key].phase, run[k].files.execs, key);
  }

  /** So the conflict guards, which compare the claim found with the execution read, never fire. */
  lemma ConflictGuardsNeverFire(run: seq<ApplyWorld>, k: nat, p: nat)
    requires FittingRun(run) && k < |run| && p in run[k].apps && run[k].apps[p].Reading?
    ensures var ctx := run[k].apps[p].ctx; var execs := run[k].files.execs;
      && (ctx.inputs.op in execs ==> !PhasesConflict(ctx.claimPhase, execs[ctx.inputs.op].phase))
      && (ctx.inputs.op !in execs ==> ctx.claimPhase == Prepared)
  {
    hide ApplyRun, ClaimsBehind, StepFits;
    FittingRunOk(run);
    assert HandoverOk(run[k]);
    assert HandoverKnown(run[k].apps[p], run[k].files.execs);
  }

  lemma TwoBoundOneReleased(s: Store, execs: map<Token, ExecutionRecord>, op: Token)
    requires RecordsValid(s) && TerminalClaims(s) && ClaimsBehind(s.claims, execs)
    requires op in s.records && s.records[op].core.binding.workload.ConnectorHost? && AfterCompletion(s.records[op].phase)
    ensures SoleConnector(s.records[op].core)
  {
    var connectors := s.records[op].core.binding.workload.connectors;
    assert ValidRecord(s.records[op]) && |connectors| > 0;
    assert |connectors| > 1 ==> connectors[0].instance < connectors[1].instance;
    hide RecordsValid;
    forall k | 0 <= k < |connectors| ensures op in execs && connectors[k].instance == execs[op].core.connector {
      assert Connectors(s.records[op].core.binding.workload)[k].instance == connectors[k].instance;
      assert Binds(s.records[op].core, connectors[k].instance);
      assert ReleasedFor(s, op, connectors[k].instance);
      assert ClaimBacked(s.claims[ClaimKey(connectors[k].instance, op)].phase, execs, ClaimKey(connectors[k].instance, op));
    }
  }

  /** And then an operation with several connectors never completes through `apply`, because its execution record, which
   *  is keyed by operation, is of one of them. */
  lemma CompletedIsSole(run: seq<ApplyWorld>, k: nat, op: Token)
    requires FittingRun(run) && k < |run|
    requires op in run[k].files.store.records && run[k].files.store.records[op].core.binding.workload.ConnectorHost?
    requires run[k].files.store.records[op].phase in {Completed, RollbackFenced, RollbackConverged, RollbackBlocked}
    ensures SoleConnector(run[k].files.store.records[op].core)
  {
    hide ApplyRun, HandoverKnown, StepFits, ClaimsBehind, RecordsValid, TerminalClaims, SoleConnector;
    FittingRunOk(run);
    assert HandoverOk(run[k]);
    HostFrames.WorldFilesOk(run, k);
    TerminalParts(run[k].files);
    TwoBoundOneReleased(run[k].files.store, run[k].files.execs, op);
  }

  lemma TerminalParts(d: Durable)
    requires FilesOk(d)
    ensures RecordsValid(d.store) && TerminalClaims(d.store)
  {
    hide RecordsValid, OwnersValid, HistoryCurrent, Chained, UnownedPlanned, ClaimsValid, Rooted, NoRepeats, AllSettledBehind;
    hide ConnectorsOrdered, TerminalClaims, ExecsOk, IdsUnique, FramesOk;
  }

  // ----- quiet hand-overs -----

  predicate AboutClaim(task: Task) {
    task.ObserveHandoff? || task.ReleaseClaim? || task.GiveUpClaim?
  }

  /** The process may write the claim of its connector without asking the Host anything more. */
  predicate HasClaimTask(pc: ApplyPc) {
    pc.Reading? || (pc.Working? && exists k :: 0 <= k < |pc.tasks| && AboutClaim(pc.tasks[k]))
  }

  /** The operation whose lease the process holds owns the process's connector. */
  ghost predicate OwnsConnector(pc: ApplyPc, s: Store) {
    LeaseOf(pc).Some? ==>
      && pc.ctx.inputs.plan.instance in s.connOwners
      && s.connOwners[pc.ctx.inputs.plan.instance].current == LeaseOf(pc).value
  }

  /** The step takes no connector from an operation while a process that holds its lease has a claim task before it. */
  ghost predicate Quiet(w: ApplyWorld, w': ApplyWorld) {
    forall p :: p in w.apps && HasClaimTask(w.apps[p]) && OwnsConnector(w.apps[p], w.files.store) ==>
      OwnsConnector(w.apps[p], w'.files.store)
  }

  ghost predicate QuietRun(run: seq<ApplyWorld>) {
    && ApplyRun(run)
    && forall a, b :: 0 <= a && b == a + 1 < |run| ==> Quiet(run[a], run[b])
  }

  predicate Terminal(r: ExecutionRecord) {
    r.phase.ExecFinalized? || r.phase.ExecExpired?
  }

  /** The process has a claim task before it, or may come to have one. */
  predicate MayMoveClaim(pc: ApplyPc) {
    HasClaimTask(pc) || pc.Snapshotting? || pc.Creating? || (pc.Working? && !Terminal(pc.rec))
  }

  ghost predicate OwnsWhatItMoves(w: ApplyWorld) {
    forall p :: p in w.apps && MayMoveClaim(w.apps[p]) ==> OwnsConnector(w.apps[p], w.files.store)
  }

  lemma TakenHasSettled(s: Store, claim: ClaimIdentity)
    requires RecordsValid(s) && ClaimsValid(s) && Enabled(s, PublishConnectorOwner(claim))
    requires claim.instance in s.connOwners
    ensures var op := s.connOwners[claim.instance].current;
      && op in s.records && s.records[op].core.binding.workload.ConnectorHost?
      && (s.records[op].lastProven == Completed || s.records[op].lastProven == ExpiredUnclaimed)
  {
    hide IsCurrent, ConnectorPredecessor, ValidIdentity, ClaimAdmitted;
    var key := ClaimKey(claim.instance, s.connOwners[claim.instance].current);
    assert Canonical(s.records, key.op, key.instance, s.claims[key].core);
    assert ValidRecord(s.records[key.op]);
    hide RecordsValid, ClaimsValid, MatchesParent;
  }

  /** A connector is taken only from an operation whose execution is over. */
  lemma TakenIsTerminal(d: Durable, claim: ClaimIdentity)
    requires RecordsValid(d.store) && ClaimsValid(d.store) && OperationsBehind(d.store.records, d.execs)
    requires Enabled(d.store, PublishConnectorOwner(claim)) && claim.instance in d.store.connOwners
    ensures var op := d.store.connOwners[claim.instance].current; op in d.execs && Terminal(d.execs[op])
  {
    hide RecordsValid, ClaimsValid, Enabled;
    TakenHasSettled(d.store, claim);
    var op := d.store.connOwners[claim.instance].current;
    assert PhaseBacked(d.store.records[op].lastProven, d.execs, op);
  }

  lemma WriteLeavesConnector(d: Durable, w: Write, pc: ApplyPc)
    requires RecordsValid(d.store) && ClaimsValid(d.store) && OperationsBehind(d.store.records, d.execs)
    requires Enabled(d.store, w) && OwnsConnector(pc, d.store) && ApplyKnows(pc, d.execs) && HandoverNamed(pc)
    requires MayMoveClaim(pc) && !HasClaimTask(pc)
    ensures OwnsConnector(pc, After(d.store, w))
  {
    hide Enabled, TasksOk, RecordsValid, ClaimsValid, OperationsBehind;
    if w.PublishConnectorOwner? && w.claim.instance in d.store.connOwners {
      TakenIsTerminal(d, w.claim);
    }
  }

  lemma RestHasTask(tasks: seq<Task>)
    requires tasks != [] && exists k :: 0 <= k < |tasks[1..]| && AboutClaim(tasks[1..][k])
    ensures exists k :: 0 <= k < |tasks| && AboutClaim(tasks[k])
  {
    var k :| 0 <= k < |tasks[1..]| && AboutClaim(tasks[1..][k]);
    assert tasks[k + 1] == tasks[1..][k];
  }

  /** A process comes to have claim tasks only while it may. */
  lemma WorkMayMove(ctx: Context, r: ExecutionRecord, tasks: seq<Task>, d: Durable, choice: Choice)
    requires tasks != [] && TaskOk(r, tasks[0])
    ensures MayMoveClaim(WorkStep(ctx, r, tasks, d, choice).0) ==> MayMoveClaim(Working(ctx, r, tasks))
  {
    hide Answered, TaskFrame, Enabled, After, ChangeRecorded, ExpiryRecorded, AdvanceRound, ExecutionOk;
    if Terminal(r) {
      hide ClaimTask;
      var pc := WorkStep(ctx, r, tasks, d, choice).0;
      ClaimTaskPops(d.store, ctx, r, tasks);
      if pc.Working? && pc.tasks == tasks[1..] && HasClaimTask(pc) {
        RestHasTask(tasks);
      }
    }
  }

  lemma ClaimTaskPops(s: Store, ctx: Context, r: ExecutionRecord, tasks: seq<Task>)
    requires tasks != []
    ensures forall change :: ClaimTask(s, ctx, r, tasks, change).0 == Working(ctx, r, tasks[1..]) || ClaimTask(s, ctx, r, tasks, change).0.Returned?
  {
    hide Enabled, ChangeRecorded;
  }

  lemma ConnectorMovesNone(pc: ApplyPc, d: Durable)
    requires pc.Publishing? || pc.Converging?
    ensures !MayMoveClaim(ConnectorStep(pc, d).0)
  {
    hide ConnectorAllowed, ForeignClaim, Enabled;
  }

  /** A step gives a process claim tasks only while it may come to have them, and takes no connector then. */
  lemma StepMayMove(pc: ApplyPc, d: Durable, free: bool, choice: Choice)
    requires ExecsOk(d.execs) && ApplyKnows(pc, d.execs)
    ensures MayMoveClaim(ApplyStep(pc, d, free, choice).0) ==> MayMoveClaim(pc) || (pc.Leasing? && OwnsConnector(ApplyStep(pc, d, free, choice).0, d.store))
    ensures LeaseOf(ApplyStep(pc, d, free, choice).0).Some? && !pc.Leasing? ==>
      LeaseOf(pc).Some? && ApplyStep(pc, d, free, choice).0.ctx.inputs == pc.ctx.inputs
  {
    hide ExecsOk, WorkStep, ConnectorStep, AdvanceRound, Loaded, IdentityMatches, OperationMatches, ApplyKnows;
    hide ConnectorPredecessor, PreparedClaim, FilesMatchPlan, ValidRevision, HeaderFor, Enabled, NewRecord, MayMoveClaim;
    match pc
    case Working(ctx, r, tasks) =>
      if tasks != [] {
        assert TaskOk(r, tasks[0]) by { FirstKnown(ctx, r, tasks, d.execs); }
        WorkMayMove(ctx, r, tasks, d, choice);
        WorkStays(ctx, r, tasks, d, choice);
      } else {
        assert !MayMoveClaim(Returned(Ok(()))) by { ReturnedMovesNone(Ok(())); }
      }
    case Reading(ctx) =>
      assert MayMoveClaim(pc) by { ReadingMoves(ctx); }
      if ctx.inputs.op in d.execs { LoadedSame(ctx, d.execs[ctx.inputs.op]); }
    case Creating(ctx, initial) =>
      assert MayMoveClaim(pc) by { CreatingMoves(ctx, initial); }
      LoadedSame(ctx, NewRecord(ctx.inputs, initial, choice.ids));
    case Publishing(_, _, _, _) => ConnectorMovesNone(pc, d); ConnectorStaysOut(pc, d);
    case Converging(_, _, _, _) => ConnectorMovesNone(pc, d); ConnectorStaysOut(pc, d);
    case _ => OthersMoveNone(pc, d, free, choice);
  }

  lemma FirstKnown(ctx: Context, r: ExecutionRecord, tasks: seq<Task>, execs: map<Token, ExecutionRecord>)
    requires ApplyKnows(Working(ctx, r, tasks), execs) && tasks != []
    ensures TaskOk(r, tasks[0])
  {
    FirstDue(r, tasks);
  }

  lemma ReturnedMovesNone(outcome: Result<()>)
    ensures !MayMoveClaim(Returned(outcome))
  {
  }

  lemma ReadingMoves(ctx: Context)
    ensures MayMoveClaim(Reading(ctx))
  {
  }

  lemma CreatingMoves(ctx: Context, initial: Revision)
    ensures MayMoveClaim(Creating(ctx, initial))
  {
  }

  lemma OthersMoveNone(pc: ApplyPc, d: Durable, free: bool, choice: Choice)
    requires pc.Returned? || pc.Entering? || pc.Preparing? || pc.Proving? || pc.Leasing? || pc.Snapshotting?
    ensures MayMoveClaim(ApplyStep(pc, d, free, choice).0) ==> MayMoveClaim(pc) || (pc.Leasing? && OwnsConnector(ApplyStep(pc, d, free, choice).0, d.store))
  {
    hide AdvanceRound, OperationMatches, ConnectorPredecessor, PreparedClaim, FilesMatchPlan, ValidRevision;
  }

  lemma QuietActs(w: ApplyWorld, w': ApplyWorld, p: nat, choice: Choice)
    requires ApplyOk(w) && LagOk(w) && AllNamed(w) && OwnsWhatItMoves(w) && Acts(w, w', p, choice) && Quiet(w, w')
    ensures OwnsWhatItMoves(w') && ClaimWriteFits(w.apps[p], ActOf(w, p, choice), w.files)
  {
    hide ApplyStep, FilesOk, LeasesApart, ApplyKnows, CopyKnown, OperationsBehind, ExecutionsBacked, Enabled, FreshIds;
    hide After, HistoryAfter;
    hide HandoverNamed, OwnsConnector, LeaseOf, MayMoveClaim, HasClaimTask, LeaseFree, ClaimWriteFits;
    var free := w.apps[p].Leasing? && LeaseFree(w, w.apps[p].ctx.inputs.op);
    var (pc, act) := ApplyStep(w.apps[p], w.files, free, choice);
    FilesParts(w.files);
    StepMayMove(w.apps[p], w.files, free, choice);
    forall q | q in w'.apps && MayMoveClaim(w'.apps[q]) ensures OwnsConnector(w'.apps[q], w'.files.store) {
      if q != p {
        OthersKeepConnector(w, w', q, act);
      } else {
        SelfKeepsConnector(w, w', p, pc, act, free, choice);
      }
    }
    OwnerWritesFit(w.apps[p], w.files, free, choice);
  }

  lemma OthersKeepConnector(w: ApplyWorld, w': ApplyWorld, q: nat, act: Act)
    requires ApplyOk(w) && LagOk(w) && AllNamed(w) && OwnsWhatItMoves(w) && Quiet(w, w') && q in w.apps
    requires MayMoveClaim(w.apps[q])
    requires act.Do? ==> Enabled(w.files.store, act.write)
    requires w'.files == Perform(w.files, act)
    ensures OwnsConnector(w.apps[q], w'.files.store)
  {
    hide LeasesApart, ApplyKnows, CopyKnown, ExecutionsBacked, Enabled, After, HistoryAfter, OperationsBehind, FilesOk;
    hide HandoverNamed, OwnsConnector, MayMoveClaim, HasClaimTask;
    FilesParts(w.files);
    if !HasClaimTask(w.apps[q]) && act.Do? {
      WriteLeavesConnector(w.files, act.write, w.apps[q]);
    }
  }

  lemma SelfKeepsConnector(w: ApplyWorld, w': ApplyWorld, p: nat, pc: ApplyPc, act: Act, free: bool, choice: Choice)
    requires ApplyOk(w) && LagOk(w) && AllNamed(w) && OwnsWhatItMoves(w) && Quiet(w, w') && p in w.apps
    requires MayMoveClaim(pc)
    requires (pc, act) == ApplyStep(w.apps[p], w.files, free, choice)
    requires act.Do? ==> Enabled(w.files.store, act.write)
    requires w'.files == Perform(w.files, act)
    ensures OwnsConnector(pc, w'.files.store)
  {
    hide LeasesApart, ApplyKnows, CopyKnown, ExecutionsBacked, Enabled, After, HistoryAfter, OperationsBehind, FilesOk;
    hide ApplyStep;
    hide HandoverNamed, MayMoveClaim, HasClaimTask, OwnsConnector;
    FilesParts(w.files);
    StepMayMove(w.apps[p], w.files, free, choice);
    if MayMoveClaim(w.apps[p]) {
      OthersKeepConnector(w, w', p, act);
      assert OwnsConnector(pc, w'.files.store) by { SameLease(w.apps[p], pc, w'.files.store); }
    } else {
      LeasingWritesNothing(w.apps[p], w.files, free, choice);
    }
  }

  lemma SameLease(pc: ApplyPc, next: ApplyPc, s: Store)
    requires OwnsConnector(pc, s) && MayMoveClaim(pc)
    requires LeaseOf(next).Some? && !pc.Leasing? ==> LeaseOf(pc).Some? && next.ctx.inputs == pc.ctx.inputs
    ensures OwnsConnector(next, s)
  {
  }

  lemma LeasingWritesNothing(pc: ApplyPc, d: Durable, free: bool, choice: Choice)
    requires pc.Leasing?
    ensures ApplyStep(pc, d, free, choice).1.Skip?
  {
  }

  /** A process writes a claim only through a claim task. */
  lemma OwnerWritesFit(pc: ApplyPc, d: Durable, free: bool, choice: Choice)
    requires HandoverNamed(pc) && (MayMoveClaim(pc) ==> OwnsConnector(pc, d.store))
    ensures ClaimWriteFits(pc, ApplyStep(pc, d, free, choice).1, d)
  {
    hide AdvanceRound, Loaded, OperationMatches, IdentityMatches, LeaseGranted, ConnectorPredecessor, PreparedClaim;
    hide FilesMatchPlan;
    hide ValidRevision, HeaderFor, Enabled, After, ClaimBacked, ChangeRecorded, ExpiryRecorded, Answered, TaskFrame;
    hide Continued, ConnectorAllowed;
    match pc
    case Working(ctx, r, tasks) =>
      if tasks != [] {
        assert AboutClaim(tasks[0]) ==> HasClaimTask(pc);
        if tasks[0].AdvanceTo? { RoundIsRecord(d.store, ctx.operation, tasks[0].target); }
      }
    case Proving(ctx) => RoundIsRecord(d.store, ctx.operation, ArtifactsVerified);
    case _ =>
  }

  lemma QuietNext(w: ApplyWorld, w': ApplyWorld)
    requires ApplyOk(w) && LagOk(w) && AllNamed(w) && OwnsWhatItMoves(w) && ApplyNext(w, w') && Quiet(w, w')
    ensures OwnsWhatItMoves(w') && StepFits(w, w')
  {
    hide Acts, ApplyOk, LagOk, AllNamed, MayMoveClaim, OwnsConnector, Quiet, ClaimWriteFits, TaskFrame, Enabled, After;
    hide HistoryAfter, Foreign;
    forall p, choice | p in w.apps && Acts(w, w', p, choice)
      ensures ClaimWriteFits(w.apps[p], ActOf(w, p, choice), w.files) && OwnsWhatItMoves(w')
    {
      QuietActs(w, w', p, choice);
    }
    if p, choice :| Acts(w, w', p, choice) {
      QuietActs(w, w', p, choice);
    } else if p :| LosesReply(w, w', p) {
    } else if write :| Meddles(w, w', write) {
      forall q | q in w'.apps && MayMoveClaim(w'.apps[q]) ensures OwnsConnector(w'.apps[q], w'.files.store) {
        OthersKeepConnector(w, w', q, Do(write));
      }
    } else if p, inputs, expired :| Begins(w, w', p, inputs, expired) {
      assert !MayMoveClaim(Entering(inputs, expired)) by { EntryMovesNone(inputs, expired); }
    } else {
    }
  }

  lemma EntryMovesNone(inputs: Inputs, expired: bool)
    ensures !MayMoveClaim(Entering(inputs, expired))
  {
  }

  /** Quiet hand-overs are enough: in such a run every claim write fits. */
  lemma {:induction false} QuietRunFits(run: seq<ApplyWorld>)
    requires QuietRun(run)
    ensures FittingRun(run)
  {
    hide ApplyNext, ApplyOk, LagOk, AllNamed, Quiet, StepFits;
    RunNamed(run);
    assert OwnsWhatItMoves(run[0]);
    hide OwnsWhatItMoves, ApplyInit;
    var k := 0;
    while k < |run| - 1
      invariant 0 <= k < |run|
      invariant OwnsWhatItMoves(run[k])
      invariant forall a, b :: 0 <= a && b == a + 1 <= k ==> StepFits(run[a], run[b])
    {
      assert ApplyNext(run[k], run[k + 1]);
      assert Quiet(run[k], run[k + 1]);
      QuietNext(run[k], run[k + 1]);
      k := k + 1;
    }
  }
}
