/** Once a connector claim is released, no later application of its operation gets anywhere until the operation has
 *  settled: a crash between the release and the completion is not repaired, whatever else runs.
 */
module ReleasedClaims {
  import opened Domain
  import opened Records
  import opened StateActions
  import opened StateInvariants
  import opened StateProofs
  import opened Calls
  import opened Execution
  import opened ApplyMachine
  import opened ApplyProofs
  import opened Lag
  import opened Handover

  ghost predicate ClaimReleased(s: Store, ctx: Context) {
    var key := ClaimKey(ctx.inputs.plan.instance, ctx.inputs.op);
    key in s.claims && s.claims[key].phase == Released
  }

  /** Another operation has taken the connector over. */
  ghost predicate Taken(s: Store, ctx: Context) {
    ctx.inputs.plan.instance in s.connOwners && s.connOwners[ctx.inputs.plan.instance].current != ctx.inputs.op
  }

  /** Where a process can be that found its claim released: before a task that a released claim refuses, unless the
   *  connector was taken over. */
  ghost predicate FoundReleased(pc: ApplyPc, s: Store) {
    match pc
    case Proving(ctx) => ctx.claimPhase == Released ==> ClaimReleased(s, ctx)
    case Leasing(ctx) => ctx.claimPhase == Released ==> ClaimReleased(s, ctx)
    case Reading(ctx) => ctx.claimPhase == Released ==> ClaimReleased(s, ctx)
    case Snapshotting(ctx) => ctx.claimPhase != Released
    case Creating(ctx, _) => ctx.claimPhase != Released
    case Working(ctx, r, tasks) =>
      ctx.claimPhase == Released ==>
        ClaimReleased(s, ctx) && (Taken(s, ctx) || (tasks != [] && (tasks[0].ObserveHandoff? || tasks[0].GiveUpClaim?)))
    case _ => true
  }

  predicate Late(pc: ApplyPc) {
    (pc.Proving? || pc.Leasing? || pc.Reading? || pc.Working?) && pc.ctx.claimPhase == Released
  }

  // ----- connectors of unsettled operations -----

  lemma ClaimantInHistory(s: Store, h: History, op: Token, i: Token)
    requires ConnectorsOrdered(s, h) && ClaimKey(i, op) in s.claims
    ensures i in s.connOwners && ConnectorOrdered(s, h, i) && op in ConnectorHistory(h, i)
  {
    hide ConnectorOrdered;
    var key := ClaimKey(i, op);
    assert key.op in ConnectorHistory(h, key.instance);
    assert i in h.connectors;
  }

  lemma EarlierStandsBehind(sub: seq<Token>, chain: seq<Token>, k: nat)
    requires Increasing(sub, chain) && k < |sub| - 1
    ensures sub[k] != sub[|sub| - 1]
    ensures IndexOf(chain, sub[k]) + 1 < |chain| && chain[IndexOf(chain, sub[k])] == sub[k]
  {
    hide IndexOf;
    assert IndexOf(chain, sub[k]) < IndexOf(chain, sub[|sub| - 1]);
    assert sub[k] in chain && sub[|sub| - 1] in chain;
  }

  /** An owner of a connector that another operation followed has settled. */
  lemma FollowedHasSettled(s: Store, h: History, i: Token, k: nat)
    requires AllSettledBehind(s, h) && i in s.connOwners && ConnectorOrdered(s, h, i) && k < |ConnectorHistory(h, i)| - 1
    ensures ConnectorHistory(h, i)[k] in s.records && Settled(s.records[ConnectorHistory(h, i)[k]].phase)
  {
    hide Settled, ReissueOf, Increasing, BindersOf, IndexOf;
    var owners := ConnectorHistory(h, i);
    var f := FenceOf(s.records[s.connOwners[i].current].core);
    EarlierStandsBehind(owners, TargetHistory(h, f), k);
    assert SettledBehind(s, h.targets, f, IndexOf(TargetHistory(h, f), owners[k]) + 1);
  }

  /** An operation that has claimed a connector and has not settled still owns it. */
  lemma UnsettledKeepsConnector(s: Store, h: History, op: Token, i: Token)
    requires Ordered(s, h) && ClaimKey(i, op) in s.claims && op in s.records
    ensures i in s.connOwners
    ensures !Settled(s.records[op].phase) ==> s.connOwners[i].current == op
  {
    hide Consistent, Rooted, NoRepeats, TerminalClaims, AllSettledBehind, ConnectorsOrdered, ConnectorHistory, Settled;
    hide BindersOf, Increasing;
    ClaimantInHistory(s, h, op, i);
    var owners := ConnectorHistory(h, i);
    var k :| 0 <= k < |owners| && owners[k] == op;
    if k < |owners| - 1 {
      FollowedHasSettled(s, h, i, k);
    }
  }

  lemma NewcomerIsNew(s: Store, h: History, i: Token, owners: seq<Token>, newcomer: Token)
    requires i in s.connOwners && ConnectorOrdered(s, h, i) && ConnectorHistory(h, i) == owners + [newcomer]
    ensures newcomer !in owners
  {
    hide BindersOf, Increasing, IndexOf;
    var all := owners + [newcomer];
    var chain := TargetHistory(h, FenceOf(s.records[s.connOwners[i].current].core));
    forall k | 0 <= k < |owners| ensures owners[k] != newcomer {
      EarlierStandsBehind(all, chain, k);
      assert all[k] == owners[k];
    }
  }

  /** A connector that was taken over never comes back. */
  lemma TakenStays(s: Store, h: History, w: Write, ctx: Context)
    requires Ordered(s, h) && Enabled(s, w) && ClaimReleased(s, ctx) && Taken(s, ctx)
    ensures Taken(After(s, w), ctx)
  {
    hide Ordered, Enabled;
    if w.PublishConnectorOwner? && w.claim.instance == ctx.inputs.plan.instance {
      NewOwnerIsNewHere(s, h, w.claim, ctx.inputs.op);
    }
  }

  lemma NewOwnerIsNewHere(s: Store, h: History, claim: ClaimIdentity, op: Token)
    requires Ordered(s, h) && Enabled(s, PublishConnectorOwner(claim)) && ClaimKey(claim.instance, op) in s.claims
    ensures claim.op != op
  {
    var w := PublishConnectorOwner(claim);
    WriteOrdered(s, h, w);
    hide Consistent, Rooted, NoRepeats, AllSettledBehind, TerminalClaims, ConnectorsOrdered, Enabled, ConnectorOrdered;
    hide ConnectorHistory, After, HistoryAfter;
    NewOwnerPlace(s, h, claim);
    ClaimantInHistory(s, h, op, claim.instance);
    NewcomerIsNew(After(s, w), HistoryAfter(s, h, w), claim.instance, ConnectorHistory(h, claim.instance), claim.op);
  }

  lemma NewOwnerPlace(s: Store, h: History, claim: ClaimIdentity)
    requires Enabled(s, PublishConnectorOwner(claim))
    requires var w := PublishConnectorOwner(claim); ConnectorsOrdered(After(s, w), HistoryAfter(s, h, w))
    ensures var w := PublishConnectorOwner(claim); var i := claim.instance;
      && i in After(s, w).connOwners && ConnectorOrdered(After(s, w), HistoryAfter(s, h, w), i)
      && ConnectorHistory(HistoryAfter(s, h, w), i) == ConnectorHistory(h, i) + [claim.op]
  {
    hide ConnectorOrdered, Enabled;
  }

  lemma ReleasedStays(s: Store, w: Write, ctx: Context)
    requires Enabled(s, w) && ClaimReleased(s, ctx)
    ensures ClaimReleased(After(s, w), ctx)
  {
    hide CanOwn, CompletionVerified, ClaimAdmitted, PriorAllows, IsCurrent, Changed;
  }

  lemma FoundStays(pc: ApplyPc, s: Store, h: History, w: Write)
    requires Ordered(s, h) && Enabled(s, w) && FoundReleased(pc, s)
    ensures FoundReleased(pc, After(s, w))
  {
    hide Enabled, After, ClaimReleased, Ordered, Taken;
    if Late(pc) {
      ReleasedStays(s, w, pc.ctx);
      if Taken(s, pc.ctx) {
        TakenStays(s, h, w, pc.ctx);
      }
    }
  }

  // ----- one step -----

  /** An operation with a finalized execution cannot be advanced from an early phase. */
  lemma LateRound(ctx: Context, d: Durable)
    requires RecordsValid(d.store) && ExecutionsBacked(d.store.records, d.execs) && ctx.inputs.op in d.execs
    requires CopyOk(ctx.operation, ctx.inputs, d.store.records)
    ensures !AdvanceRound(d.store, ctx.operation, ArtifactsVerified).Onward?
  {
    hide IsCurrent, CompletionVerified, ValidIdentity;
    var op := ctx.inputs.op;
    assert ProvenRank(d.store.records[op].lastProven) >= 3;
  }

  /** A released claim cannot be observed or given up. */
  lemma ReleasedRefuses(s: Store, ctx: Context, i: Token, change: ClaimChange)
    requires ClaimReleased(s, ctx) && i == ctx.inputs.plan.instance && i in s.connOwners
    requires s.connOwners[i].current == ctx.inputs.op
    requires change.Observe? || change.ExpireClaim?
    ensures !ChangeRecorded(s, i, change) && !Enabled(s, UpdateClaim(i, change))
  {
  }

  lemma LateTask(ctx: Context, r: ExecutionRecord, tasks: seq<Task>, d: Durable, choice: Choice)
    requires ctx.claimPhase == Released && FoundReleased(Working(ctx, r, tasks), d.store) && !Taken(d.store, ctx)
    requires ctx.inputs.plan.instance in d.store.connOwners && HandoverNamed(Working(ctx, r, tasks))
    ensures tasks != [] && WorkStep(ctx, r, tasks, d, choice) == (Returned(Err(Conflict)), Skip)
  {
    hide Enabled, ChangeRecorded;
    ReleasedRefuses(d.store, ctx, r.core.connector, if tasks[0].ObserveHandoff? then Observe else ExpireClaim);
  }

  lemma LateLoads(ctx: Context, r: ExecutionRecord)
    requires ctx.claimPhase == Released
    ensures var pc := Loaded(ctx, r);
      pc == Returned(Err(Conflict))
      || (pc.Working? && pc.ctx == ctx && pc.rec == r && pc.tasks != [] && (pc.tasks[0].ObserveHandoff? || pc.tasks[0].GiveUpClaim?))
  {
  }

  /** A process that found its claim released, of an operation that has not settled and whose execution is finalized,
   *  only ever stops with an error. */
  lemma LateStep(pc: ApplyPc, d: Durable, free: bool, choice: Choice)
    requires RecordsValid(d.store) && ExecutionsBacked(d.store.records, d.execs)
    requires CopyKnown(pc, d.store.records) && HandoverNamed(pc) && FoundReleased(pc, d.store) && Late(pc)
    requires pc.ctx.inputs.op in d.execs
    requires pc.ctx.inputs.plan.instance in d.store.connOwners && !Taken(d.store, pc.ctx)
    ensures var (next, act) := ApplyStep(pc, d, free, choice);
      act.Skip? && (Late(next) || (next.Returned? && next.outcome.Err?))
  {
    hide RecordsValid, ExecutionsBacked, IdentityMatches, LeaseGranted, Enabled, ChangeRecorded, After, PhaseRank;
    hide ProvenRank, WorkStep, Loaded, Taken;
    match pc
    case Proving(ctx) =>
      LateRound(ctx, d);
      hide AdvanceRound;
    case Working(ctx, r, tasks) => LateTask(ctx, r, tasks, d, choice);
    case Reading(ctx) => LateLoads(ctx, d.execs[ctx.inputs.op]);
    case Leasing(_) =>
  }

  lemma WorkKeepsFound(ctx: Context, r: ExecutionRecord, tasks: seq<Task>, d: Durable, choice: Choice)
    requires tasks != []
    ensures var (pc, act) := WorkStep(ctx, r, tasks, d, choice);
      pc.Returned? || (pc.Working? && pc.ctx.claimPhase == ctx.claimPhase && pc.ctx.inputs == ctx.inputs)
  {
    hide Answered, TaskFrame, Continued, Enabled, After, ChangeRecorded, ExpiryRecorded, AdvanceRound;
    var task := tasks[0];
    if Asks(task) {
      AnsweredSame(ctx, r, task, choice);
    } else if task.Continue? {
      ContinuedSame(ctx, r);
    }
  }

  /** Wherever a process goes, it knows the same of a released claim; it finds one when it claims the connector. */
  lemma StepFinds(pc: ApplyPc, d: Durable, free: bool, choice: Choice)
    requires HandoverNamed(pc) && FoundReleased(pc, d.store)
    requires Late(pc) && pc.Working? ==> pc.ctx.inputs.plan.instance in d.store.connOwners
    ensures FoundReleased(ApplyStep(pc, d, free, choice).0, d.store)
  {
    hide WorkStep, AdvanceRound, Loaded, OperationMatches, IdentityMatches, LeaseGranted, ClaimReleased, Taken;
    hide ConnectorPredecessor, PreparedClaim, FilesMatchPlan, ValidRevision, NewRecord, Enabled, ConnectorAllowed;
    match pc
    case Working(ctx, r, tasks) =>
      if Late(pc) && !Taken(d.store, ctx) {
        LateTask(ctx, r, tasks, d, choice);
      } else if tasks != [] {
        WorkKeepsFound(ctx, r, tasks, d, choice);
        SameClaim(d.store, ctx, ApplyStep(pc, d, free, choice).0);
      }
    case Reading(ctx) =>
      if ctx.inputs.op in d.execs {
        LoadedSame(ctx, d.execs[ctx.inputs.op]);
        if Late(pc) { LateLoads(ctx, d.execs[ctx.inputs.op]); }
      }
    case Creating(ctx, initial) => LoadedSame(ctx, NewRecord(ctx.inputs, initial, choice.ids));
    case Proving(ctx) => ProvingFinds(ctx, d, free, choice);
    case Converging(inputs, expired, operation, claim) => ConvergingFinds(pc, d);
    case _ =>
  }

  lemma SameClaim(s: Store, ctx: Context, next: ApplyPc)
    requires next.Working? ==> next.ctx.claimPhase == ctx.claimPhase && next.ctx.inputs == ctx.inputs
    requires next.Working? || next.Returned?
    requires ctx.claimPhase == Released ==> ClaimReleased(s, ctx) && Taken(s, ctx)
    ensures FoundReleased(next, s)
  {
  }

  lemma ProvingFinds(ctx: Context, d: Durable, free: bool, choice: Choice)
    requires FoundReleased(Proving(ctx), d.store)
    ensures FoundReleased(ApplyStep(Proving(ctx), d, free, choice).0, d.store)
  {
    hide AdvanceRound;
  }

  lemma ConvergingFinds(pc: ApplyPc, d: Durable)
    requires pc.Converging? && HandoverNamed(pc)
    ensures FoundReleased(ConnectorStep(pc, d).0, d.store)
  {
    hide Enabled;
  }

  // ----- every world of every run -----

  ghost predicate AllFound(w: ApplyWorld) {
    forall p :: p in w.apps ==> FoundReleased(w.apps[p], w.files.store)
  }

  lemma ActFinds(w: ApplyWorld, pc: ApplyPc, act: Act)
    requires Ordered(w.files.store, w.files.history) && FoundReleased(pc, w.files.store)
    requires act.Do? ==> Enabled(w.files.store, act.write)
    ensures FoundReleased(pc, Perform(w.files, act).store)
  {
    hide FoundReleased, Enabled, After, HistoryAfter, Ordered;
    if act.Do? {
      FoundStays(pc, w.files.store, w.files.history, act.write);
    }
  }

  lemma OrderedFiles(d: Durable)
    requires FilesOk(d)
    ensures Ordered(d.store, d.history) && RecordsValid(d.store)
  {
    FilesParts(d);
    hide Ordered, ExecsOk, IdsUnique, FramesOk, RecordsValid;
  }

  lemma LateOwned(d: Durable, pc: ApplyPc)
    requires Ordered(d.store, d.history) && CopyKnown(pc, d.store.records) && FoundReleased(pc, d.store) && Late(pc)
    ensures pc.ctx.inputs.plan.instance in d.store.connOwners && pc.ctx.inputs.op in d.store.records
    ensures !Settled(d.store.records[pc.ctx.inputs.op].phase) ==> !Taken(d.store, pc.ctx)
  {
    hide Ordered, Settled;
    UnsettledKeepsConnector(d.store, d.history, pc.ctx.inputs.op, pc.ctx.inputs.plan.instance);
  }

  lemma NextFound(w: ApplyWorld, w': ApplyWorld)
    requires ApplyOk(w) && LagOk(w) && AllNamed(w) && AllFound(w) && ApplyNext(w, w')
    ensures AllFound(w')
  {
    hide ApplyStep, FilesOk, LeasesApart, ApplyKnows, CopyKnown, OperationsBehind, ExecutionsBacked, Enabled, FreshIds;
    hide After, HistoryAfter;
    hide HandoverNamed, FoundReleased, TaskFrame, LeaseFree, Ordered, Foreign, Taken, Late;
    OrderedFiles(w.files);
    if p, choice :| Acts(w, w', p, choice) {
      var free := w.apps[p].Leasing? && LeaseFree(w, w.apps[p].ctx.inputs.op);
      if Late(w.apps[p]) {
        LateOwned(w.files, w.apps[p]);
      }
      StepFinds(w.apps[p], w.files, free, choice);
      var (pc, act) := ApplyStep(w.apps[p], w.files, free, choice);
      ActFinds(w, pc, act);
      forall q | q in w.apps ensures FoundReleased(w.apps[q], w'.files.store) {
        ActFinds(w, w.apps[q], act);
      }
    } else if p :| LosesReply(w, w', p) {
    } else if write :| Meddles(w, w', write) {
      forall q | q in w.apps ensures FoundReleased(w.apps[q], w'.files.store) {
        ActFinds(w, w.apps[q], Do(write));
      }
    } else if p, inputs, expired :| Begins(w, w', p, inputs, expired) {
      EntryFound(inputs, expired, w.files.store);
    } else {
    }
  }

  lemma EntryFound(inputs: Inputs, expired: bool, s: Store)
    ensures FoundReleased(Entering(inputs, expired), s)
  {
  }

  lemma {:induction false} RunFound(run: seq<ApplyWorld>)
    requires ApplyRun(run)
    ensures forall k :: 0 <= k < |run| ==> ApplyOk(run[k]) && LagOk(run[k]) && AllNamed(run[k]) && AllFound(run[k])
  {
    hide ApplyNext, ApplyOk, LagOk, AllNamed;
    RunNamed(run);
    assert AllFound(run[0]);
    hide AllFound, ApplyInit;
    var k := 0;
    while k < |run| - 1
      invariant 0 <= k < |run|
      invariant forall j :: 0 <= j <= k ==> AllFound(run[j])
    {
      assert ApplyNext(run[k], run[k + 1]);
      NextFound(run[k], run[k + 1]);
      k := k + 1;
    }
  }

  /** In every run, while the operation has not settled and its execution is finalized, a process that found the claim
   *  released writes nothing more, sends nothing to the Host, and if it returns, returns an error: a crash between the
   *  release and the completion is not repaired by replay. */
  lemma ReleasedNeverProceeds(run: seq<ApplyWorld>, k: nat, p: nat, choice: Choice)
    requires ApplyRun(run) && k + 1 < |run| && Acts(run[k], run[k + 1], p, choice) && Late(run[k].apps[p])
    requires var op := run[k].apps[p].ctx.inputs.op; var d := run[k].files;
      && op in d.store.records && d.store.records[op].phase !in {Completed, RollbackConverged, ExpiredUnclaimed}
      && op in d.execs && d.execs[op].phase.ExecFinalized?
    ensures run[k + 1].files == run[k].files
    ensures p in run[k + 1].apps
    ensures (Late(run[k + 1].apps[p]) || (run[k + 1].apps[p].Returned? && run[k + 1].apps[p].outcome.Err?))
  {
    hide ApplyStep, FilesOk, LeasesApart, ApplyKnows, CopyKnown, OperationsBehind, ExecutionsBacked, Enabled, FreshIds;
    hide Ordered;
    hide HandoverNamed, FoundReleased, LeaseFree, ApplyRun, Late, Taken, RecordsValid;
    RunFound(run);
    var w := run[k];
    OrderedFiles(w.files);
    LateOwned(w.files, w.apps[p]);
    LateStep(w.apps[p], w.files, w.apps[p].Leasing? && LeaseFree(w, w.apps[p].ctx.inputs.op), choice);
  }
}
