/** A run in which a connector changes hands under a process that still holds the old owner's lease.
 *
 * Two processes apply operation 1, whose bootstrap has expired.  The first records the expiry everywhere and returns;
 * the second then takes the lease.  Operation 2 reissues the bootstrap and claims the connector.  The second process
 * goes on to expire "the" claim of the connector, which by then is the fresh claim of operation 2.
 */
module HandoverRace {
  import opened Domain
  import opened Records
  import opened StateActions
  import opened Calls
  import opened Execution
  import opened ApplyMachine
  import opened Handover
  import opened HostModel
  import opened ApplyAlone
  import Recovery
  import StepMachine

  const PRODUCT := Artifact(0, 0)
  const MACHINE := Host(0, 0, 0, 0)
  const WORKLOAD := ConnectorHost(0, [BoundConnector(0, Codex, 0)])

  function Bootstrap(op: Token, predecessor: Option<Token>): OperationIdentity {
    OperationIdentity(op, 0, PRODUCT, OperationBinding(0, MACHINE, PRODUCT, WORKLOAD), 0, predecessor)
  }

  function ClaimOf(op: Token, predecessor: Option<Token>): ClaimIdentity {
    ClaimIdentity(op, 0, 0, 0, PRODUCT, Codex, 0, predecessor)
  }

  const FENCE := FenceOf(Bootstrap(1, None))
  const PLAN := Plan(9, 0, 0, MACHINE, 0, Codex, 0, 0, 0, 0, 0, None)
  const INPUTS := Inputs(1, 0, 0, PRODUCT, PLAN, Files(0, 0, 0, 0, 0))
  const IDS := HostIds(1, 2, 3)
  const START := Revision(1, None)
  const EXECUTION := NewRecord(INPUTS, START, IDS)
  const NO_EFFECT := MaterialResult(PrepareMaterial, Applied, DispositionExpired, START, 0, StateExpired, None, None)

  function At(phase: OperationPhase): OperationRecord {
    OperationRecord(Bootstrap(1, None), phase, phase, None)
  }

  function Copy(phase: OperationPhase): Context {
    Context(INPUTS, At(phase), false, Prepared)
  }

  /** The store while operation 1 is the only one. */
  function Alone(phase: OperationPhase, claim: Option<ClaimPhase>): Store {
    Store(map[1 := At(phase)], map[FENCE := OwnershipOf(Bootstrap(1, None))],
          if claim.Some? then map[0 := ConnectorOwnershipOf(ClaimOf(1, None))] else map[],
          if claim.Some? then map[ClaimKey(0, 1) := ConnectorClaim(ClaimOf(1, None), claim.value)] else map[])
  }

  // ----- the stages -----

  lemma Opens() returns (run: seq<ApplyWorld>)
    ensures ApplyRun(run) && run != []
    ensures Last(run).files.store == Alone(Planned, None) && Last(run).files.execs == map[] && Last(run).apps == map[]
  {
    hide ApplyRun;
    var w := ApplyWorld(Durable(Store(map[], map[], map[], map[]), History(map[], map[]), map[], []), map[]);
    run := [w];
    Begun(w);
    run := Writes(run, CreateRecord(Bootstrap(1, None)));
    run := Writes(run, PublishOwner(Bootstrap(1, None)));
  }

  lemma NothingNamed()
    ensures StepMachine.NamedOnce(map[]) == map[]
  {
    assert StepMachine.NamedOnce(map[]).Keys == {};
  }

  lemma Begun(w: ApplyWorld)
    requires w == ApplyWorld(Durable(Store(map[], map[], map[], map[]), History(map[], map[]), map[], []), map[])
    ensures ApplyRun([w])
  {
    NothingNamed();
  }

  const NOTHING := Choice(Rejected, IDS, Files(0, 0, 0, 0, 0), false)
  const HOST := HostState(0, 0, START, map[], map[], map[], 0)

  lemma CoreMatches(core: OperationIdentity)
    requires core == Bootstrap(1, None)
    ensures OperationMatches(core, INPUTS)
  {
    assert FindConnector(core.binding.workload.connectors, 0) == Some(BoundConnector(0, Codex, 0));
  }

  lemma FilesFit()
    ensures FilesMatchPlan(INPUTS.files, INPUTS.plan) && INPUTS.plan.bundle.None? && INPUTS.plan.instance == 0
    ensures INPUTS.op == 1
    ensures HOST.tenant == INPUTS.plan.host.tenant && HOST.hostId == INPUTS.plan.host.hostId
    ensures INPUTS.plan.host == MACHINE
    ensures HOST.revision == START && ValidRevision(START)
  {
  }

  lemma ClaimMatches(op: Token, predecessor: Option<Token>)
    ensures MatchesParent(ClaimOf(op, predecessor), Bootstrap(op, predecessor))
  {
    assert FindConnector(WORKLOAD.connectors, 0) == Some(BoundConnector(0, Codex, 0));
  }

  lemma OneAdmitted(s: Store, phase: OperationPhase, claim: Option<ClaimPhase>)
    requires s == Alone(phase, claim)
    ensures ClaimAdmitted(s, ClaimOf(1, None)) && 1 in s.records
    ensures Recovery.Prepares(s, s.records[1].core, 0, ClaimOf(1, None))
  {
    hide MatchesParent;
    ClaimMatches(1, None);
    assert FindConnector(WORKLOAD.connectors, 0) == Some(BoundConnector(0, Codex, 0));
  }

  lemma OneAllowed(s: Store, phase: OperationPhase, claim: Option<ClaimPhase>)
    requires s == Alone(phase, claim)
    ensures ConnectorAllowed(s, ClaimOf(1, None), MACHINE) && !ForeignClaim(s, ClaimOf(1, None))
    ensures 1 in s.records && s.records[1] == At(phase) && s.records[1].core.op == 1
    ensures OperationMatches(s.records[1].core, INPUTS)
  {
    CoreMatches(s.records[1].core);
    hide ClaimAdmitted, PriorAllows, Recovery.Prepares, OperationMatches;
    OneAdmitted(s, phase, claim);
  }

  /** Operation 1 may claim the connector, or has claimed it. */
  lemma OneMayClaim(s: Store, phase: OperationPhase, claim: Option<ClaimPhase>)
    requires s == Alone(phase, claim)
    ensures MayClaim(s, INPUTS, ClaimOf(1, None))
  {
    hide OperationMatches, ClaimAdmitted, Recovery.Prepares, ConnectorAllowed, ForeignClaim, FilesMatchPlan, Alone;
    FilesFit();
    OneAdmitted(s, phase, claim);
    OneAllowed(s, phase, claim);
  }

  lemma OneClaims(s: Store, phase: OperationPhase, claim: Option<ClaimPhase>)
    requires s == Alone(phase, claim)
    ensures var held := if claim.Some? then claim.value else Prepared;
      ConnectorAfter(s, ClaimOf(1, None)) == Alone(phase, Some(held)) && HeldClaim(s, ClaimOf(1, None)).phase == held
  {
    var c := ClaimOf(1, None);
    if claim.Some? {
      assert s.connOwners[c.instance := ConnectorOwnershipOf(c)] == s.connOwners;
      assert s.claims[ClaimKey(0, 1) := s.claims[ClaimKey(0, 1)]] == s.claims;
    }
  }

  lemma OneSteady(s: Store, phase: OperationPhase, claim: ClaimPhase)
    requires s == Alone(phase, Some(claim)) && PhaseRank(phase).Some?
    ensures Steady(s, At(phase), 0, claim) && LeaseGranted(s, 1, 0)
  {
    assert ValidRecord(At(phase));
    hide ValidRecord;
  }

  lemma OnlyPhase(s: Store, t: Store, phase: OperationPhase, operation: OperationRecord, claim: ClaimPhase)
    requires s == Alone(phase, Some(claim)) && Shifted(s, t, 1, 0)
    requires Steady(t, operation, 0, claim) && operation.core == Bootstrap(1, None)
    ensures operation == At(operation.phase) && t == Alone(operation.phase, Some(claim))
  {
    hide ValidRecord, OthersDone;
  }

  /** A process reads the operation, claims the connector and proves the artifacts, or finds all that done. */
  lemma Stands(run: seq<ApplyWorld>, p: nat, phase: OperationPhase, claim: Option<ClaimPhase>)
    returns (run': seq<ApplyWorld>)
    requires ApplyRun(run) && run != [] && Last(run).files.store == Alone(phase, claim) && p !in Last(run).apps
    requires (phase == Planned && claim.None?) || (phase == ArtifactsVerified && claim == Some(Prepared))
    ensures ApplyRun(run') && run' != [] && Last(run').files.store == Alone(ArtifactsVerified, Some(Prepared))
    ensures Last(run').files.execs == Last(run).files.execs
    ensures Last(run').apps == Last(run).apps[p := Leasing(Copy(ArtifactsVerified))]
  {
    hide ApplyRun, Alone, Steady, Shifted, Onwards;
    var entered, run1 := StandsClaiming(run, p, phase, claim);
    OneSteady(Alone(phase, Some(Prepared)), phase, Prepared);
    var ctx;
    run', ctx := ProvesOn(run1, p, Context(INPUTS, At(phase), false, Prepared), 0, Prepared, HOST);
    OnwardsKeepsRun(run1, run', p, HOST, HOST);
    OnlyPhase(Alone(phase, Some(Prepared)), Last(run').files.store, phase, ctx.operation, Prepared);
    OnwardsJoin(entered, run1, run', p, HOST, HOST, HOST);
    StandsEnds(run, entered, run', p);
  }

  lemma StandsClaiming(run: seq<ApplyWorld>, p: nat, phase: OperationPhase, claim: Option<ClaimPhase>)
    returns (entered: seq<ApplyWorld>, run': seq<ApplyWorld>)
    requires ApplyRun(run) && run != [] && Last(run).files.store == Alone(phase, claim) && p !in Last(run).apps
    requires claim.None? || claim == Some(Prepared)
    ensures entered != [] && Last(entered).files == Last(run).files
    ensures Last(entered).apps == Last(run).apps[p := Entering(INPUTS, false)]
    ensures Onwards(entered, run', p, HOST, HOST) && ApplyRun(run') && run' != [] && p in Last(run').apps
    ensures Last(run').apps[p] == Proving(Context(INPUTS, At(phase), false, Prepared))
    ensures Last(run').files.store == Alone(phase, Some(Prepared)) && Last(run').files.execs == Last(run).files.execs
  {
    var s := Last(run).files.store;
    OneMayClaim(s, phase, claim);
    OneClaims(s, phase, claim);
    assert At(phase) == s.records[1];
    hide ApplyRun, Alone, MayClaim, ConnectorAfter, HeldClaim, Onwards;
    entered := Enters(run, p, INPUTS);
    run' := ClaimsConnector(entered, p, INPUTS, ClaimOf(1, None), HOST);
    OnwardsKeepsRun(entered, run', p, HOST, HOST);
  }

  lemma StandsEnds(run: seq<ApplyWorld>, entered: seq<ApplyWorld>, run': seq<ApplyWorld>, p: nat)
    requires run != [] && entered != [] && Onwards(entered, run', p, HOST, HOST)
    requires Last(entered).apps == Last(run).apps[p := Entering(INPUTS, false)]
    ensures ApplyRun(run') && run' != [] && p in Last(run').apps
    ensures Last(run').apps == Last(run).apps[p := Last(run').apps[p]]
  {
    hide ApplyRun, Heard;
  }

  lemma ReadyToExecute(w: ApplyWorld)
    requires w.files.store == Alone(ArtifactsVerified, Some(Prepared))
    requires w.apps == map[0 := Leasing(Copy(ArtifactsVerified)), 1 := Leasing(Copy(ArtifactsVerified))]
    ensures FreshIds(IDS, map[]) && IdsUnknown(IDS, HOST) && LeaseFree(w, 1)
    ensures LeaseGranted(w.files.store, 1, 0)
  {
    hide Alone;
    OneSteady(w.files.store, ArtifactsVerified, Prepared);
  }

  /** The first process takes the lease and creates the execution. */
  lemma Executes(run: seq<ApplyWorld>) returns (run': seq<ApplyWorld>)
    requires ApplyRun(run) && run != [] && Last(run).files.store == Alone(ArtifactsVerified, Some(Prepared))
    requires Last(run).files.execs == map[]
    requires Last(run).apps == map[0 := Leasing(Copy(ArtifactsVerified)), 1 := Leasing(Copy(ArtifactsVerified))]
    ensures ApplyRun(run') && run' != [] && Last(run').files.store == Last(run).files.store
    ensures Last(run').files.execs == map[1 := EXECUTION]
    ensures Last(run').apps == map[0 := Working(Copy(ArtifactsVerified), EXECUTION, [Continue]), 1 := Leasing(Copy(ArtifactsVerified))]
  {
    hide ApplyRun, Alone, Steady, FreshIds, IdsUnknown, LeaseFree, LeaseGranted, FilesMatchPlan, Heard, Handles;
    hide Fitting, IdentityMatches;
    FilesFit();
    ReadyToExecute(Last(run));
    var r;
    run', r := CreatesOn(run, 0, Copy(ArtifactsVerified), IDS, HOST);
    assert Last(run').apps == map[0 := Working(Copy(ArtifactsVerified), EXECUTION, [Continue]), 1 := Leasing(Copy(ArtifactsVerified))];
  }

  lemma ExecutionIs()
    ensures EXECUTION.core.op == 1 && EXECUTION.core.connector == 0 && EXECUTION.phase == ExecClaimed
  {
  }

  const EXPIRY := NOTHING.(reply := MaterialReply(NO_EFFECT))
  const EXPIRED := EXECUTION.(phase := ExecExpired)

  lemma AskStep(d: Durable)
    ensures ApplyStep(Working(Copy(ArtifactsVerified), EXECUTION, [Continue]), d, false, NOTHING)
         == (Working(Copy(ArtifactsVerified), EXECUTION, [AskPrepare(false)]), Skip)
    ensures ApplyStep(Working(Copy(ArtifactsVerified), EXECUTION, [AskPrepare(false)]), d, false, EXPIRY)
         == (Working(Copy(ArtifactsVerified), EXECUTION, [Persist(EXPIRED), GiveUpClaim, GiveUpOperation, Reissue]),
             Send(Sent(1, PrepareFrame(EXECUTION.prepareHeader), Some(EXPIRY.reply))))
  {
  }

  lemma PersistStep(d: Durable)
    ensures ApplyStep(Working(Copy(ArtifactsVerified), EXECUTION, [Persist(EXPIRED), GiveUpClaim, GiveUpOperation, Reissue]), d, false, NOTHING)
         == (Working(Copy(ArtifactsVerified), EXPIRED, [GiveUpClaim, GiveUpOperation, Reissue]), PutExecution(EXPIRED))
  {
    assert [Persist(EXPIRED), GiveUpClaim, GiveUpOperation, Reissue][1..] == [GiveUpClaim, GiveUpOperation, Reissue];
  }

  lemma HearsExpiry(run: seq<ApplyWorld>) returns (run': seq<ApplyWorld>)
    requires ApplyRun(run) && run != [] && Last(run).files.store == Alone(ArtifactsVerified, Some(Prepared))
    requires Last(run).files.execs == map[1 := EXECUTION]
    requires Last(run).apps == map[0 := Working(Copy(ArtifactsVerified), EXECUTION, [Continue]), 1 := Leasing(Copy(ArtifactsVerified))]
    ensures ApplyRun(run') && run <= run' && run' != [] && Last(run').files.store == Last(run).files.store
    ensures Last(run').files.execs == map[1 := EXPIRED]
    ensures Last(run').apps == map[
      0 := Working(Copy(ArtifactsVerified), EXPIRED, [GiveUpClaim, GiveUpOperation, Reissue]),
      1 := Leasing(Copy(ArtifactsVerified))]
  {
    hide ApplyRun, Alone, ApplyStep;
    var ctx := Copy(ArtifactsVerified);
    AskStep(Last(run).files);
    run' := Takes(run, 0, NOTHING, Working(ctx, EXECUTION, [AskPrepare(false)]), Skip);
    run' := Takes(run', 0, EXPIRY, Working(ctx, EXECUTION, [Persist(EXPIRED), GiveUpClaim, GiveUpOperation, Reissue]),
                  Send(Sent(1, PrepareFrame(EXECUTION.prepareHeader), Some(EXPIRY.reply))));
    PersistStep(Last(run').files);
    ExecutionIs();
    run' := Takes(run', 0, NOTHING, Working(ctx, EXPIRED, [GiveUpClaim, GiveUpOperation, Reissue]), PutExecution(EXPIRED));
  }

  lemma GivingUp()
    ensures var s := Alone(ArtifactsVerified, Some(Prepared)); var w := UpdateClaim(0, ExpireClaim);
      && !ChangeRecorded(s, 0, ExpireClaim) && Enabled(s, w) && After(s, w) == Alone(ArtifactsVerified, Some(ClaimExpired))
    ensures var s := Alone(ArtifactsVerified, Some(ClaimExpired)); var w := UpdateRecord(1, Expire(0));
      && !ExpiryRecorded(s, 1, Expire(0)) && Enabled(s, w) && After(s, w) == Alone(ExpiredUnclaimed, Some(ClaimExpired))
  {
    assert ValidRecord(At(ExpiredUnclaimed));
  }

  lemma GiveUpStep(d: Durable)
    requires d.store == Alone(ArtifactsVerified, Some(Prepared)) || d.store == Reissued(Prepared)
    requires !ChangeRecorded(d.store, 0, ExpireClaim) && Enabled(d.store, UpdateClaim(0, ExpireClaim))
    ensures ApplyStep(Working(Copy(ArtifactsVerified), EXPIRED, [GiveUpClaim, GiveUpOperation, Reissue]), d, false, NOTHING)
         == (Working(Copy(ArtifactsVerified), EXPIRED, [GiveUpOperation, Reissue]), Do(UpdateClaim(0, ExpireClaim)))
  {
    hide ChangeRecorded, Enabled, Alone, Reissued;
    ExecutionIs();
    assert [GiveUpClaim, GiveUpOperation, Reissue][1..] == [GiveUpOperation, Reissue];
  }

  lemma GiveUpOperationStep(d: Durable)
    requires !ExpiryRecorded(d.store, 1, Expire(0)) && Enabled(d.store, UpdateRecord(1, Expire(0)))
    ensures ApplyStep(Working(Copy(ArtifactsVerified), EXPIRED, [GiveUpOperation, Reissue]), d, false, NOTHING)
         == (Working(Copy(ArtifactsVerified), EXPIRED, [Reissue]), Do(UpdateRecord(1, Expire(0))))
  {
    hide ExpiryRecorded, Enabled;
    ExecutionIs();
    assert [GiveUpOperation, Reissue][1..] == [Reissue];
  }

  lemma ReissueStep(d: Durable)
    ensures ApplyStep(Working(Copy(ArtifactsVerified), EXPIRED, [Reissue]), d, false, NOTHING) == (Returned(Err(Contract)), Skip)
  {
  }

  /** The first process records the expiry. */
  lemma GivesUp(run: seq<ApplyWorld>) returns (run': seq<ApplyWorld>)
    requires ApplyRun(run) && run != [] && Last(run).files.store == Alone(ArtifactsVerified, Some(Prepared))
    requires 0 in Last(run).apps
    requires Last(run).apps[0] == Working(Copy(ArtifactsVerified), EXPIRED, [GiveUpClaim, GiveUpOperation, Reissue])
    ensures ApplyRun(run') && run <= run' && run' != []
    ensures Last(run').files.store == Alone(ExpiredUnclaimed, Some(ClaimExpired))
    ensures Last(run').files.execs == Last(run).files.execs
    ensures Last(run').apps == Last(run).apps[0 := Working(Copy(ArtifactsVerified), EXPIRED, [Reissue])]
  {
    hide ApplyRun, ApplyStep, Alone, Enabled, After, ChangeRecorded, ExpiryRecorded, HistoryAfter;
    GivingUp();
    GiveUpStep(Last(run).files);
    var ctx := Copy(ArtifactsVerified);
    run' := Takes(run, 0, NOTHING, Working(ctx, EXPIRED, [GiveUpOperation, Reissue]), Do(UpdateClaim(0, ExpireClaim)));
    GiveUpOperationStep(Last(run').files);
    run' := Takes(run', 0, NOTHING, Working(ctx, EXPIRED, [Reissue]), Do(UpdateRecord(1, Expire(0))));
    assert Last(run').apps == Last(run).apps[0 := Working(ctx, EXPIRED, [Reissue])];
  }

  /** It returns, and so lets go of the lease. */
  lemma LeavesLease(run: seq<ApplyWorld>) returns (run': seq<ApplyWorld>)
    requires ApplyRun(run) && run != []
    requires Last(run).apps == map[0 := Working(Copy(ArtifactsVerified), EXPIRED, [Reissue]), 1 := Leasing(Copy(ArtifactsVerified))]
    ensures ApplyRun(run') && run <= run' && run' != [] && Last(run').files == Last(run).files
    ensures Last(run').apps == map[0 := Returned(Err(Contract)), 1 := Leasing(Copy(ArtifactsVerified))]
  {
    hide ApplyRun, ApplyStep;
    ReissueStep(Last(run).files);
    run' := Takes(run, 0, NOTHING, Returned(Err(Contract)), Skip);
  }

  lemma TakesLease(run: seq<ApplyWorld>) returns (run': seq<ApplyWorld>)
    requires ApplyRun(run) && run != [] && Last(run).files.store == Alone(ExpiredUnclaimed, Some(ClaimExpired))
    requires Last(run).files.execs == map[1 := EXPIRED]
    requires Last(run).apps == map[0 := Returned(Err(Contract)), 1 := Leasing(Copy(ArtifactsVerified))]
    ensures ApplyRun(run') && run <= run' && run' != [] && Last(run').files == Last(run).files
    ensures 1 in Last(run').apps && Last(run').apps[1] ==
      Working(Copy(ArtifactsVerified), EXPIRED, [GiveUpClaim, GiveUpOperation, Reissue])
  {
    hide ApplyRun;
    var ctx := Copy(ArtifactsVerified);
    run' := Takes(run, 1, NOTHING, Reading(ctx), Skip);
    assert [GiveUpClaim] + [GiveUpOperation, Reissue] == [GiveUpClaim, GiveUpOperation, Reissue];
    run' := Takes(run', 1, NOTHING, Working(ctx, EXPIRED, [GiveUpClaim, GiveUpOperation, Reissue]), Skip);
  }

  /** The store after operation 2 reissued the bootstrap and claimed target and connector. */
  function Reissued(claim: ClaimPhase): Store {
    var s := Alone(ExpiredUnclaimed, Some(ClaimExpired));
    Store(s.records[2 := Initial(Bootstrap(2, Some(1)))], s.owners[FENCE := OwnershipOf(Bootstrap(2, Some(1)))],
          s.connOwners[0 := ConnectorOwnershipOf(ClaimOf(2, Some(1)))],
          s.claims[ClaimKey(0, 2) := ConnectorClaim(ClaimOf(2, Some(1)), claim)])
  }

  /** The store after each of the four writes of the reissue. */
  function Reissuing(writes: nat): Store {
    var s := Alone(ExpiredUnclaimed, Some(ClaimExpired));
    Store(if writes >= 1 then s.records[2 := Initial(Bootstrap(2, Some(1)))] else s.records,
          if writes >= 2 then s.owners[FENCE := OwnershipOf(Bootstrap(2, Some(1)))] else s.owners,
          if writes >= 3 then s.connOwners[0 := ConnectorOwnershipOf(ClaimOf(2, Some(1)))] else s.connOwners,
          if writes >= 4 then s.claims[ClaimKey(0, 2) := ConnectorClaim(ClaimOf(2, Some(1)), Prepared)] else s.claims)
  }

  lemma ReissueTarget()
    ensures var b := Bootstrap(2, Some(1));
      && Enabled(Reissuing(0), CreateRecord(b)) && After(Reissuing(0), CreateRecord(b)) == Reissuing(1)
      && Enabled(Reissuing(1), PublishOwner(b)) && After(Reissuing(1), PublishOwner(b)) == Reissuing(2)
  {
    assert ReissueOf(Bootstrap(1, None), Bootstrap(2, Some(1)));
    assert CanOwn(Reissuing(0), Bootstrap(2, Some(1)));
    assert CanOwn(Reissuing(1), Bootstrap(2, Some(1)));
    hide CanOwn;
  }

  lemma ReissueAdmitted(writes: nat)
    requires writes >= 2
    ensures ClaimAdmitted(Reissuing(writes), ClaimOf(2, Some(1)))
  {
    ClaimMatches(2, Some(1));
    hide MatchesParent;
    assert Connectors(WORKLOAD)[0].instance == 0;
    assert Binds(Bootstrap(1, None), 0);
  }

  lemma ReissueConnector()
    ensures var c := ClaimOf(2, Some(1));
      && Enabled(Reissuing(2), PublishConnectorOwner(c)) && After(Reissuing(2), PublishConnectorOwner(c)) == Reissuing(3)
      && Enabled(Reissuing(3), CreateClaim(c)) && After(Reissuing(3), CreateClaim(c)) == Reissued(Prepared)
  {
    hide ClaimAdmitted;
    ReissueAdmitted(2);
    ReissueAdmitted(3);
  }

  lemma Reissues(run: seq<ApplyWorld>) returns (run': seq<ApplyWorld>)
    requires ApplyRun(run) && run != [] && Last(run).files.store == Alone(ExpiredUnclaimed, Some(ClaimExpired))
    ensures ApplyRun(run') && run <= run' && run' != [] && Last(run').files.store == Reissued(Prepared)
    ensures Last(run').files.execs == Last(run).files.execs && Last(run').apps == Last(run).apps
  {
    assert Reissuing(0) == Alone(ExpiredUnclaimed, Some(ClaimExpired));
    hide ApplyRun, Alone, Reissuing, Reissued, Enabled, After;
    ReissueTarget();
    ReissueConnector();
    run' := Writes(run, CreateRecord(Bootstrap(2, Some(1))));
    run' := Writes(run', PublishOwner(Bootstrap(2, Some(1))));
    run' := Writes(run', PublishConnectorOwner(ClaimOf(2, Some(1))));
    run' := Writes(run', CreateClaim(ClaimOf(2, Some(1))));
  }

  lemma WrongClaim()
    ensures !ChangeRecorded(Reissued(Prepared), 0, ExpireClaim)
    ensures Enabled(Reissued(Prepared), UpdateClaim(0, ExpireClaim))
    ensures After(Reissued(Prepared), UpdateClaim(0, ExpireClaim)) == Reissued(ClaimExpired)
  {
  }

  lemma Misfires(run: seq<ApplyWorld>) returns (run': seq<ApplyWorld>)
    requires ApplyRun(run) && run != [] && Last(run).files.store == Reissued(Prepared)
    requires 1 in Last(run).apps
    requires Last(run).apps[1] == Working(Copy(ArtifactsVerified), EXPIRED, [GiveUpClaim, GiveUpOperation, Reissue])
    ensures ApplyRun(run') && run <= run' && run' != [] && Last(run').files.store == Reissued(ClaimExpired)
    ensures Last(run').files.execs == Last(run).files.execs
  {
    hide ApplyRun, ApplyStep, Reissued, Enabled, After, ChangeRecorded, HistoryAfter;
    WrongClaim();
    GiveUpStep(Last(run).files);
    run' := Takes(run, 1, NOTHING, Working(Copy(ArtifactsVerified), EXPIRED, [GiveUpOperation, Reissue]), Do(UpdateClaim(0, ExpireClaim)));
  }

  /** Two applications of operation 1, both about to take the lease. */
  lemma BothAtTheLease() returns (run: seq<ApplyWorld>)
    ensures ApplyRun(run) && run != []
    ensures Last(run).files.store == Alone(ArtifactsVerified, Some(Prepared)) && Last(run).files.execs == map[]
    ensures Last(run).apps == map[0 := Leasing(Copy(ArtifactsVerified)), 1 := Leasing(Copy(ArtifactsVerified))]
  {
    hide ApplyRun, Alone;
    run := Opens();
    run := Stands(run, 0, Planned, None);
    run := Stands(run, 1, ArtifactsVerified, Some(Prepared));
  }

  lemma WrongFiles(d: Durable)
    requires d.store == Reissued(ClaimExpired) && d.execs == map[1 := EXPIRED]
    ensures ClaimKey(0, 2) in d.store.claims && d.store.claims[ClaimKey(0, 2)].phase == ClaimExpired
    ensures 2 in d.store.records && d.store.records[2].phase == Planned && 2 !in d.execs
    ensures !ClaimsBehind(d.store.claims, d.execs)
  {
    assert !ClaimBacked(d.store.claims[ClaimKey(0, 2)].phase, d.execs, ClaimKey(0, 2));
  }

  /** The claim of operation 2 ends up expired although operation 2 was never executed: without quiet hand-over a claim
   *  can be ahead of its execution. */
  lemma ExpiresTheWrongClaim() returns (run: seq<ApplyWorld>)
    ensures ApplyRun(run) && run != []
    ensures var d := Last(run).files;
      && ClaimKey(0, 2) in d.store.claims && d.store.claims[ClaimKey(0, 2)].phase == ClaimExpired
      && 2 in d.store.records && d.store.records[2].phase == Planned && 2 !in d.execs
      && !ClaimsBehind(d.store.claims, d.execs)
  {
    hide ApplyRun, Alone, Reissued, ClaimsBehind;
    run := BothAtTheLease();
    run := Executes(run);
    run := HearsExpiry(run);
    run := GivesUp(run);
    run := LeavesLease(run);
    run := TakesLease(run);
    run := Reissues(run);
    run := Misfires(run);
    WrongFiles(Last(run).files);
  }
}
