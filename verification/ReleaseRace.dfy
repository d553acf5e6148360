/** A run in which a successor completes although one of its connectors was never executed.
 *
 * Operation 1 completes.  A process applies it again and takes the lease.  Operation 2 binds the connector of operation 1
 * and another one, and claims the first.  The process goes on to observe and release "the" claim of that connector, which
 * by then is the fresh claim of operation 2, and returns without error.  Operation 2 is then applied to its other
 * connector, and completes.
 */
module ReleaseRace {
  import opened Domain
  import opened Records
  import opened StateActions
  import opened StateInvariants
  import opened Calls
  import opened Execution
  import opened ApplyMachine
  import opened ApplyProofs
  import opened Lag
  import opened Handover
  import opened HostModel
  import Recovery
  import opened ConnectorApply
  import opened ApplyAlone
  import opened HandoverRace
  import HostFrames

  // ----- operation 1 -----

  lemma FirstOwns(s: Store)
    requires s == Alone(Planned, None)
    ensures 1 in s.records && s.claims == map[]
    ensures var core := s.records[1].core;
      && IsCurrent(s, core) && Recovery.OwnedHere(s, core, 0) && Recovery.PredecessorHere(s, core)
      && SoleConnector(core) && SoleInstance(core) == 0
  {
  }

  lemma FirstSuits(s: Store)
    requires s == Alone(Planned, None)
    ensures InputsMatch(s, map[], HOST, INPUTS) && ClaimPhaseOf(s, INPUTS) != Released && INPUTS.plan.bundle.None?
    ensures PhaseRank(s.records[1].phase).Some?
  {
    hide OperationMatches, IsCurrent, Recovery.OwnedHere, Recovery.PredecessorHere, SoleConnector, FilesMatchPlan;
    hide Alone, ConnectorAllowed;
    FilesFit();
    FirstOwns(s);
    OneAllowed(s, Planned, None);
  }

  lemma NothingInterrupted(d: Durable)
    requires d.execs == map[] && d.store.claims == map[] && Ordered(d.store, d.history)
    requires OperationsBehind(d.store.records, d.execs) && ExecutionsBacked(d.store.records, d.execs)
    ensures Interrupted(d.store, d.history, d.execs, HOST, 1)
  {
    hide Ordered, OperationsBehind, ExecutionsBacked;
  }

  lemma FirstMayResume(d: Durable)
    requires d.store == Alone(Planned, None) && d.execs == map[]
    requires Ordered(d.store, d.history) && OperationsBehind(d.store.records, d.execs)
    requires ExecutionsBacked(d.store.records, d.execs)
    ensures Resumable(d.store, d.history, d.execs, HOST, INPUTS) && ClaimPhaseOf(d.store, INPUTS) != Released
  {
    assert d.store.claims == map[];
    FirstSuits(d.store);
    NothingInterrupted(d);
    hide Ordered, OperationsBehind, ExecutionsBacked, InputsMatch, Interrupted, Alone, ClaimPhaseOf;
  }

  lemma FirstIs(d: Durable)
    requires FilesOk(d)
    requires Holds(d.store, Bootstrap(1, None), 0, Released) && OnlyThese(Alone(Planned, None), d.store, 1, 0)
    requires 1 in d.store.records && d.store.records[1].phase == Completed
    ensures d.store == Alone(Completed, Some(Released))
  {
    hide FilesOk, OnlyThese, IsCurrent;
    FirstRecord(d);
    FirstClaim(d);
    FirstOnly(d.store);
  }

  lemma FirstOnly(t: Store)
    requires OnlyThese(Alone(Planned, None), t, 1, 0)
    requires 1 in t.records && t.records[1] == At(Completed)
    requires 0 in t.connOwners && t.connOwners[0] == ConnectorOwnershipOf(ClaimOf(1, None))
    requires ClaimKey(0, 1) in t.claims && t.claims[ClaimKey(0, 1)] == ConnectorClaim(ClaimOf(1, None), Released)
    ensures t == Alone(Completed, Some(Released))
  {
    var s := Alone(Completed, Some(Released));
    assert t.records == s.records;
    assert t.connOwners == s.connOwners;
    assert t.claims == s.claims;
  }

  lemma FirstRecord(d: Durable)
    requires FilesOk(d) && 1 in d.store.records && d.store.records[1].phase == Completed
    requires d.store.records[1].core == Bootstrap(1, None)
    ensures d.store.records[1] == At(Completed)
  {
    FilesParts(d);
    hide FilesOk;
    assert ValidRecord(d.store.records[1]);
  }

  lemma FirstClaim(d: Durable)
    requires FilesOk(d) && Holds(d.store, Bootstrap(1, None), 0, Released)
    ensures d.store.connOwners[0] == ConnectorOwnershipOf(ClaimOf(1, None))
    ensures d.store.claims[ClaimKey(0, 1)] == ConnectorClaim(ClaimOf(1, None), Released)
  {
    FilesParts(d);
    hide FilesOk;
    assert FindConnector(WORKLOAD.connectors, 0) == Some(BoundConnector(0, Codex, 0));
    assert Canonical(d.store.records, 1, 0, d.store.connOwners[0].identity);
  }

  /** Operation 1 is applied and completes; its process returns. */
  lemma FirstCompletes() returns (run: seq<ApplyWorld>)
    ensures ApplyRun(run) && run != [] && Last(run).files.store == Alone(Completed, Some(Released))
    ensures Last(run).files.execs.Keys == {1} && Last(run).files.execs[1].phase.ExecFinalized?
    ensures IdentityMatches(Last(run).files.execs[1].core, INPUTS)
    ensures Last(run).apps == map[0 := Returned(Ok(()))]
  {
    hide ApplyRun, FilesOk, LagOk, Alone, Resumable, Holds, OnlyThese, IdentityMatches, FreshIds, LeaseFree;
    var begun := Opens();
    RunFacts(begun);
    FirstMayResume(Last(begun).files);
    FreshFirst();
    NoLeases(Last(begun));
    FirstStands();
    var host';
    run, host' := Converges(begun, 0, INPUTS, IDS, HOST);
    RunFacts(run);
    FirstIs(Last(run).files);
  }

  lemma FirstStands()
    ensures Alone(Planned, None).records == map[1 := At(Planned)] && At(Planned).core == Bootstrap(1, None)
  {
  }

  lemma FreshFirst()
    ensures FreshIds(IDS, map[]) && IdsUnknown(IDS, HOST)
  {
  }

  lemma NoLeases(w: ApplyWorld)
    requires w.apps == map[]
    ensures LeaseFree(w, 1)
  {
  }

  lemma RunFacts(run: seq<ApplyWorld>)
    requires ApplyRun(run) && run != []
    ensures FilesOk(Last(run).files) && Ordered(Last(run).files.store, Last(run).files.history)
    ensures OperationsBehind(Last(run).files.store.records, Last(run).files.execs)
    ensures ExecutionsBacked(Last(run).files.store.records, Last(run).files.execs)
  {
    hide ApplyRun, ApplyOk, Ordered, ExecsOk, IdsUnique, FramesOk, OperationsBehind, ExecutionsBacked, CopyKnown;
    RunKeepsLag(run);
    HostFrames.WorldFilesOk(run, |run| - 1);
    assert LagOk(run[|run| - 1]);
  }

  // ----- the process that applies operation 1 again -----

  const AGAIN := Context(INPUTS, At(Completed), false, Released)

  predicate IsFinalized(r: ExecutionRecord) {
    r.phase.ExecFinalized? && IdentityMatches(r.core, INPUTS)
  }

  const TASKS := [ObserveHandoff, AdvanceTo(ConfigsWritten), AdvanceTo(ServicesConverged), AdvanceTo(ReadinessVerified),
                  ReleaseClaim, AdvanceTo(Completed), Continue]

  lemma FinalizedLoads(r: ExecutionRecord)
    requires IsFinalized(r)
    ensures Loaded(AGAIN, r) == Working(AGAIN, r, TASKS)
  {
    assert Projection(r) + [Continue] == TASKS;
  }

  /** It takes the lease, and stands before the tasks that bring claim and operation up to the execution. */
  lemma AppliesAgain(run: seq<ApplyWorld>) returns (run': seq<ApplyWorld>, r: ExecutionRecord)
    requires ApplyRun(run) && run != [] && Last(run).files.store == Alone(Completed, Some(Released))
    requires Last(run).files.execs.Keys == {1} && IsFinalized(Last(run).files.execs[1])
    requires Last(run).apps == map[0 := Returned(Ok(()))]
    ensures Works(run', 1, AGAIN, r, TASKS) && IsFinalized(r)
    ensures Last(run').files.store == Alone(Completed, Some(Released)) && Last(run').files.execs == map[1 := r]
    ensures Last(run').apps == map[0 := Returned(Ok(())), 1 := Working(AGAIN, r, TASKS)]
  {
    var s := Last(run).files.store;
    OneMayClaim(s, Completed, Some(Released));
    OneClaims(s, Completed, Some(Released));
    OneSteady(s, Completed, Released);
    assert s.records[1] == At(Completed);
    r := Last(run).files.execs[1];
    FinalizedLoads(r);
    assert Last(run).files.execs == map[1 := r];
    hide ApplyRun, Alone, MayClaim, ConnectorAfter, HeldClaim, Steady, LeaseGranted, Heard, Shifted, Loaded;
    var entered := Enters(run, 1, INPUTS);
    var run1 := ClaimsConnector(entered, 1, INPUTS, ClaimOf(1, None), HOST);
    var run2, ctx := StaysProven(run1, s);
    OnwardsJoin(entered, run1, run2, 1, HOST, HOST, HOST);
    OnlyReturned(entered, run2, HOST);
    run' := LoadsOn(run2, 1, AGAIN, HOST);
    OnwardsJoin(entered, run2, run', 1, HOST, HOST, HOST);
    assert Last(run').apps == map[0 := Returned(Ok(())), 1 := Working(AGAIN, r, TASKS)];
  }

  lemma OnlyReturned(entered: seq<ApplyWorld>, run: seq<ApplyWorld>, host: HostState)
    requires entered != [] && Last(entered).apps == map[0 := Returned(Ok(())), 1 := Entering(INPUTS, false)]
    requires Onwards(entered, run, 1, host, host) && Last(run).apps[1].Leasing?
    ensures LeaseFree(Last(run), 1)
  {
    hide ApplyRun, Heard;
  }

  lemma StaysProven(run: seq<ApplyWorld>, s: Store) returns (run': seq<ApplyWorld>, ctx: Context)
    requires ApplyRun(run) && run != [] && 1 in Last(run).apps && Last(run).apps[1] == Proving(AGAIN)
    requires Last(run).files.store == s
    ensures ctx == AGAIN && Onwards(run, run', 1, HOST, HOST) && Last(run').apps[1] == Leasing(AGAIN)
    ensures Last(run').files == Last(run).files
  {
    ProvenStep(Last(run).files, AGAIN);
    hide ApplyRun, ApplyStep, Heard, Handles;
    var host';
    run', host' := Moves(run, 1, ANY, Leasing(AGAIN), Skip, HOST);
    ctx := AGAIN;
  }

  // ----- operation 2 -----

  const TWO := [BoundConnector(0, Codex, 0), BoundConnector(1, Codex, 0)]
  const SECOND := OperationIdentity(2, 0, PRODUCT, OperationBinding(0, MACHINE, PRODUCT, ConnectorHost(0, TWO)), 0, Some(1))

  function SecondClaim(i: Token, predecessor: Option<Token>): ClaimIdentity {
    ClaimIdentity(2, 0, 0, i, PRODUCT, Codex, 0, predecessor)
  }

  /** The store after the first writes of operation 2: its record, its target, and the connector it takes over. */
  function Following(writes: nat, claim: ClaimPhase): Store {
    var s := Alone(Completed, Some(Released));
    Store(if writes >= 1 then s.records[2 := Initial(SECOND)] else s.records,
          if writes >= 2 then s.owners[FENCE := OwnershipOf(SECOND)] else s.owners,
          if writes >= 3 then s.connOwners[0 := ConnectorOwnershipOf(SecondClaim(0, Some(1)))] else s.connOwners,
          if writes >= 4 then s.claims[ClaimKey(0, 2) := ConnectorClaim(SecondClaim(0, Some(1)), claim)] else s.claims)
  }

  lemma SecondBinds(i: Token)
    requires i == 0 || i == 1
    ensures FindConnector(TWO, i) == Some(BoundConnector(i, Codex, 0))
    ensures MatchesParent(SecondClaim(i, if i == 0 then Some(1) else None), SECOND)
  {
    assert TWO[1..] == [BoundConnector(1, Codex, 0)];
    assert FindConnector(TWO[1..], 1) == Some(BoundConnector(1, Codex, 0));
  }

  lemma SecondTakesTarget()
    ensures Enabled(Following(0, Prepared), CreateRecord(SECOND))
    ensures After(Following(0, Prepared), CreateRecord(SECOND)) == Following(1, Prepared)
    ensures Enabled(Following(1, Prepared), PublishOwner(SECOND))
    ensures After(Following(1, Prepared), PublishOwner(SECOND)) == Following(2, Prepared)
  {
    assert ValidIdentity(SECOND);
    assert CanOwn(Following(0, Prepared), SECOND) && CanOwn(Following(1, Prepared), SECOND);
    hide CanOwn, ValidIdentity;
  }

  /** Operation 1 binds connector 0 but not connector 1. */
  lemma FirstBinds(i: Token)
    requires i == 0 || i == 1
    ensures Binds(Bootstrap(1, None), i) <==> i == 0
  {
    assert Connectors(WORKLOAD)[0].instance == 0;
  }

  lemma SecondAdmitted(writes: nat, claim: ClaimPhase, i: Token)
    requires writes >= 2 && (i == 0 || i == 1)
    ensures ClaimAdmitted(Following(writes, claim), SecondClaim(i, if i == 0 then Some(1) else None))
  {
    SecondBinds(i);
    FirstBinds(i);
    hide MatchesParent, Binds;
  }

  lemma SecondTakesConnector()
    ensures var c := SecondClaim(0, Some(1));
      && Enabled(Following(2, Prepared), PublishConnectorOwner(c))
      && After(Following(2, Prepared), PublishConnectorOwner(c)) == Following(3, Prepared)
      && Enabled(Following(3, Prepared), CreateClaim(c)) && After(Following(3, Prepared), CreateClaim(c)) == Following(4, Prepared)
  {
    SecondAdmitted(2, Prepared, 0);
    SecondAdmitted(3, Prepared, 0);
    hide ClaimAdmitted;
  }

  lemma SecondFollows(run: seq<ApplyWorld>) returns (run': seq<ApplyWorld>)
    requires ApplyRun(run) && run != [] && Last(run).files.store == Alone(Completed, Some(Released))
    ensures ApplyRun(run') && run' != [] && Last(run').files.store == Following(4, Prepared)
    ensures Last(run').files.execs == Last(run).files.execs && Last(run').apps == Last(run).apps
  {
    assert Following(0, Prepared) == Alone(Completed, Some(Released));
    hide ApplyRun, Alone, Following, Enabled, After;
    SecondTakesTarget();
    SecondTakesConnector();
    run' := Writes(run, CreateRecord(SECOND));
    run' := Writes(run', PublishOwner(SECOND));
    run' := Writes(run', PublishConnectorOwner(SecondClaim(0, Some(1))));
    run' := Writes(run', CreateClaim(SecondClaim(0, Some(1))));
  }

  // ----- the wrong claim -----

  lemma WrongClaimMoves(change: ClaimChange)
    requires change.Observe? || change.Release?
    ensures var before := if change.Observe? then Prepared else HandoffObserved; var w := UpdateClaim(0, change);
      && !ChangeRecorded(Following(4, before), 0, change) && Enabled(Following(4, before), w)
      && After(Following(4, before), w) == Following(4, ClaimTarget(change))
  {
  }

  lemma WrongWrite(run: seq<ApplyWorld>, r: ExecutionRecord, tasks: seq<Task>, change: ClaimChange)
    returns (run': seq<ApplyWorld>)
    requires Works(run, 1, AGAIN, r, tasks) && IsFinalized(r) && tasks != [] && tasks[0] == ClaimTaskOf(change)
    requires change.Observe? || change.Release?
    requires Last(run).files.store == Following(4, if change.Observe? then Prepared else HandoffObserved)
    ensures Onwards(run, run', 1, HOST, HOST) && Works(run', 1, AGAIN, r, tasks[1..])
    ensures Last(run').files.store == Following(4, ClaimTarget(change)) && Last(run').files.execs == Last(run).files.execs
  {
    WrongClaimMoves(change);
    WrongStep(r, tasks, Last(run).files, change);
    hide ApplyRun, WorkStep, Following, Enabled, After, HistoryAfter, Heard, Handles, IsFinalized;
    var host';
    run', host' := WorkMoves(run, 1, AGAIN, r, tasks, ANY, Working(AGAIN, r, tasks[1..]), Do(UpdateClaim(0, change)), HOST);
  }

  lemma WrongStep(r: ExecutionRecord, tasks: seq<Task>, d: Durable, change: ClaimChange)
    requires IsFinalized(r) && tasks != [] && tasks[0] == ClaimTaskOf(change)
    requires !ChangeRecorded(d.store, 0, change) && Enabled(d.store, UpdateClaim(0, change))
    ensures WorkStep(AGAIN, r, tasks, d, ANY) == (Working(AGAIN, r, tasks[1..]), Do(UpdateClaim(0, change)))
  {
    hide ChangeRecorded, Enabled;
  }

  /** The operation of the process completed long ago, so there is nothing to advance. */
  lemma Passes(run: seq<ApplyWorld>, r: ExecutionRecord, tasks: seq<Task>, target: OperationPhase)
    returns (run': seq<ApplyWorld>)
    requires Works(run, 1, AGAIN, r, tasks) && tasks != [] && tasks[0] == AdvanceTo(target) && PhaseRank(target).Some?
    ensures Onwards(run, run', 1, HOST, HOST) && Works(run', 1, AGAIN, r, tasks[1..])
    ensures Last(run').files.store == Last(run).files.store
    ensures Last(run').files.execs == Last(run).files.execs
  {
    assert Reached(Completed, target);
    hide ApplyRun, Reached, CanAdvance, Heard, Onwards;
    var ctx;
    run', ctx := AdvancesOn(run, 1, AGAIN, r, tasks, target, HOST);
  }

  /** The process observes and releases the claim that is now of operation 2, and returns without error. */
  lemma Misfires(run: seq<ApplyWorld>, r: ExecutionRecord) returns (run': seq<ApplyWorld>)
    requires Works(run, 1, AGAIN, r, TASKS) && IsFinalized(r) && Last(run).files.store == Following(4, Prepared)
    ensures Onwards(run, run', 1, HOST, HOST) && Last(run').files.store == Following(4, Released)
    ensures Last(run').files.execs == Last(run).files.execs && Last(run').apps[1] == Returned(Ok(()))
  {
    var run1, run2 := ObservesWrong(run, r);
    hide Onwards, Works, Following, IsFinalized;
    run' := ReleasesWrong(run2, r);
    OnwardsJoin(run, run2, run', 1, HOST, HOST, HOST);
  }

  lemma ObservesWrong(run: seq<ApplyWorld>, r: ExecutionRecord) returns (run1: seq<ApplyWorld>, run': seq<ApplyWorld>)
    requires Works(run, 1, AGAIN, r, TASKS) && IsFinalized(r) && Last(run).files.store == Following(4, Prepared)
    ensures Onwards(run, run', 1, HOST, HOST) && Works(run', 1, AGAIN, r, TASKS[4..])
    ensures Last(run').files.store == Following(4, HandoffObserved) && Last(run').files.execs == Last(run).files.execs
  {
    hide Onwards, Works, Following, IsFinalized;
    WorksRun(run, r, TASKS);
    run1 := WrongWrite(run, r, TASKS, Observe);
    WorksRun(run1, r, TASKS[1..]);
    var run2 := Passes(run1, r, TASKS[1..], ConfigsWritten);
    OnwardsJoin(run, run1, run2, 1, HOST, HOST, HOST);
    assert TASKS[1..][1..] == TASKS[2..];
    WorksRun(run2, r, TASKS[2..]);
    var run3 := Passes(run2, r, TASKS[2..], ServicesConverged);
    OnwardsJoin(run, run2, run3, 1, HOST, HOST, HOST);
    assert TASKS[2..][1..] == TASKS[3..];
    WorksRun(run3, r, TASKS[3..]);
    run' := Passes(run3, r, TASKS[3..], ReadinessVerified);
    OnwardsJoin(run, run3, run', 1, HOST, HOST, HOST);
    assert TASKS[3..][1..] == TASKS[4..];
    WorksRun(run', r, TASKS[4..]);
  }

  lemma WorksRun(run: seq<ApplyWorld>, r: ExecutionRecord, tasks: seq<Task>)
    requires Works(run, 1, AGAIN, r, tasks)
    ensures ApplyRun(run) && run != [] && 1 in Last(run).apps
  {
  }

  lemma ReleasesWrong(run: seq<ApplyWorld>, r: ExecutionRecord) returns (run': seq<ApplyWorld>)
    requires Works(run, 1, AGAIN, r, TASKS[4..]) && IsFinalized(r)
    requires Last(run).files.store == Following(4, HandoffObserved)
    ensures Onwards(run, run', 1, HOST, HOST) && Last(run').files.store == Following(4, Released)
    ensures Last(run').files.execs == Last(run).files.execs && Last(run').apps[1] == Returned(Ok(()))
  {
    assert IsFinalized(r) ==> Continued(AGAIN, r) == Returned(Ok(()));
    hide Onwards, Works, Following, IsFinalized, Continued;
    WorksRun(run, r, TASKS[4..]);
    var run1 := WrongWrite(run, r, TASKS[4..], Release);
    assert TASKS[4..][1..] == TASKS[5..];
    WorksRun(run1, r, TASKS[5..]);
    var run2 := Passes(run1, r, TASKS[5..], Completed);
    OnwardsJoin(run, run1, run2, 1, HOST, HOST, HOST);
    assert TASKS[5..][1..] == [Continue];
    WorksRun(run2, r, [Continue]);
    run' := ContinuesOn(run2, 1, AGAIN, r, [Continue], HOST);
    OnwardsJoin(run, run2, run', 1, HOST, HOST, HOST);
  }

  // ----- the other connector -----

  const PLAN2 := PLAN.(instance := 1)
  const INPUTS2 := Inputs(2, 0, 0, PRODUCT, PLAN2, Files(0, 0, 0, 0, 0))

  /** Identifiers that the execution of operation 1 does not use. */
  function LaterIds(ids: HostIds): HostIds {
    var m := ids.prepare + ids.start + ids.finalize;
    HostIds(m + 1, m + 2, m + 3)
  }

  lemma LaterAreFresh(r: ExecutionRecord)
    ensures FreshIds(LaterIds(r.core.ids), map[1 := r]) && IdsUnknown(LaterIds(r.core.ids), HOST)
  {
  }

  lemma SecondMatches()
    ensures OperationMatches(SECOND, INPUTS2) && FilesMatchPlan(INPUTS2.files, INPUTS2.plan)
    ensures PreparedClaim(SECOND, 1, None) == Ok(SecondClaim(1, None))
  {
    SecondBinds(1);
  }

  lemma SecondPredecessor(s: Store)
    requires s == Following(4, Released)
    ensures ConnectorPredecessor(s.records, SECOND, 1) == Ok(None)
  {
    FirstBinds(1);
    hide Binds;
  }

  lemma SecondMayClaim(s: Store)
    requires s == Following(4, Released)
    ensures MayClaim(s, INPUTS2, SecondClaim(1, None)) && HeldClaim(s, SecondClaim(1, None)).phase == Prepared
    ensures s.records[2] == Initial(SECOND)
  {
    SecondMatches();
    SecondPredecessor(s);
    SecondAdmitted(4, Released, 1);
    hide OperationMatches, FilesMatchPlan, PreparedClaim, ConnectorPredecessor, ClaimAdmitted;
  }

  lemma SecondSteady(s: Store, t: Store)
    requires s == Following(4, Released) && t == ConnectorAfter(s, SecondClaim(1, None))
    ensures Steady(t, Initial(SECOND), 1, Prepared)
  {
    assert ValidRecord(Initial(SECOND));
    hide ValidRecord;
  }

  /** Operation 2 claims connector 1 and proves its artifacts. */
  lemma SecondProves(run: seq<ApplyWorld>) returns (run': seq<ApplyWorld>, ctx: Context)
    requires ApplyRun(run) && run != [] && Last(run).files.store == Following(4, Released)
    requires 2 in Last(run).apps && Last(run).apps[2] == Entering(INPUTS2, false)
    ensures Onwards(run, run', 2, HOST, HOST) && Last(run').apps[2] == Leasing(ctx)
    ensures ctx == Context(INPUTS2, ctx.operation, false, Prepared) && ctx.operation.core == SECOND
    ensures ctx.operation.phase == ArtifactsVerified
    ensures Steady(Last(run').files.store, ctx.operation, 1, Prepared) && Last(run').files.execs == Last(run).files.execs
    ensures Shifted(ConnectorAfter(Last(run).files.store, SecondClaim(1, None)), Last(run').files.store, 2, 1)
  {
    var s, claim := Last(run).files.store, SecondClaim(1, None);
    SecondMayClaim(s);
    SecondSteady(s, ConnectorAfter(s, claim));
    hide ApplyRun, Following, MayClaim, ConnectorAfter, HeldClaim, Steady, Shifted, Heard, Handles;
    var run1 := ClaimsConnector(run, 2, INPUTS2, claim, HOST);
    run', ctx := ProvesOn(run1, 2, Context(INPUTS2, Initial(SECOND), false, Prepared), 1, Prepared, HOST);
    OnwardsJoin(run, run1, run', 2, HOST, HOST, HOST);
  }

  /** Operation 2 has completed, with connector 0 released and an execution of connector 1. */
  ghost predicate SecondDone(d: Durable) {
    && 2 in d.store.records && d.store.records[2].phase == Completed && d.store.records[2].core == SECOND
    && ClaimKey(0, 2) in d.store.claims && d.store.claims[ClaimKey(0, 2)].phase == Released
    && 2 in d.execs && d.execs[2].core.connector == 1
  }

  /** The processes that have returned are left alone. */
  ghost predicate OthersKept(run: seq<ApplyWorld>, run': seq<ApplyWorld>)
    requires run != [] && run' != []
  {
    forall q :: q in Last(run).apps && q != 2 ==> q in Last(run').apps && Last(run').apps[q] == Last(run).apps[q]
  }

  /** Another process enters, claims connector 1 for operation 2, and stands before the lease. */
  lemma SecondStands(run: seq<ApplyWorld>) returns (run': seq<ApplyWorld>, ctx: Context)
    requires ApplyRun(run) && run != [] && Last(run).files.store == Following(4, Released)
    requires forall q :: q in Last(run).apps ==> q < 2 && Last(run).apps[q].Returned?
    ensures ApplyRun(run') && run' != [] && 2 in Last(run').apps && Last(run').apps[2] == Leasing(ctx)
    ensures OthersKept(run, run')
    ensures forall q :: q in Last(run').apps && q != 2 ==> Last(run').apps[q].Returned?
    ensures ctx == Context(INPUTS2, ctx.operation, false, Prepared) && ctx.operation.core == SECOND
    ensures ctx.operation.phase == ArtifactsVerified
    ensures Steady(Last(run').files.store, ctx.operation, 1, Prepared) && Last(run').files.execs == Last(run).files.execs
    ensures ClaimKey(0, 2) in Last(run').files.store.claims
    ensures Last(run').files.store.claims[ClaimKey(0, 2)].phase == Released
  {
    hide ApplyRun, Following, ConnectorAfter, Steady, Shifted, Onwards;
    OtherClaimStays(Last(run).files.store);
    var entered := Enters(run, 2, INPUTS2);
    run', ctx := SecondProves(entered);
    OnlySecond(entered, run', HOST);
    ShiftedKeepsOther(ConnectorAfter(Last(run).files.store, SecondClaim(1, None)), Last(run').files.store);
  }

  /** Operation 2 is applied to connector 1, and completes. */
  lemma SecondCompletes(run: seq<ApplyWorld>, ids: HostIds) returns (run': seq<ApplyWorld>)
    requires ApplyRun(run) && run != [] && Last(run).files.store == Following(4, Released)
    requires 2 !in Last(run).files.execs && FreshIds(ids, Last(run).files.execs) && IdsUnknown(ids, HOST)
    requires forall q :: q in Last(run).apps ==> q < 2 && Last(run).apps[q].Returned?
    ensures ApplyRun(run') && run' != [] && SecondDone(Last(run').files) && OthersKept(run, run')
  {
    hide ApplyRun, Following, Steady, FreshIds, IdsUnknown, Onwards, SecondDone;
    var standing, ctx := SecondStands(run);
    var host';
    run', host' := SecondExecutes(standing, ctx, ids);
    OnlySecond(standing, run', host');
  }

  lemma OnlySecond(run: seq<ApplyWorld>, run': seq<ApplyWorld>, host: HostState)
    requires Onwards(run, run', 2, HOST, host)
    requires forall q :: q in Last(run).apps && q != 2 ==> Last(run).apps[q].Returned?
    ensures ApplyRun(run') && run' != [] && 2 in Last(run').apps && OthersKept(run, run')
    ensures forall q :: q in Last(run').apps && q != 2 ==> Last(run').apps[q].Returned?
  {
    hide ApplyRun, Heard;
  }

  lemma OtherClaimStays(s: Store)
    requires s == Following(4, Released)
    ensures var t := ConnectorAfter(s, SecondClaim(1, None));
      ClaimKey(0, 2) in t.claims && t.claims[ClaimKey(0, 2)].phase == Released
  {
  }

  lemma ShiftedKeepsOther(a: Store, b: Store)
    requires Shifted(a, b, 2, 1) && ClaimKey(0, 2) in a.claims && a.claims[ClaimKey(0, 2)].phase == Released
    ensures ClaimKey(0, 2) in b.claims && b.claims[ClaimKey(0, 2)].phase == Released
  {
  }

  /** The lease is free, since the other processes returned. */
  lemma SecondExecutes(run: seq<ApplyWorld>, ctx: Context, ids: HostIds) returns (run': seq<ApplyWorld>, host': HostState)
    requires ApplyRun(run) && run != [] && 2 in Last(run).apps && Last(run).apps[2] == Leasing(ctx)
    requires ctx == Context(INPUTS2, ctx.operation, false, Prepared) && ctx.operation.core == SECOND
    requires ctx.operation.phase == ArtifactsVerified
    requires Steady(Last(run).files.store, ctx.operation, 1, Prepared)
    requires forall q :: q in Last(run).apps && q != 2 ==> Last(run).apps[q].Returned?
    requires 2 !in Last(run).files.execs && FreshIds(ids, Last(run).files.execs) && IdsUnknown(ids, HOST)
    requires ClaimKey(0, 2) in Last(run).files.store.claims
    requires Last(run).files.store.claims[ClaimKey(0, 2)].phase == Released
    ensures Onwards(run, run', 2, HOST, host') && SecondDone(Last(run').files)
  {
    SteadyLease(Last(run).files.store, ctx.operation);
    SecondMatches();
    assert LeaseFree(Last(run), 2);
    hide ApplyRun, Steady, FreshIds, IdsUnknown, LeaseFree, LeaseGranted, OperationMatches, FilesMatchPlan, Heard;
    hide Handles, Shifted;
    var run1, r := CreatesOn(run, 2, ctx, ids, HOST);
    IdentityNames(r.core, INPUTS2);
    hide IdentityMatches, Situated;
    run', host' := Returns(run1, 2, ctx, r, HOST);
    OnwardsJoin(run, run1, run', 2, HOST, HOST, host');
    ShiftedKeepsOther(Last(run1).files.store, Last(run').files.store);
  }

  lemma SteadyLease(s: Store, operation: OperationRecord)
    requires Steady(s, operation, 1, Prepared) && operation.core == SECOND
    ensures LeaseGranted(s, 2, 1)
  {
  }

  // ----- the run -----

  /** An application of a completed operation, made again, releases the fresh claim of the operation that succeeded it,
   *  and returns without error; the successor completes although its execution is of another of its two connectors. */
  lemma CompletesUnexecuted() returns (run: seq<ApplyWorld>)
    ensures ApplyRun(run) && run != []
    ensures 1 in Last(run).apps && Last(run).apps[1] == Returned(Ok(()))
    ensures var d := Last(run).files;
      && 2 in d.store.records && d.store.records[2].phase == Completed && !SoleConnector(d.store.records[2].core)
      && ClaimKey(0, 2) in d.store.claims && d.store.claims[ClaimKey(0, 2)].phase == Released
      && 2 in d.execs && d.execs[2].core.connector != 0
      && !ClaimsBehind(d.store.claims, d.execs)
  {
    hide ApplyRun, Alone, Following, ClaimsBehind, IdentityMatches, FreshIds;
    run := FirstCompletes();
    var r;
    run, r := AppliesAgain(run);
    run := SecondFollows(run);
    assert Works(run, 1, AGAIN, r, TASKS);
    var misfired := Misfires(run, r);
    OnwardsKeepsRun(run, misfired, 1, HOST, HOST);
    OthersReturned(run, misfired, r);
    LaterAreFresh(r);
    run := SecondCompletes(misfired, LaterIds(r.core.ids));
    WrongFiles2(Last(run).files);
  }

  lemma OthersReturned(run: seq<ApplyWorld>, run': seq<ApplyWorld>, r: ExecutionRecord)
    requires run != [] && Last(run).apps == map[0 := Returned(Ok(())), 1 := Working(AGAIN, r, TASKS)]
    requires Onwards(run, run', 1, HOST, HOST) && Last(run').apps[1] == Returned(Ok(()))
    ensures forall q :: q in Last(run').apps ==> q < 2 && Last(run').apps[q].Returned?
  {
    hide ApplyRun, Heard;
  }

  lemma WrongFiles2(d: Durable)
    requires ClaimKey(0, 2) in d.store.claims && d.store.claims[ClaimKey(0, 2)].phase == Released
    requires 2 in d.execs && d.execs[2].core.connector == 1
    ensures !ClaimsBehind(d.store.claims, d.execs)
  {
    assert !ClaimBacked(d.store.claims[ClaimKey(0, 2)].phase, d.execs, ClaimKey(0, 2));
  }
}
