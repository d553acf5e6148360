/** One uninterrupted application of a connector operation, as the deployer's code runs it.
 *
 * `Apply` runs against a cooperating Host and from whatever an earlier, interrupted application left.  It converges
 * exactly when the connector claim has not been released yet.
 */
module ConnectorApply {
  import opened Domain
  import opened Records
  import opened StateActions
  import opened StateInvariants
  import opened Calls
  import opened StateStore
  import opened Recovery
  import opened Replay
  import opened Execution
  import opened ApplyMachine
  import opened ApplyProofs
  import opened Lag
  import opened Handover
  import opened Cooperation
  import opened HostModel

  // ----- where things stand -----

  /** The operation owns its target and the connector, and its claim is in this phase. */
  ghost predicate Holds(s: Store, core: OperationIdentity, i: Token, phase: ClaimPhase) {
    && core.op in s.records && s.records[core.op].core == core && IsCurrent(s, core)
    && i in s.connOwners && s.connOwners[i].instance == i && s.connOwners[i].current == core.op
    && ClaimKey(i, core.op) in s.claims
    && s.claims[ClaimKey(i, core.op)] == ConnectorClaim(s.connOwners[i].identity, phase)
    && s.connOwners[i].identity.op == core.op && s.connOwners[i].identity.instance == i
  }

  /** The operation's record is this one, and it is moving forward. */
  ghost predicate Forward(s: Store, operation: OperationRecord) {
    && operation.core.op in s.records && s.records[operation.core.op] == operation
    && ValidRecord(operation) && operation.core.binding.workload.ConnectorHost?
    && operation.phase == operation.lastProven && operation.failure.None?
    && PhaseRank(operation.phase).Some?
  }

  /** The store is as it was but for this operation's record and its claim of this connector. */
  ghost predicate OnlyThese(s: Store, s': Store, op: Token, i: Token) {
    && s'.owners == s.owners
    && (forall o :: o != op ==> (o in s.records <==> o in s'.records) && (o in s.records ==> s'.records[o] == s.records[o]))
    && (forall c :: c != i ==> (c in s.connOwners <==> c in s'.connOwners) && (c in s.connOwners ==> s'.connOwners[c] == s.connOwners[c]))
    && (forall key :: key != ClaimKey(i, op) ==>
          (key in s.claims <==> key in s'.claims) && (key in s.claims ==> s'.claims[key] == s.claims[key]))
  }

  lemma OnlyTheseTransitive(a: Store, b: Store, c: Store, op: Token, i: Token)
    requires OnlyThese(a, b, op, i) && OnlyThese(b, c, op, i)
    ensures OnlyThese(a, c, op, i)
  {
  }

  lemma NothingElse(s: Store, op: Token, i: Token)
    ensures OnlyThese(s, s, op, i)
  {
  }

  /** The phase an operation without agent bundle has once it has caught up with its execution. */
  function PhaseFor(phase: ExecutionPhase): OperationPhase {
    match phase
    case ExecClaimed | ExecExpired => ArtifactsVerified
    case ExecPrepared => ConfigsWritten
    case ExecStarted => ServicesConverged
    case ExecRunning => ReadinessVerified
    case ExecFinalized => Completed
  }

  /** The phase of an operation that has caught up; one bound to an agent bundle stays at its services. */
  function PhaseOf(r: ExecutionRecord): OperationPhase {
    if r.core.bundle.Some? && r.phase.ExecRunning? then ServicesConverged else PhaseFor(r.phase)
  }

  function ClaimFor(phase: ExecutionPhase): ClaimPhase {
    match phase
    case ExecClaimed | ExecExpired => Prepared
    case ExecPrepared | ExecStarted | ExecRunning => HandoffObserved
    case ExecFinalized => Released
  }

  /** The operation, which has only this connector, is moving forward and holds it. */
  ghost predicate Level(s: Store, operation: OperationRecord, i: Token, claim: ClaimPhase) {
    && Forward(s, operation) && Holds(s, operation.core, i, claim)
    && SoleConnector(operation.core) && SoleInstance(operation.core) == i
  }

  /** Operation and claim have caught up with the execution. */
  ghost predicate Abreast(s: Store, operation: OperationRecord, r: ExecutionRecord) {
    Level(s, operation, r.core.connector, ClaimFor(r.phase)) && operation.phase == PhaseOf(r)
  }

  /** The operation has proven its artifacts and is not ahead of the execution; neither is its claim. */
  ghost predicate Behind(s: Store, operation: OperationRecord, r: ExecutionRecord, claim: ClaimPhase) {
    && Level(s, operation, r.core.connector, claim)
    && 3 <= PhaseRank(operation.phase).value <= PhaseRank(PhaseOf(r)).value
    && (claim == Prepared || (claim == HandoffObserved && ExecutionRank(r.phase) >= 1))
    && operation.phase != Completed && (r.core.bundle.Some? ==> !r.phase.ExecFinalized?)
  }

  // ----- advancing -----

  function AdvancedTo(s: Store, op: Token, phase: OperationPhase): Store
    requires op in s.records
  {
    s.(records := s.records[op := s.records[op].(phase := phase, lastProven := phase)])
  }

  ghost predicate CanAdvance(s: Store, operation: OperationRecord, target: OperationPhase) {
    && Forward(s, operation) && IsCurrent(s, operation.core)
    && PhaseRank(target).Some? && !Reached(operation.phase, target)
    && (target == Completed ==> CompletionVerified(s, operation.core))
  }

  lemma AdvanceStep(s: Store, operation: OperationRecord, target: OperationPhase)
    requires CanAdvance(s, operation, target)
    ensures PhaseAfter(operation.phase).Some?
    ensures var next := PhaseAfter(operation.phase).value; var w := UpdateRecord(operation.core.op, Change.Advance(next));
      && PhaseRank(next) == Some(PhaseRank(operation.phase).value + 1)
      && Enabled(s, w) && After(s, w) == AdvancedTo(s, operation.core.op, next)
      && (next != target ==> CanAdvance(AdvancedTo(s, operation.core.op, next), operation.(phase := next, lastProven := next), target))
  {
    hide CompletionVerified, ValidIdentity;
    var next := PhaseAfter(operation.phase).value;
    var t := AdvancedTo(s, operation.core.op, next);
    assert next == Completed ==> target == Completed;
    assert CompletionVerified(t, operation.core) == CompletionVerified(s, operation.core) by { SameCompletion(s, t, operation.core); }
  }

  /** How many phases lie ahead, at most. */
  function Remaining(phase: OperationPhase): nat {
    if PhaseRank(phase).Some? && PhaseRank(phase).value <= 8 then 9 - PhaseRank(phase).value else 0
  }

  lemma Nearer(phase: OperationPhase)
    requires PhaseAfter(phase).Some?
    ensures PhaseRank(phase).Some? && Remaining(PhaseAfter(phase).value) < Remaining(phase)
  {
  }

  /** The store after the operation moved from one record to the other. */
  ghost predicate Moved(s: Store, s': Store, operation: OperationRecord, live: OperationRecord) {
    && operation.core.op in s.records && s.records[operation.core.op] == operation
    && live == operation.(phase := live.phase, lastProven := live.phase)
    && s' == s.(records := s.records[operation.core.op := live])
  }

  /** On the way: the operation has moved to its present record, from which it can go on. */
  ghost predicate Proceeding(s: Store, t: Store, operation: OperationRecord, live: OperationRecord,
                             target: OperationPhase) {
    && CanAdvance(s, operation, target)
    && ((t == s && live == operation) || Moved(s, t, operation, live))
    && (live.phase != target ==> CanAdvance(t, live, target))
  }

  lemma ProceedsOn(s: Store, t: Store, u: Store, operation: OperationRecord, at: OperationRecord,
                   live: OperationRecord, target: OperationPhase)
    requires Proceeding(s, t, operation, at, target) && at.phase != target
    requires at.core.op in t.records
    requires live == at.(phase := live.phase, lastProven := live.phase) && u == AdvancedTo(t, at.core.op, live.phase)
    requires live.phase != target ==> CanAdvance(u, live, target)
    ensures Proceeding(s, u, operation, live, target)
  {
    hide CompletionVerified, ValidRecord, IsCurrent, PhaseRank;
  }

  lemma ProceedsFrom(s: Store, t: Store, operation: OperationRecord, at: OperationRecord, target: OperationPhase)
    requires Proceeding(s, t, operation, at, target) && at.phase != target
    ensures CanAdvance(t, at, target) && at.core.op in t.records
  {
  }

  lemma ProceedsTo(s: Store, t: Store, operation: OperationRecord, live: OperationRecord, target: OperationPhase)
    requires Proceeding(s, t, operation, live, target) && live.phase == target
    ensures operation.core.op in s.records
    ensures live == operation.(phase := target, lastProven := target) && t == AdvancedTo(s, operation.core.op, target)
  {
    hide CompletionVerified, ValidRecord, IsCurrent;
  }

  lemma SameCompletion(s: Store, t: Store, core: OperationIdentity)
    requires t.connOwners == s.connOwners && t.claims == s.claims
    ensures CompletionVerified(t, core) == CompletionVerified(s, core)
  {
  }

  /** Forward and holding the connector, the operation can advance; to completion once the claim is released. */
  lemma LevelAdvances(s: Store, operation: OperationRecord, i: Token, claim: ClaimPhase, target: OperationPhase)
    requires Level(s, operation, i, claim) && PhaseRank(target).Some? && !Reached(operation.phase, target)
    requires target == Completed ==> claim == Released
    ensures CanAdvance(s, operation, target)
    ensures var t := AdvancedTo(s, operation.core.op, target); var moved := operation.(phase := target, lastProven := target);
      Level(t, moved, i, claim) && OnlyThese(s, t, operation.core.op, i)
  {
    hide ValidIdentity;
    var t, moved := AdvancedTo(s, operation.core.op, target), operation.(phase := target, lastProven := target);
    if target == Completed {
      SoleDone(s, operation.core, i);
    }
    assert ValidRecord(moved);
  }

  lemma SoleDone(s: Store, core: OperationIdentity, i: Token)
    requires Holds(s, core, i, Released) && SoleConnector(core) && SoleInstance(core) == i
    ensures CompletionVerified(s, core)
  {
  }

  function ClaimSet(s: Store, op: Token, i: Token, phase: ClaimPhase): Store
    requires ClaimKey(i, op) in s.claims
  {
    s.(claims := s.claims[ClaimKey(i, op) := s.claims[ClaimKey(i, op)].(phase := phase)])
  }

  lemma ClaimMoves(s: Store, core: OperationIdentity, i: Token, claim: ClaimPhase, change: ClaimChange)
    requires Holds(s, core, i, claim)
    ensures ClaimChanged(claim, change).Ok? <==> Enabled(s, UpdateClaim(i, change)) || ChangeRecorded(s, i, change)
    ensures Enabled(s, UpdateClaim(i, change)) ==> After(s, UpdateClaim(i, change)) == ClaimSet(s, core.op, i, ClaimTarget(change))
    ensures ChangeRecorded(s, i, change) ==> s == ClaimSet(s, core.op, i, ClaimTarget(change)) && !Enabled(s, UpdateClaim(i, change))
    ensures Holds(ClaimSet(s, core.op, i, ClaimTarget(change)), core, i, ClaimTarget(change))
    ensures OnlyThese(s, ClaimSet(s, core.op, i, ClaimTarget(change)), core.op, i)
  {
    var key := ClaimKey(i, core.op);
    if claim == ClaimTarget(change) {
      assert s.claims[key := s.claims[key]] == s.claims;
    }
  }

  lemma LevelClaimed(s: Store, operation: OperationRecord, i: Token, claim: ClaimPhase, phase: ClaimPhase)
    requires Level(s, operation, i, claim)
    ensures Level(ClaimSet(s, operation.core.op, i, phase), operation, i, phase)
    ensures OnlyThese(s, ClaimSet(s, operation.core.op, i, phase), operation.core.op, i)
  {
  }

  lemma LevelHolds(s: Store, operation: OperationRecord, i: Token, claim: ClaimPhase)
    requires Level(s, operation, i, claim)
    ensures Holds(s, operation.core, i, claim)
  {
  }

  class Application {
    const store: DeploymentStateStore
    var execs: map<Token, ExecutionRecord>
    var host: HostState
    /** The frames sent, oldest first. */
    ghost var sent: seq<Frame>
    /** How many times a connector is polled again before the deadline. */
    const patience: nat

    constructor (store: DeploymentStateStore, host: HostState, patience: nat)
      ensures this.store == store && this.host == host && this.patience == patience && execs == map[] && sent == []
    {
      this.store := store;
      this.host := host;
      this.patience := patience;
      execs := map[];
      sent := [];
    }

    /** Sends a frame to the Host and reads its reply.  The frame repeats what is durable of its execution. */
    method Exchange(frame: Frame, ghost op: Token) returns (reply: Reply)
      requires FrameOk(Sent(op, frame, None), execs)
      modifies `host, `sent
      ensures (host, reply) == Handles(old(host), frame)
      ensures sent == old(sent) + [frame]
    {
      sent := sent + [frame];
      var handled := Handles(host, frame);
      host := handled.0;
      return handled.1;
    }

    method Persist(r: ExecutionRecord)
      modifies `execs
      ensures execs == old(execs)[r.core.op := r]
    {
      execs := execs[r.core.op := r];
    }

    /** The body of the loop below: one call of `advance`. */
    method AdvanceOnce(live: OperationRecord, ghost target: OperationPhase) returns (r: Result<OperationRecord>)
      requires store.Valid()
      modifies store
      ensures store.Valid()
      ensures PhaseAfter(live.phase).None? ==> r.Err? && store.Files() == old(store.Files())
      ensures r.Ok? ==> Some(r.value.phase) == PhaseAfter(live.phase)
      ensures CanAdvance(old(store.Files()), live, target) ==>
        && PhaseAfter(live.phase).Some?
        && r == Ok(live.(phase := PhaseAfter(live.phase).value, lastProven := PhaseAfter(live.phase).value))
        && store.Files() == AdvancedTo(old(store.Files()), live.core.op, PhaseAfter(live.phase).value)
        && (PhaseAfter(live.phase) != Some(target) ==> CanAdvance(store.Files(), r.value, target))
    {
      var next := PhaseAfter(live.phase);
      if next.None? {
        ghost var none := CanAdvance(store.Files(), live, target);
        if none {
          AdvanceStep(store.Files(), live, target);
        }
        return Err(Contract);
      }
      ghost var able := CanAdvance(store.Files(), live, target);
      if able {
        AdvanceStep(store.Files(), live, target);
      }
      r := store.Advance(live.core.op, next.value);
    }

    /** Advances the operation one phase at a time until it reaches the target; returns the record it ends with. */
    method AdvanceTo(operation: OperationRecord, target: OperationPhase) returns (r: Result<OperationRecord>)
      requires store.Valid()
      modifies store
      ensures store.Valid()
      ensures Reached(operation.phase, target) ==> r == Ok(operation) && store.Files() == old(store.Files())
      ensures PhaseRank(operation.phase).None? && PhaseRank(target).Some? ==> r.Err? && store.Files() == old(store.Files())
      ensures CanAdvance(old(store.Files()), operation, target) ==>
        && r == Ok(operation.(phase := target, lastProven := target))
        && store.Files() == AdvancedTo(old(store.Files()), operation.core.op, target)
    {
      if Reached(operation.phase, target) {
        return Ok(operation);
      }
      var live := operation;
      ghost var before := store.Files();
      ghost var able := CanAdvance(before, operation, target);
      ghost var moved := false;
      assert able ==> Proceeding(before, before, operation, live, target);
      hide CanAdvance, Reached, AdvancedTo, Proceeding;
      while live.phase != target
        invariant store.Valid()
        invariant !moved ==> live == operation && store.Files() == before
        invariant moved ==> PhaseRank(operation.phase).Some?
        invariant able ==> Proceeding(before, store.Files(), operation, live, target)
        decreases Remaining(live.phase)
      {
        ghost var last, at := store.Files(), live;
        if able {
          ProceedsFrom(before, last, operation, at, target);
        }
        var advanced := AdvanceOnce(live, target);
        if advanced.Err? {
          return advanced;
        }
        live := advanced.value;
        Nearer(at.phase);
        if able {
          ProceedsOn(before, last, store.Files(), operation, at, live, target);
        }
        moved := true;
      }
      if able {
        ProceedsTo(before, store.Files(), operation, live, target);
      }
      return Ok(live);
    }

    /** Advances a level operation, which cannot fail. */
    method Raise(operation: OperationRecord, target: OperationPhase, ghost i: Token, ghost claim: ClaimPhase,
                 ghost since: Store)
      returns (r: Result<OperationRecord>)
      requires store.Valid() && Level(store.Files(), operation, i, claim)
      requires OnlyThese(since, store.Files(), operation.core.op, i)
      requires PhaseRank(target).Some? && (target == Completed ==> claim == Released)
      modifies store
      ensures store.Valid() && r.Ok? && r.value.core == operation.core
      ensures Level(store.Files(), r.value, i, claim)
      ensures r.value.phase == if Reached(operation.phase, target) then operation.phase else target
      ensures OnlyThese(since, store.Files(), operation.core.op, i)
    {
      ghost var s := store.Files();
      if !Reached(operation.phase, target) {
        LevelAdvances(s, operation, i, claim, target);
      }
      hide Level, CanAdvance, AdvancedTo, OnlyThese;
      r := AdvanceTo(operation, target);
      NothingElse(s, operation.core.op, i);
      OnlyTheseTransitive(since, s, store.Files(), operation.core.op, i);
    }

    /** Observes the handoff of a connector the operation holds; a released claim refuses. */
    method Observe(i: Token, ghost operation: OperationRecord, ghost claim: ClaimPhase)
      returns (r: Result<ConnectorClaim>)
      requires store.Valid() && Holds(store.Files(), operation.core, i, claim)
      modifies store
      ensures store.Valid()
      ensures r.Ok? <==> claim == Prepared || claim == HandoffObserved
      ensures r.Ok? ==> store.Files() == ClaimSet(old(store.Files()), operation.core.op, i, HandoffObserved)
      ensures r.Err? ==> store.Files() == old(store.Files())
    {
      ClaimMoves(store.Files(), operation.core, i, claim, ClaimChange.Observe);
      hide Holds, Enabled, After, ChangeRecorded, ClaimSet;
      r := store.ObserveConnectorHandoff(i);
    }

    method Release(i: Token, ghost operation: OperationRecord, ghost claim: ClaimPhase)
      returns (r: Result<ConnectorClaim>)
      requires store.Valid() && Holds(store.Files(), operation.core, i, claim) && claim == HandoffObserved
      modifies store
      ensures store.Valid() && r.Ok?
      ensures store.Files() == ClaimSet(old(store.Files()), operation.core.op, i, Released)
    {
      ClaimMoves(store.Files(), operation.core, i, claim, ClaimChange.Release);
      hide Holds, Enabled, After, ChangeRecorded, ClaimSet;
      r := store.ReleaseConnectorClaim(i);
    }

    /** Observes the handoff and has the operation write its configurations. */
    method ObserveAndConfigure(operation: OperationRecord, i: Token, ghost claim: ClaimPhase, ghost since: Store)
      returns (res: Result<OperationRecord>)
      requires store.Valid() && (claim == Prepared || claim == HandoffObserved || claim == Released)
      requires claim == Released ==> Holds(store.Files(), operation.core, i, Released)
      requires claim != Released ==> Level(store.Files(), operation, i, claim) && OnlyThese(since, store.Files(), operation.core.op, i)
      modifies store
      ensures store.Valid()
      ensures claim == Released ==> res.Err? && store.Files() == old(store.Files())
      ensures claim != Released ==>
        && res.Ok? && res.value.core == operation.core
        && Level(store.Files(), res.value, i, HandoffObserved)
        && res.value.phase == (if Reached(operation.phase, ConfigsWritten) then operation.phase else ConfigsWritten)
        && OnlyThese(since, store.Files(), operation.core.op, i)
    {
      ghost var s := store.Files();
      if claim != Released {
        LevelHolds(s, operation, i, claim);
      }
      hide Level, Holds, OnlyThese, ClaimSet;
      var observed := Observe(i, operation, claim);
      if observed.Err? {
        return Err(observed.error);
      }
      LevelClaimed(s, operation, i, claim, HandoffObserved);
      OnlyTheseTransitive(since, s, store.Files(), operation.core.op, i);
      res := Raise(operation, ConfigsWritten, i, HandoffObserved, since);
    }

    /** `converge_deployment_projection`: claim and operation catch up with the execution record. */
    method CatchUp(operation: OperationRecord, r: ExecutionRecord, ghost claim: ClaimPhase)
      returns (res: Result<OperationRecord>)
      requires store.Valid()
      requires Behind(store.Files(), operation, r, claim)
        || (claim == Released && ExecutionRank(r.phase) >= 1 && Holds(store.Files(), operation.core, r.core.connector, Released))
      modifies store
      ensures store.Valid()
      ensures claim == Released ==> res.Err? && store.Files() == old(store.Files())
      ensures claim != Released ==>
        && res.Ok? && res.value.core == operation.core
        && Abreast(store.Files(), res.value, r)
        && OnlyThese(old(store.Files()), store.Files(), operation.core.op, r.core.connector)
    {
      ghost var s := store.Files();
      NothingElse(s, operation.core.op, r.core.connector);
      hide Level, Holds, OnlyThese;
      if ExecutionRank(r.phase) == 0 {
        return Ok(operation);
      }
      res := ObserveAndConfigure(operation, r.core.connector, claim, s);
      if res.Err? {
        return;
      }
      res := CatchUpServices(res.value, r, s);
    }

    /** The operation follows an execution whose handoff was observed. */
    method CatchUpServices(operation: OperationRecord, r: ExecutionRecord, ghost since: Store)
      returns (res: Result<OperationRecord>)
      requires store.Valid() && ExecutionRank(r.phase) >= 1 && (r.core.bundle.Some? ==> !r.phase.ExecFinalized?)
      requires Level(store.Files(), operation, r.core.connector, HandoffObserved)
      requires PhaseRank(operation.phase).Some?
      requires 5 <= PhaseRank(operation.phase).value <= PhaseRank(PhaseOf(r)).value && operation.phase != Completed
      requires OnlyThese(since, store.Files(), operation.core.op, r.core.connector)
      modifies store
      ensures store.Valid() && res.Ok? && res.value.core == operation.core
      ensures Abreast(store.Files(), res.value, r)
      ensures OnlyThese(since, store.Files(), operation.core.op, r.core.connector)
    {
      hide Level, Holds, OnlyThese, Forward;
      var live := operation;
      if ExecutionRank(r.phase) >= 2 {
        res := Raise(live, ServicesConverged, r.core.connector, HandoffObserved, since);
        live := res.value;
      }
      if ExecutionRank(r.phase) >= 3 && r.core.bundle.None? {
        res := Raise(live, ReadinessVerified, r.core.connector, HandoffObserved, since);
        live := res.value;
      }
      if r.phase.ExecFinalized? {
        res := Complete(live, r, since);
        return;
      }
      return Ok(live);
    }

    /** The last two steps: the claim is released, and the operation completes. */
    method Complete(operation: OperationRecord, r: ExecutionRecord, ghost since: Store)
      returns (res: Result<OperationRecord>)
      requires store.Valid() && r.phase.ExecFinalized?
      requires OnlyThese(since, store.Files(), operation.core.op, r.core.connector)
      requires Level(store.Files(), operation, r.core.connector, HandoffObserved) && operation.phase == ReadinessVerified
      modifies store
      ensures store.Valid() && res.Ok? && res.value.core == operation.core
      ensures Abreast(store.Files(), res.value, r)
      ensures OnlyThese(since, store.Files(), operation.core.op, r.core.connector)
    {
      ghost var s, i := store.Files(), r.core.connector;
      LevelHolds(s, operation, i, HandoffObserved);
      hide Level, Holds, OnlyThese, ClaimSet;
      var released := Release(r.core.connector, operation, HandoffObserved);
      LevelClaimed(s, operation, i, HandoffObserved, Released);
      OnlyTheseTransitive(since, s, store.Files(), operation.core.op, i);
      res := Raise(operation, Completed, i, Released, since);
    }

    // ----- the blocks of the code, one per phase -----

    ghost predicate Known(r: ExecutionRecord)
      reads this
    {
      && r.core.op in execs && execs[r.core.op] == r && ExecutionOk(r) && Coherent(r, host) && r.core.bundle.None?
      && host.warmup <= patience
    }

    ghost predicate InStep(r: ExecutionRecord, operation: OperationRecord)
      reads this, store
    {
      store.Valid() && Known(r) && r.core.op == operation.core.op && Abreast(store.Files(), operation, r)
    }

    /** `invoke_v2_recoverable`: asks without material first, and with it when the Host requires it. */
    method InvokePrepare(r: ExecutionRecord, inputs: Inputs) returns (res: Result<MaterialResult>)
      requires r.core.op in execs && execs[r.core.op] == r
      requires ExecutionOk(r) && Coherent(r, host) && r.phase.ExecClaimed?
      requires FilesMatchPlan(inputs.files, inputs.plan) && FilesMatchRecord(inputs.files, inputs.plan, r.core)
      modifies `host, `sent
      ensures res.Ok? && ValidatedResult(res.value, r.core, None, PrepareMaterial, r.core.initial).Ok?
      ensures !ExpiredPrepare(res.value)
      ensures Coherent(r.(prepareResult := Some(res.value), phase := ExecPrepared), host)
      ensures host.warmup == old(host.warmup)
      ensures var plan := inputs.plan;
        var material := Material(Some(inputs.files.config), Some(plan.enrollmentCa), Some(plan.controlCa),
                                 Some(plan.issuerCa), plan, plan.handoff);
        || sent == old(sent) + [PrepareFrame(r.prepareHeader)]
        || sent == old(sent) + [PrepareFrame(r.prepareHeader), PrepareFrame(r.prepareHeader.(payload := material))]
    {
      PrepareFrames(r, inputs);
      hide ExecutionOk, Coherent, Handles, TaskFrame, ValidatedResult, FrameOk;
      PrepareExchange(r, host, false);
      var frame := TaskFrame(r, AskPrepare(false));
      if frame.Err? {
        return Err(Conflict);
      }
      TaskFrameOk(r, AskPrepare(false), execs);
      var reply := Exchange(frame.value, r.core.op);
      if reply.MaterialRequired? {
        if !FilesMatchPlan(inputs.files, inputs.plan) || !FilesMatchRecord(inputs.files, inputs.plan, r.core) {
          return Err(Conflict);
        }
        PrepareExchange(r, host, true);
        frame := TaskFrame(r, AskPrepare(true));
        TaskFrameOk(r, AskPrepare(true), execs);
        reply := Exchange(frame.value, r.core.op);
      }
      if !reply.MaterialReply? {
        return Err(Contract);
      }
      var validated := ValidatedResult(reply.result, r.core, None, PrepareMaterial, r.core.initial);
      if validated.Err? {
        return validated;
      }
      return Ok(reply.result);
    }

    method InvokeFinalize(r: ExecutionRecord, inputs: Inputs) returns (res: Result<MaterialResult>)
      requires r.core.op in execs && execs[r.core.op] == r
      requires ExecutionOk(r) && Coherent(r, host) && r.phase.ExecRunning? && r.finalizeHeader.Some?
      requires FilesMatchPlan(inputs.files, inputs.plan) && FilesMatchRecord(inputs.files, inputs.plan, r.core)
      modifies `host, `sent
      ensures res.Ok?
      ensures ValidatedResult(res.value, r.core, r.prepareResult, FinalizeMaterial, r.runningRevision.value).Ok?
      ensures Coherent(r.(finalizeResult := Some(res.value), phase := ExecFinalized), host)
      ensures host.warmup == old(host.warmup)
      ensures var header := r.finalizeHeader.value;
        var material := Material(None, None, None, None, inputs.plan, inputs.plan.handoff);
        || sent == old(sent) + [FinalizeFrame(header)]
        || sent == old(sent) + [FinalizeFrame(header), FinalizeFrame(header.(payload := material))]
    {
      FinalizeFrames(r, inputs);
      RunningBound(r);
      hide ExecutionOk, Coherent, Handles, TaskFrame, ValidatedResult;
      FinalizeExchange(r, host, false);
      var frame := TaskFrame(r, AskFinalize(false));
      if frame.Err? {
        return Err(Conflict);
      }
      TaskFrameOk(r, AskFinalize(false), execs);
      var reply := Exchange(frame.value, r.core.op);
      if reply.MaterialRequired? {
        if !FilesMatchPlan(inputs.files, inputs.plan) || !FilesMatchRecord(inputs.files, inputs.plan, r.core) {
          return Err(Conflict);
        }
        FinalizeExchange(r, host, true);
        frame := TaskFrame(r, AskFinalize(true));
        TaskFrameOk(r, AskFinalize(true), execs);
        reply := Exchange(frame.value, r.core.op);
      }
      if !reply.MaterialReply? {
        return Err(Contract);
      }
      var validated := ValidatedResult(reply.result, r.core, r.prepareResult, FinalizeMaterial, r.runningRevision.value);
      if validated.Err? {
        return validated;
      }
      return Ok(reply.result);
    }

    // Each block first has the Host act and persists what it replied.

    method PersistPrepared(r: ExecutionRecord, inputs: Inputs) returns (next: ExecutionRecord)
      requires Known(r) && r.phase.ExecClaimed?
      requires FilesMatchPlan(inputs.files, inputs.plan) && FilesMatchRecord(inputs.files, inputs.plan, r.core)
      modifies this
      ensures Known(next) && next.phase.ExecPrepared? && next.core == r.core && execs == old(execs)[r.core.op := next]
    {
      hide ExecutionOk, Coherent, ValidatedResult;
      var result := InvokePrepare(r, inputs);
      PreparePersisted(r, result.value);
      next := r.(prepareResult := Some(result.value), phase := ExecPrepared);
      Persist(next);
    }

    method PersistStarted(r: ExecutionRecord) returns (next: ExecutionRecord)
      requires Known(r) && r.phase.ExecPrepared?
      modifies this
      ensures Known(next) && next.phase.ExecStarted? && next.core == r.core && execs == old(execs)[r.core.op := next]
    {
      StartExchange(r, host);
      hide Coherent, Handles, TaskFrame;
      TaskFrameOk(r, AskStart, execs);
      var reply := Exchange(TaskFrame(r, AskStart).value, r.core.op);
      var revision := ValidatedStart(reply.started, r.core, r.prepareResult.value.revision);
      next := r.(startRevision := Some(revision.value), phase := ExecStarted);
      StartPersisted(r, revision.value);
      hide ExecutionOk;
      Persist(next);
    }

    /** `observe_running`: polls until the Host reports the connector running or the deadline has passed. */
    method Poll(r: ExecutionRecord) returns (revision: Result<Revision>)
      requires r.core.op in execs && execs[r.core.op] == r
      requires ExecutionOk(r) && Coherent(r, host) && r.phase.ExecStarted?
      modifies `host, `sent
      ensures revision.Ok? <==> old(host.warmup) <= patience
      ensures revision.Ok? ==> r.startRevision == Some(revision.value)
      ensures revision.Ok? ==> Coherent(r.(runningRevision := r.startRevision, phase := ExecRunning), host)
      ensures Coherent(r, host) && host.warmup == if revision.Ok? then 0 else old(host.warmup) - patience - 1
    {
      hide ExecutionOk, Coherent, Handles, TaskFrame;
      var left := patience;
      while true
        invariant Coherent(r, host)
        invariant host.warmup - left == old(host.warmup) - patience
        decreases left
      {
        ObserveExchange(r, host);
        TaskFrameOk(r, AskObservation, execs);
        var reply := Exchange(TaskFrame(r, AskObservation).value, r.core.op);
        if !reply.ObservationReply? || !ProjectionMatches(reply.connector, r.core) || r.startRevision != Some(reply.observed) {
          return Err(Contract);
        }
        if reply.actual.ObservedRunning? && reply.connector.recorded.ObservedRunning? {
          return Ok(reply.observed);
        }
        if left == 0 {
          return Err(Contract);
        }
        left := left - 1;
      }
    }

    method PersistRunning(r: ExecutionRecord) returns (res: Result<ExecutionRecord>)
      requires Known(r) && r.phase.ExecStarted?
      modifies this
      ensures res.Ok? && Known(res.value) && res.value.phase.ExecRunning? && res.value.core == r.core
      ensures execs == old(execs)[r.core.op := res.value]
    {
      hide ExecutionOk, Coherent;
      var revision := Poll(r);
      if revision.Err? {
        return Err(Contract);
      }
      var next := r.(runningRevision := Some(revision.value), phase := ExecRunning);
      RunPersisted(r);
      Persist(next);
      return Ok(next);
    }

    method PersistFinalized(r: ExecutionRecord, inputs: Inputs) returns (next: ExecutionRecord)
      requires Known(r) && r.phase.ExecRunning?
      requires FilesMatchPlan(inputs.files, inputs.plan) && FilesMatchRecord(inputs.files, inputs.plan, r.core)
      modifies this
      ensures Known(next) && next.phase.ExecFinalized? && next.core == r.core && execs == old(execs)[r.core.op := next]
    {
      var sealed := Seal(r);
      var result := InvokeFinalize(sealed, inputs);
      FinalizePersisted(sealed, result.value);
      hide ExecutionOk, Coherent, ValidatedResult;
      next := sealed.(finalizeResult := Some(result.value), phase := ExecFinalized);
      Persist(next);
    }

    // Then claim and operation follow.  A block is skipped unless the execution is in its phase.

    method Prepare(r: ExecutionRecord, operation: OperationRecord, inputs: Inputs, ghost since: Store)
      returns (res: Result<OperationRecord>, next: ExecutionRecord)
      requires InStep(r, operation)
      requires OnlyThese(since, store.Files(), operation.core.op, r.core.connector)
      requires FilesMatchPlan(inputs.files, inputs.plan) && FilesMatchRecord(inputs.files, inputs.plan, r.core)
      modifies this, store
      ensures res.Ok? && res.value.core == operation.core && InStep(next, res.value)
      ensures next.phase == (if r.phase.ExecClaimed? then ExecPrepared else r.phase) && next.core == r.core
      ensures execs == old(execs)[r.core.op := next]
      ensures OnlyThese(since, store.Files(), operation.core.op, r.core.connector)
    {
      if !r.phase.ExecClaimed? {
        assert execs[r.core.op := r] == execs;
        return Ok(operation), r;
      }
      hide Known, Level, OnlyThese, FilesMatchPlan, FilesMatchRecord;
      next := PersistPrepared(r, inputs);
      res := ObserveAndConfigure(operation, next.core.connector, Prepared, since);
    }

    method Start(r: ExecutionRecord, operation: OperationRecord, ghost since: Store)
      returns (res: Result<OperationRecord>, next: ExecutionRecord)
      requires InStep(r, operation)
      requires OnlyThese(since, store.Files(), operation.core.op, r.core.connector)
      modifies this, store
      ensures res.Ok? && res.value.core == operation.core && InStep(next, res.value)
      ensures next.phase == (if r.phase.ExecPrepared? then ExecStarted else r.phase) && next.core == r.core
      ensures execs == old(execs)[r.core.op := next]
      ensures OnlyThese(since, store.Files(), operation.core.op, r.core.connector)
    {
      if !r.phase.ExecPrepared? {
        assert execs[r.core.op := r] == execs;
        return Ok(operation), r;
      }
      hide Known, Level, OnlyThese;
      next := PersistStarted(r);
      res := Raise(operation, ServicesConverged, r.core.connector, HandoffObserved, since);
    }

    method Run(r: ExecutionRecord, operation: OperationRecord, ghost since: Store)
      returns (res: Result<OperationRecord>, next: ExecutionRecord)
      requires InStep(r, operation)
      requires OnlyThese(since, store.Files(), operation.core.op, r.core.connector)
      modifies this, store
      ensures res.Ok? && res.value.core == operation.core && InStep(next, res.value)
      ensures next.phase == (if r.phase.ExecStarted? then ExecRunning else r.phase) && next.core == r.core
      ensures execs == old(execs)[r.core.op := next]
      ensures OnlyThese(since, store.Files(), operation.core.op, r.core.connector)
    {
      if !r.phase.ExecStarted? {
        assert execs[r.core.op := r] == execs;
        return Ok(operation), r;
      }
      hide Known, Level, OnlyThese;
      var running := PersistRunning(r);
      if running.Err? {
        return Err(Contract), r;
      }
      next := running.value;
      res := Raise(operation, ReadinessVerified, r.core.connector, HandoffObserved, since);
    }

    method Finalize(r: ExecutionRecord, operation: OperationRecord, inputs: Inputs, ghost since: Store)
      returns (res: Result<OperationRecord>, next: ExecutionRecord)
      requires InStep(r, operation)
      requires OnlyThese(since, store.Files(), operation.core.op, r.core.connector)
      requires FilesMatchPlan(inputs.files, inputs.plan) && FilesMatchRecord(inputs.files, inputs.plan, r.core)
      modifies this, store
      ensures res.Ok? && res.value.core == operation.core && InStep(next, res.value)
      ensures next.phase == (if r.phase.ExecRunning? then ExecFinalized else r.phase) && next.core == r.core
      ensures execs == old(execs)[r.core.op := next]
      ensures OnlyThese(since, store.Files(), operation.core.op, r.core.connector)
    {
      if !r.phase.ExecRunning? {
        assert execs[r.core.op := r] == execs;
        return Ok(operation), r;
      }
      hide Known, Level, OnlyThese, FilesMatchPlan, FilesMatchRecord;
      next := PersistFinalized(r, inputs);
      res := Complete(operation, next, since);
    }

    /** Persists the header of the finalize request before the request is first sent. */
    method Seal(r: ExecutionRecord) returns (sealed: ExecutionRecord)
      requires Known(r) && r.phase.ExecRunning?
      modifies `execs
      ensures Known(sealed) && sealed.phase.ExecRunning? && sealed.finalizeHeader.Some? && sealed.core == r.core
      ensures execs == old(execs)[r.core.op := sealed]
    {
      SealHeader(r);
      var header := HeaderFor(r.core, r.prepareResult, FinalizeMaterial, r.runningRevision.value, NoPayload);
      if r.finalizeHeader.Some? {
        assert execs[r.core.op := r] == execs;
        return r;
      }
      sealed := r.(finalizeHeader := Some(header.value));
      HeaderPersisted(r, header.value);
      SealCoherent(r, header.value, host);
      hide ExecutionOk, Coherent;
      Persist(sealed);
    }

    // ----- before the blocks -----

    /** Reads the operation, prepares its connector claim and claims the connector. */
    method ClaimStage(inputs: Inputs, ghost h: History) returns (res: Result<(OperationRecord, ClaimPhase)>)
      requires store.Valid() && Ordered(store.Files(), h) && InputsMatch(store.Files(), execs, host, inputs)
      modifies store
      ensures store.Valid() && res.Ok?
      ensures inputs.op in old(store.records) && res.value.0 == old(store.records)[inputs.op]
      ensures store.records == old(store.records)
      ensures res.value.1 == ClaimPhaseOf(old(store.Files()), inputs)
      ensures Holds(store.Files(), res.value.0.core, inputs.plan.instance, res.value.1)
      ensures OnlyThese(old(store.Files()), store.Files(), inputs.op, inputs.plan.instance)
      ensures ClaimKey(inputs.plan.instance, inputs.op) in old(store.claims) ==> store.Files() == old(store.Files())
    {
      ghost var s := store.Files();
      ghost var expected := Stranded(s, h, execs, host, inputs);
      ClaimHeld(s, h, expected, inputs);
      hide Ordered, InputsMatch, Holds, OnlyThese, ConnectorAllowed, ForeignClaim, ConnectorAfter, HeldClaim;
      hide OperationMatches, ClaimPhaseOf;
      var operation := store.Read(inputs.op);
      if operation.Err? {
        return Err(Missing);
      }
      if !OperationMatches(operation.value.core, inputs) {
        return Err(Contract);
      }
      var existing := store.ReadClaim(inputs.plan.instance, inputs.op);
      if existing.Err? && !FilesMatchPlan(inputs.files, inputs.plan) {
        return Err(Contract);
      }
      var claim := store.PrepareConnectorClaim(operation.value.core, inputs.plan.instance);
      if claim.Err? {
        return Err(Contract);
      }
      var held := store.ClaimConnector(claim.value, inputs.plan.host);
      if held.Err? {
        return Err(Conflict);
      }
      return Ok((operation.value, held.value.phase));
    }

    /** Takes the execution lease and reads the execution record, or creates it from a snapshot of the Host. */
    method Load(inputs: Inputs, operation: OperationRecord, claim: ClaimPhase, ids: HostIds)
      returns (res: Result<ExecutionRecord>)
      requires store.Valid() && Loadable(store.Files(), execs, host, inputs, operation, claim)
      requires DistinctIds(ids) && IdsUnknown(ids, host) && host.warmup <= patience
      modifies this
      ensures host == old(host)
      ensures inputs.op in old(execs) ==> res == Ok(old(execs)[inputs.op]) && execs == old(execs)
      ensures inputs.op !in old(execs) ==> res.Ok? && res.value.phase.ExecClaimed? && execs == old(execs)[inputs.op := res.value]
      ensures Known(res.value) && Fits(res.value, inputs)
    {
      hide Holds, ExecutionOk, Coherent, LeaseGranted, IdentityMatches;
      HoldsLease(store.Files(), operation.core, inputs.plan.instance, claim);
      if !LeaseGranted(store.Files(), inputs.op, inputs.plan.instance) {
        return Err(Conflict);
      }
      if inputs.op in execs {
        if !IdentityMatches(execs[inputs.op].core, inputs) {
          return Err(Conflict);
        }
        IdentityFits(execs[inputs.op], inputs);
        return Ok(execs[inputs.op]);
      }
      if claim != Prepared {
        return Err(Conflict);
      }
      if !FilesMatchPlan(inputs.files, inputs.plan) {
        return Err(Contract);
      }
      var snapshot := Exchange(SnapshotFrame(inputs.plan.host.tenant, inputs.plan.host.hostId), inputs.op);
      if
        || !snapshot.SnapshotReply? || snapshot.tenant != inputs.plan.host.tenant || snapshot.hostId != inputs.plan.host.hostId
        || !ValidRevision(snapshot.revision)
      {
        return Err(Contract);
      }
      var r := NewRecord(inputs, snapshot.revision, ids);
      CreatedOk(inputs, snapshot.revision, ids, execs);
      NewIsCoherent(inputs, ids, host);
      NewFits(inputs, snapshot.revision, ids);
      Persist(r);
      return Ok(r);
    }

    /** `apply_with`, for a plan that has not expired and a connector that runs before the deadline.
     *
     *  From whatever an interrupted application left it converges exactly when the claim is not released: the execution
     *  is finalized, the claim released and the operation completed, and nothing else in the store has changed.  Once
     *  the claim is released every application fails and changes nothing. */
    method Apply(inputs: Inputs, ids: HostIds, ghost h: History) returns (r: Result<()>)
      requires store.Valid() && Resumable(store.Files(), h, execs, host, inputs)
      requires DistinctIds(ids) && IdsUnknown(ids, host) && host.warmup <= patience
      modifies this, store
      ensures store.Valid()
      ensures r.Ok? <==> ClaimPhaseOf(old(store.Files()), inputs) != Released
      ensures r.Ok? ==>
        && inputs.op in execs && execs[inputs.op].phase.ExecFinalized? && ExecutionOk(execs[inputs.op])
        && inputs.op in store.records && store.records[inputs.op].phase == Completed
        && ClaimPhaseOf(store.Files(), inputs) == Released
      ensures r.Ok? ==> OnlyThese(old(store.Files()), store.Files(), inputs.op, inputs.plan.instance)
      ensures r.Ok? ==> inputs.op in execs && execs == old(execs)[inputs.op := execs[inputs.op]]
      ensures r.Err? ==> store.Files() == old(store.Files()) && execs == old(execs) && host == old(host)
    {
      ghost var s, i := store.Files(), inputs.plan.instance;
      assert ClaimPhaseOf(s, inputs) == Released ==> ClaimKey(i, inputs.op) in store.claims;
      var claimed := ClaimStage(inputs, h);
      var operation, claim := claimed.value.0, claimed.value.1;
      Leaves(s, h, execs, host, inputs, store.Files(), operation, claim);
      hide Resumable, Holds, OnlyThese, ClaimPhaseOf, Coherent, ExecutionOk;
      r := ApplyClaimed(inputs, operation, claim, ids, s);
      if r.Ok? {
        CompletedClaim(store.Files(), inputs, operation.core);
      }
    }

    /** The part of `Apply` behind the connector claim. */
    method ApplyClaimed(inputs: Inputs, operation: OperationRecord, claim: ClaimPhase, ids: HostIds, ghost since: Store)
      returns (r: Result<()>)
      requires store.Valid() && Left(store.Files(), execs, host, inputs, operation, claim)
      requires DistinctIds(ids) && IdsUnknown(ids, host) && host.warmup <= patience
      requires OnlyThese(since, store.Files(), inputs.op, inputs.plan.instance)
      modifies this, store
      ensures store.Valid()
      ensures r.Ok? <==> claim != Released
      ensures r.Ok? ==>
        && inputs.op in execs && execs[inputs.op].phase.ExecFinalized? && ExecutionOk(execs[inputs.op])
        && execs == old(execs)[inputs.op := execs[inputs.op]]
        && Holds(store.Files(), operation.core, inputs.plan.instance, Released)
        && inputs.op in store.records && store.records[inputs.op].phase == Completed
        && OnlyThese(since, store.Files(), inputs.op, inputs.plan.instance)
      ensures r.Err? ==> store.Files() == old(store.Files()) && execs == old(execs) && host == old(host)
    {
      hide Known, ExecutionOk, Coherent, OnlyThese, IdentityMatches, Holds, Level, FilesMatchPlan;
      var proven := Prove(inputs, operation, claim, since);
      if proven.Err? {
        return Err(proven.error);
      }
      ghost var before := execs;
      var loaded := Load(inputs, proven.value, claim, ids);
      var rec := loaded.value;
      LoadedProceeds(store.Files(), before, host, inputs, proven.value, claim, rec);
      hide Left, Behind, Reached, PhaseRank;
      if PhasesConflict(claim, rec.phase) {
        return Err(Conflict);
      }
      r := Proceed(inputs, proven.value, claim, rec, since);
    }

    /** Advances to `ArtifactsVerified`, before any execution begins. */
    method Prove(inputs: Inputs, operation: OperationRecord, claim: ClaimPhase, ghost since: Store)
      returns (r: Result<OperationRecord>)
      requires store.Valid() && Left(store.Files(), execs, host, inputs, operation, claim)
      requires OnlyThese(since, store.Files(), inputs.op, inputs.plan.instance)
      modifies store
      ensures store.Valid()
      ensures claim == Released ==> store.Files() == old(store.Files()) && (r.Ok? ==> r.value == operation)
      ensures claim != Released ==> r.Ok? && r.value.core == operation.core && PhaseRank(r.value.phase).Some? && PhaseRank(r.value.phase).value >= 3
      ensures r.Ok? ==> Left(store.Files(), execs, host, inputs, r.value, claim)
      ensures OnlyThese(since, store.Files(), inputs.op, inputs.plan.instance)
    {
      hide ExecutionOk, Coherent, OnlyThese, IdentityMatches;
      if claim != Released {
        r := Raise(operation, ArtifactsVerified, inputs.plan.instance, claim, since);
        RaisedLeft(old(store.Files()), store.Files(), execs, host, inputs, operation, r.value, claim);
      } else {
        r := AdvanceTo(operation, ArtifactsVerified);
      }
    }

    /** Catches up with the execution and goes through the blocks that remain. */
    method Proceed(inputs: Inputs, operation: OperationRecord, claim: ClaimPhase, rec: ExecutionRecord,
                   ghost since: Store) returns (r: Result<()>)
      requires store.Valid() && Known(rec) && Fits(rec, inputs) && FilesMatchPlan(inputs.files, inputs.plan)
      requires operation.core.op == inputs.op && inputs.op in store.records && store.records[inputs.op] == operation
      requires if claim == Released then rec.phase.ExecFinalized? && Holds(store.Files(), operation.core, inputs.plan.instance, Released)
               else Behind(store.Files(), operation, rec, claim) && !rec.phase.ExecExpired?
      requires OnlyThese(since, store.Files(), inputs.op, inputs.plan.instance)
      modifies this, store
      ensures store.Valid()
      ensures r.Ok? <==> claim != Released
      ensures r.Ok? ==>
        && inputs.op in execs && execs[inputs.op].phase.ExecFinalized? && ExecutionOk(execs[inputs.op])
        && execs == old(execs)[inputs.op := execs[inputs.op]]
        && Holds(store.Files(), operation.core, inputs.plan.instance, Released)
        && inputs.op in store.records && store.records[inputs.op].phase == Completed
        && OnlyThese(since, store.Files(), inputs.op, inputs.plan.instance)
      ensures r.Err? ==> store.Files() == old(store.Files()) && execs == old(execs) && host == old(host)
    {
      hide ExecutionOk, Coherent, OnlyThese, Behind, Abreast;
      var caught := CatchUp(operation, rec, claim);
      if caught.Err? {
        return Err(caught.error);
      }
      OnlyTheseTransitive(since, old(store.Files()), store.Files(), inputs.op, inputs.plan.instance);
      r := Blocks(inputs, caught.value, rec, since);
    }

    /** The four blocks, one after the other. */
    method Blocks(inputs: Inputs, operation: OperationRecord, rec: ExecutionRecord, ghost since: Store)
      returns (r: Result<()>)
      requires InStep(rec, operation) && Fits(rec, inputs) && FilesMatchPlan(inputs.files, inputs.plan)
      requires !rec.phase.ExecExpired?
      requires OnlyThese(since, store.Files(), inputs.op, inputs.plan.instance)
      modifies this, store
      ensures store.Valid() && r.Ok?
      ensures inputs.op in execs && execs[inputs.op].phase.ExecFinalized? && ExecutionOk(execs[inputs.op])
      ensures execs == old(execs)[inputs.op := execs[inputs.op]]
      ensures Holds(store.Files(), operation.core, inputs.plan.instance, Released)
      ensures inputs.op in store.records && store.records[inputs.op].phase == Completed
      ensures OnlyThese(since, store.Files(), inputs.op, inputs.plan.instance)
    {
      hide ExecutionOk, Coherent, OnlyThese, Abreast, FilesMatchPlan, FilesMatchRecord;
      var prepared, rec1 := Prepare(rec, operation, inputs, since);
      var started, rec2 := Start(rec1, prepared.value, since);
      var running, rec3 := Run(rec2, started.value, since);
      var finalized, rec4 := Finalize(rec3, running.value, inputs, since);
      AbreastDone(store.Files(), finalized.value, rec4);
      return Ok(());
    }

    // ----- after an expiry -----

    /** Records the expiry of claim and operation, as far as it is not recorded yet. */
    method GiveUp(r: ExecutionRecord, claim: ClaimPhase, ghost operation: OperationRecord) returns (res: Result<()>)
      requires store.Valid() && r.core.op == operation.core.op
      requires Expiring(store.Files(), operation, r.core.connector, claim)
      modifies store
      ensures store.Valid() && res.Err?
      ensures Holds(store.Files(), operation.core, r.core.connector, ClaimExpired)
      ensures r.core.op in store.records && store.records[r.core.op].phase == ExpiredUnclaimed
      ensures OnlyThese(old(store.Files()), store.Files(), r.core.op, r.core.connector)
    {
      ghost var s := store.Files();
      NothingElse(s, r.core.op, r.core.connector);
      ExpiryMoves(s, operation, r.core.connector, claim);
      hide Expiring, Holds, Enabled, After, ChangeRecorded, ExpiryRecorded, ClaimSet, OnlyThese;
      if claim != ClaimExpired {
        var given := store.ExpireUnclaimedConnectorClaim(r.core.connector);
        if given.Err? {
          return Err(Contract);
        }
      }
      var expired := store.ExpireUnclaimedOperation(r.core.op, r.core.connector);
      if expired.Err? {
        return Err(Contract);
      }
      return Err(Contract);
    }

    /** `apply_with` once the execution has expired: it finishes what a crash left undone of the three expiry writes and
     *  asks for a reissue; once the operation itself is expired it fails before it gets there and changes nothing. */
    method ApplyExpired(inputs: Inputs, ghost h: History) returns (r: Result<()>)
      requires store.Valid() && Expirable(store.Files(), h, execs, host, inputs)
      modifies store
      ensures store.Valid() && r.Err?
      ensures inputs.op in store.records && store.records[inputs.op].phase == ExpiredUnclaimed
      ensures ClaimPhaseOf(store.Files(), inputs) == ClaimExpired
      ensures OnlyThese(old(store.Files()), store.Files(), inputs.op, inputs.plan.instance)
      ensures inputs.op in old(store.records) && old(store.records)[inputs.op].phase == ExpiredUnclaimed ==> store.Files() == old(store.Files())
    {
      ghost var s := store.Files();
      ExpirableFacts(s, h, execs, host, inputs);
      hide Expirable, Holds, OnlyThese, InputsMatch, Ordered, SoleConnector, ValidRecord;
      var claimed := ClaimStage(inputs, h);
      r := FinishExpiry(inputs, claimed.value.0, claimed.value.1, s);
    }

    /** The part of `ApplyExpired` behind the connector claim. */
    method FinishExpiry(inputs: Inputs, operation: OperationRecord, claim: ClaimPhase, ghost since: Store)
      returns (r: Result<()>)
      requires store.Valid() && inputs.op in execs
      requires ExpiryFound(store.Files(), execs[inputs.op], inputs, operation, claim)
      requires OnlyThese(since, store.Files(), inputs.op, inputs.plan.instance)
      modifies store
      ensures store.Valid() && r.Err?
      ensures inputs.op in store.records && store.records[inputs.op].phase == ExpiredUnclaimed
      ensures ClaimPhaseOf(store.Files(), inputs) == ClaimExpired
      ensures OnlyThese(since, store.Files(), inputs.op, inputs.plan.instance)
      ensures operation.phase == ExpiredUnclaimed ==> store.Files() == old(store.Files())
    {
      ghost var s := store.Files();
      ExpiryIsExpiring(s, execs[inputs.op], inputs, operation, claim);
      HoldsLease(s, operation.core, inputs.plan.instance, claim);
      ExpiredHeld(s, inputs, operation.core, claim);
      hide ExpiryFound, Expiring, Holds, OnlyThese, ClaimPhaseOf, LeaseGranted;
      var advanced := AdvanceTo(operation, ArtifactsVerified);
      if advanced.Err? {
        return Err(advanced.error);
      }
      if !LeaseGranted(store.Files(), inputs.op, inputs.plan.instance) {
        return Err(Conflict);
      }
      r := GiveUp(execs[inputs.op], claim, operation);
      OnlyTheseTransitive(since, s, store.Files(), inputs.op, inputs.plan.instance);
      ExpiredHeld(store.Files(), inputs, operation.core, ClaimExpired);
    }
  }

  // ----- what an interrupted application leaves -----

  function ClaimPhaseOf(s: Store, inputs: Inputs): ClaimPhase {
    var key := ClaimKey(inputs.plan.instance, inputs.op);
    if key in s.claims then s.claims[key].phase else Prepared
  }

  /** The inputs are the ones this operation and its execution were begun with, the operation has only this connector,
   *  and it owns its target. */
  ghost predicate InputsMatch(s: Store, execs: map<Token, ExecutionRecord>, host: HostState, inputs: Inputs) {
    && inputs.op in s.records
    && var core := s.records[inputs.op].core;
    && OperationMatches(core, inputs) && SoleConnector(core) && SoleInstance(core) == inputs.plan.instance
    && IsCurrent(s, core) && OwnedHere(s, core, inputs.plan.instance) && PredecessorHere(s, core)
    && FilesMatchPlan(inputs.files, inputs.plan)
    && host.tenant == inputs.plan.host.tenant && host.hostId == inputs.plan.host.hostId
    && (inputs.op in execs ==>
          IdentityMatches(execs[inputs.op].core, inputs) && FilesMatchRecord(inputs.files, inputs.plan, execs[inputs.op].core))
  }

  /** What every world of a quiet run against the cooperating Host satisfies, after a crash anywhere. */
  ghost predicate Interrupted(s: Store, h: History, execs: map<Token, ExecutionRecord>, host: HostState, op: Token) {
    && Ordered(s, h)
    && ExecsOk(execs) && ExecCoherent(execs, host, op)
    && OperationsBehind(s.records, execs) && ExecutionsBacked(s.records, execs)
    && ClaimsBehind(s.claims, execs)
  }

  ghost predicate Resumable(s: Store, h: History, execs: map<Token, ExecutionRecord>, host: HostState, inputs: Inputs) {
    && Interrupted(s, h, execs, host, inputs.op)
    && InputsMatch(s, execs, host, inputs) && inputs.plan.bundle.None?
    && (ClaimPhaseOf(s, inputs) != Released ==> PhaseRank(s.records[inputs.op].phase).Some?)
  }

  /** The execution record belongs to these inputs. */
  ghost predicate Fits(r: ExecutionRecord, inputs: Inputs) {
    && r.core.op == inputs.op && r.core.connector == inputs.plan.instance && r.core.bundle.None?
    && FilesMatchRecord(inputs.files, inputs.plan, r.core)
  }

  /** What is sent to prepare: the header kept in the record, with the files of the plan behind it the second time. */
  lemma PrepareFrames(r: ExecutionRecord, inputs: Inputs)
    requires ExecutionOk(r)
    requires FilesMatchPlan(inputs.files, inputs.plan) && FilesMatchRecord(inputs.files, inputs.plan, r.core)
    ensures var plan := inputs.plan;
      var material := Material(Some(inputs.files.config), Some(plan.enrollmentCa), Some(plan.controlCa),
                               Some(plan.issuerCa), plan, plan.handoff);
      && (TaskFrame(r, AskPrepare(false)).Ok? ==> TaskFrame(r, AskPrepare(false)) == Ok(PrepareFrame(r.prepareHeader)))
      && (TaskFrame(r, AskPrepare(true)).Ok? ==>
            TaskFrame(r, AskPrepare(true)) == Ok(PrepareFrame(r.prepareHeader.(payload := material))))
  {
  }

  lemma FinalizeFrames(r: ExecutionRecord, inputs: Inputs)
    requires ExecutionOk(r) && r.phase.ExecRunning? && r.finalizeHeader.Some?
    requires FilesMatchPlan(inputs.files, inputs.plan) && FilesMatchRecord(inputs.files, inputs.plan, r.core)
    ensures var header := r.finalizeHeader.value;
      var material := Material(None, None, None, None, inputs.plan, inputs.plan.handoff);
      && (TaskFrame(r, AskFinalize(false)).Ok? ==> TaskFrame(r, AskFinalize(false)) == Ok(FinalizeFrame(header)))
      && (TaskFrame(r, AskFinalize(true)).Ok? ==>
            TaskFrame(r, AskFinalize(true)) == Ok(FinalizeFrame(header.(payload := material))))
  {
  }

  lemma IdentityFits(r: ExecutionRecord, inputs: Inputs)
    requires IdentityMatches(r.core, inputs) && inputs.plan.bundle.None?
    requires FilesMatchRecord(inputs.files, inputs.plan, r.core)
    ensures Fits(r, inputs)
  {
  }

  lemma NewFits(inputs: Inputs, initial: Revision, ids: HostIds)
    requires inputs.plan.bundle.None?
    ensures Fits(NewRecord(inputs, initial, ids), inputs)
  {
  }

  lemma HoldsLease(s: Store, core: OperationIdentity, i: Token, claim: ClaimPhase)
    requires Holds(s, core, i, claim)
    ensures LeaseGranted(s, core.op, i)
  {
  }

  /** The claim is held and the execution, if there is one, is in step with the Host. */
  ghost predicate Loadable(s: Store, execs: map<Token, ExecutionRecord>, host: HostState, inputs: Inputs,
                           operation: OperationRecord, claim: ClaimPhase) {
    && operation.core.op == inputs.op && Holds(s, operation.core, inputs.plan.instance, claim)
    && inputs.plan.bundle.None? && FilesMatchPlan(inputs.files, inputs.plan)
    && host.tenant == inputs.plan.host.tenant && host.hostId == inputs.plan.host.hostId
    && (if inputs.op in execs then
          && ExecutionOk(execs[inputs.op]) && Coherent(execs[inputs.op], host)
          && execs[inputs.op].core.op == inputs.op
          && IdentityMatches(execs[inputs.op].core, inputs) && FilesMatchRecord(inputs.files, inputs.plan, execs[inputs.op].core)
        else ValidRevision(host.revision) && host.revision.desired + 3 <= MAX_REVISION && claim == Prepared)
  }

  /** What the claim stage leaves, as the rest of the code finds it. */
  ghost predicate Left(s: Store, execs: map<Token, ExecutionRecord>, host: HostState, inputs: Inputs,
                       operation: OperationRecord, claim: ClaimPhase) {
    && Loadable(s, execs, host, inputs, operation, claim)
    && inputs.op in s.records && s.records[inputs.op] == operation
    && (claim == Released ==>
          && inputs.op in execs && execs[inputs.op].phase.ExecFinalized?
          && (PhaseRank(operation.phase).None? || Reached(operation.phase, ArtifactsVerified)))
    && (claim != Released ==>
          && Level(s, operation, inputs.plan.instance, claim)
          && (claim == Prepared || claim == HandoffObserved) && operation.phase != Completed
          && (if inputs.op in execs then
                && !execs[inputs.op].phase.ExecExpired?
                && 3 <= PhaseRank(operation.phase).value <= PhaseRank(PhaseFor(execs[inputs.op].phase)).value
                && (claim == HandoffObserved ==> ExecutionRank(execs[inputs.op].phase) >= 1)
              else PhaseRank(operation.phase).value <= 3))
  }

  lemma LoadedProceeds(s: Store, execs: map<Token, ExecutionRecord>, host: HostState, inputs: Inputs,
                       operation: OperationRecord, claim: ClaimPhase, r: ExecutionRecord)
    requires Left(s, execs, host, inputs, operation, claim) && Fits(r, inputs)
    requires claim != Released ==> PhaseRank(operation.phase).Some? && PhaseRank(operation.phase).value >= 3
    requires if inputs.op in execs then r == execs[inputs.op] else r.phase.ExecClaimed?
    ensures !PhasesConflict(claim, r.phase)
    ensures if claim == Released then r.phase.ExecFinalized? && Holds(s, operation.core, inputs.plan.instance, Released)
            else Behind(s, operation, r, claim) && !r.phase.ExecExpired?
    ensures FilesMatchPlan(inputs.files, inputs.plan) && operation.core.op == inputs.op
    ensures inputs.op in s.records && s.records[inputs.op] == operation
  {
    hide ExecutionOk, Coherent, IdentityMatches, FilesMatchPlan, FilesMatchRecord, Holds;
  }

  lemma AbreastDone(s: Store, operation: OperationRecord, r: ExecutionRecord)
    requires Abreast(s, operation, r) && r.phase.ExecFinalized?
    ensures Holds(s, operation.core, r.core.connector, Released)
    ensures operation.core.op in s.records && s.records[operation.core.op].phase == Completed
  {
  }

  lemma RaisedLeft(s: Store, s': Store, execs: map<Token, ExecutionRecord>, host: HostState, inputs: Inputs,
                   operation: OperationRecord, raised: OperationRecord, claim: ClaimPhase)
    requires Left(s, execs, host, inputs, operation, claim) && claim != Released
    requires Level(s', raised, inputs.plan.instance, claim) && raised.core == operation.core
    requires raised.phase == if Reached(operation.phase, ArtifactsVerified) then operation.phase else ArtifactsVerified
    ensures Left(s', execs, host, inputs, raised, claim)
    ensures PhaseRank(raised.phase).Some? && PhaseRank(raised.phase).value >= 3
  {
    hide ExecutionOk, Coherent, IdentityMatches, FilesMatchPlan, FilesMatchRecord;
  }

  lemma CompletedClaim(s: Store, inputs: Inputs, core: OperationIdentity)
    requires Holds(s, core, inputs.plan.instance, Released) && core.op == inputs.op
    ensures ClaimPhaseOf(s, inputs) == Released
  {
  }

  /** The phase found and the execution fit together, whatever was interrupted. */
  lemma ClaimFits(s: Store, execs: map<Token, ExecutionRecord>, host: HostState, inputs: Inputs)
    requires ClaimsBehind(s.claims, execs) && ExecCoherent(execs, host, inputs.op)
    ensures var claim := ClaimPhaseOf(s, inputs);
      && claim != ClaimExpired
      && (claim != Prepared ==> inputs.op in execs)
      && (claim == Released ==> execs[inputs.op].phase.ExecFinalized?)
      && (claim == HandoffObserved ==> ExecutionRank(execs[inputs.op].phase) >= 1)
  {
    var key := ClaimKey(inputs.plan.instance, inputs.op);
    if key in s.claims {
      assert ClaimBacked(s.claims[key].phase, execs, key);
    }
  }

  lemma PhaseFits(operation: OperationRecord, execs: map<Token, ExecutionRecord>, op: Token)
    requires ValidRecord(operation) && operation.core.binding.workload.ConnectorHost?
    requires PhaseBacked(operation.lastProven, execs, op)
    requires op in execs ==> ProvenRank(operation.lastProven) >= 3 && !execs[op].phase.ExecExpired?
    ensures PhaseRank(operation.phase).Some? ==> operation.phase == operation.lastProven && operation.failure.None?
    ensures PhaseRank(operation.phase).Some? && op in execs ==>
      3 <= PhaseRank(operation.phase).value <= PhaseRank(PhaseFor(execs[op].phase)).value
    ensures PhaseRank(operation.phase).Some? && op !in execs ==> PhaseRank(operation.phase).value <= 3
  {
    hide ValidIdentity;
  }

  lemma CompletedReleased(s: Store, h: History, op: Token, i: Token)
    requires Ordered(s, h) && op in s.records && s.records[op].phase == Completed && Binds(s.records[op].core, i)
    ensures ClaimKey(i, op) in s.claims && s.claims[ClaimKey(i, op)].phase == Released
  {
    hide Consistent, Rooted, NoRepeats, AllSettledBehind, ConnectorsOrdered, Binds;
    assert ReleasedFor(s, op, i);
  }

  lemma SoleBound(core: OperationIdentity)
    requires SoleConnector(core)
    ensures Binds(core, SoleInstance(core))
  {
    assert Connectors(core.binding.workload)[0].instance == SoleInstance(core);
  }

  lemma LeavesLoadable(s: Store, h: History, execs: map<Token, ExecutionRecord>, host: HostState, inputs: Inputs,
                       s': Store,
                       operation: OperationRecord, claim: ClaimPhase)
    requires Resumable(s, h, execs, host, inputs)
    requires operation == s.records[inputs.op] && operation.core.op == inputs.op && claim == ClaimPhaseOf(s, inputs)
    requires claim != Prepared ==> inputs.op in execs
    requires Holds(s', operation.core, inputs.plan.instance, claim)
    ensures Loadable(s', execs, host, inputs, operation, claim)
  {
    hide Ordered, ClaimsBehind, OperationsBehind, ExecutionsBacked, IsCurrent, OwnedHere, OperationMatches;
    hide IdentityMatches, Holds;
    hide FilesMatchPlan, FilesMatchRecord, Coherent, ExecutionOk;
  }

  lemma Leaves(s: Store, h: History, execs: map<Token, ExecutionRecord>, host: HostState, inputs: Inputs, s': Store,
               operation: OperationRecord, claim: ClaimPhase)
    requires Resumable(s, h, execs, host, inputs)
    requires inputs.op in s.records && operation == s.records[inputs.op] && s'.records == s.records
    requires claim == ClaimPhaseOf(s, inputs)
    requires Holds(s', operation.core, inputs.plan.instance, claim)
    ensures Left(s', execs, host, inputs, operation, claim)
  {
    hide Resumable, Holds, Loadable, Forward, ValidRecord;
    ResumableFacts(s, h, execs, host, inputs);
    LeavesLoadable(s, h, execs, host, inputs, s', operation, claim);
    PhaseFits(operation, execs, inputs.op);
    if PhaseRank(operation.phase).Some? {
      ForwardAgain(s', operation);
    }
  }

  lemma ForwardAgain(s: Store, operation: OperationRecord)
    requires operation.core.op in s.records && s.records[operation.core.op] == operation && ValidRecord(operation)
    requires operation.core.binding.workload.ConnectorHost? && operation.phase == operation.lastProven
    requires operation.failure.None?
    requires PhaseRank(operation.phase).Some?
    ensures Forward(s, operation)
  {
  }

  /** The facts about operation and claim that an interrupted application leaves. */
  lemma ResumableFacts(s: Store, h: History, execs: map<Token, ExecutionRecord>, host: HostState, inputs: Inputs)
    requires Resumable(s, h, execs, host, inputs)
    ensures inputs.op in s.records
    ensures var r := s.records[inputs.op]; var claim := ClaimPhaseOf(s, inputs);
      && r.core.op == inputs.op && ValidRecord(r)
      && SoleConnector(r.core) && SoleInstance(r.core) == inputs.plan.instance
      && PhaseBacked(r.lastProven, execs, inputs.op)
      && (inputs.op in execs ==> ProvenRank(r.lastProven) >= 3 && !execs[inputs.op].phase.ExecExpired?)
      && (claim != Released ==> PhaseRank(r.phase).Some?)
      && (r.phase == Completed ==> claim == Released)
      && claim != ClaimExpired
      && (claim != Prepared ==> inputs.op in execs)
      && (claim == Released ==> execs[inputs.op].phase.ExecFinalized?)
      && (claim == HandoffObserved ==> ExecutionRank(execs[inputs.op].phase) >= 1)
  {
    OrderedRecord(s, h, inputs.op);
    hide Ordered, ClaimsBehind, IsCurrent, OwnedHere, IdentityMatches, FilesMatchPlan, FilesMatchRecord, ExecsOk;
    hide PhaseBacked, ValidRecord;
    ClaimFits(s, execs, host, inputs);
    CoherentLives(execs, host, inputs.op);
    hide Coherent, ExecCoherent;
    SoleBound(s.records[inputs.op].core);
    if s.records[inputs.op].phase == Completed {
      CompletedReleased(s, h, inputs.op, inputs.plan.instance);
    }
  }

  lemma CoherentLives(execs: map<Token, ExecutionRecord>, host: HostState, op: Token)
    requires ExecCoherent(execs, host, op)
    ensures op in execs ==> !execs[op].phase.ExecExpired?
  {
  }

  /** The claim the operation prepares is admitted. */
  lemma Stranded(s: Store, h: History, execs: map<Token, ExecutionRecord>, host: HostState, inputs: Inputs)
    returns (claim: ClaimIdentity)
    requires Ordered(s, h) && InputsMatch(s, execs, host, inputs)
    ensures Prepares(s, s.records[inputs.op].core, inputs.plan.instance, claim)
    ensures ConnectorAllowed(s, claim, inputs.plan.host) && !ForeignClaim(s, claim)
    ensures claim.op == inputs.op && claim.instance == inputs.plan.instance && s.records[inputs.op].core.op == inputs.op
  {
    var core := s.records[inputs.op].core;
    OrderedRecord(s, h, inputs.op);
    assert Connectors(core.binding.workload)[0].instance == inputs.plan.instance;
    hide Ordered, Prepares, ConnectorAllowed, ForeignClaim, IsCurrent, IdentityMatches, FilesMatchPlan, FilesMatchRecord;
    claim := ConnectorClaimable(s, h, core, inputs.plan.instance);
    PreparedIs(s, core, inputs.plan.instance, claim);
  }

  lemma OrderedRecord(s: Store, h: History, op: Token)
    requires Ordered(s, h) && op in s.records
    ensures s.records[op].core.op == op && ValidRecord(s.records[op])
  {
    hide OwnersValid, HistoryCurrent, Chained, UnownedPlanned, ClaimsValid, Rooted, NoRepeats, AllSettledBehind;
    hide ConnectorsOrdered, TerminalClaims;
  }

  /** An operation that owns its target and has a claim of the connector owns the connector. */
  lemma ClaimantOwns(s: Store, h: History, core: OperationIdentity, i: Token, claim: ClaimIdentity)
    requires Ordered(s, h) && core.op in s.records && s.records[core.op].core == core && IsCurrent(s, core)
    requires OwnedHere(s, core, i) && PredecessorHere(s, core)
    requires ClaimKey(i, core.op) in s.claims && Canonical(s.records, core.op, i, claim)
    ensures i in s.connOwners && s.connOwners[i] == ConnectorOwnershipOf(claim)
  {
    hide Settled, TerminalClaims, UnownedPlanned, ReissueOf, Binds, NoRepeat, Increasing, BindersOf, MatchesParent;
    hide ConnectorPredecessor, ValidRecord;
    CurrentIsNewest(s, h, core);
    var chain := TargetHistory(h, FenceOf(core));
    var key := ClaimKey(i, core.op);
    assert key.op in ConnectorHistory(h, key.instance);
    assert i in h.connectors;
    assert ConnectorOrdered(s, h, i);
    if s.connOwners[i].current != core.op {
      var k := PlaceOf(s, h, core, i);
      OwnerIsLatestClaimant(s, h, i, core.op, chain, |chain| - 1, k);
    }
    OwnerCanonical(s, i);
    CanonicalUnique(s.records, core.op, i, claim, s.connOwners[i].identity);
  }

  lemma ClaimedHolds(s: Store, claim: ClaimIdentity)
    requires ClaimAdmitted(s, claim) && !ForeignClaim(s, claim) && s.records[claim.op].core.op == claim.op
    ensures var t := ConnectorAfter(s, claim);
      && Holds(t, s.records[claim.op].core, claim.instance, HeldClaim(s, claim).phase)
      && OnlyThese(s, t, claim.op, claim.instance) && t.records == s.records
  {
    hide MatchesParent, ConnectorPredecessor;
  }

  lemma ClaimedAgain(s: Store, claim: ClaimIdentity)
    requires ClaimKey(claim.instance, claim.op) in s.claims && !ForeignClaim(s, claim)
    requires claim.instance in s.connOwners && s.connOwners[claim.instance] == ConnectorOwnershipOf(claim)
    ensures ConnectorAfter(s, claim) == s
  {
    var key := ClaimKey(claim.instance, claim.op);
    assert s.claims[key := s.claims[key]] == s.claims;
    assert s.connOwners[claim.instance := ConnectorOwnershipOf(claim)] == s.connOwners;
  }

  lemma AdmittedIs(s: Store, claim: ClaimIdentity)
    requires RecordsValid(s) && ClaimAdmitted(s, claim)
    ensures IsCurrent(s, s.records[claim.op].core) && Canonical(s.records, claim.op, claim.instance, claim)
    ensures s.records[claim.op].core.op == claim.op
  {
  }

  lemma ClaimHeld(s: Store, h: History, claim: ClaimIdentity, inputs: Inputs)
    requires Ordered(s, h) && ConnectorAllowed(s, claim, inputs.plan.host) && !ForeignClaim(s, claim)
    requires claim.op == inputs.op && claim.instance == inputs.plan.instance
    requires OwnedHere(s, s.records[claim.op].core, claim.instance)
    ensures var t := ConnectorAfter(s, claim);
      && Holds(t, s.records[claim.op].core, claim.instance, HeldClaim(s, claim).phase)
      && OnlyThese(s, t, claim.op, claim.instance) && t.records == s.records
      && HeldClaim(s, claim).phase == ClaimPhaseOf(s, inputs)
      && (ClaimKey(claim.instance, claim.op) in s.claims ==> t == s)
  {
    OpenIsAdmitted(s, claim);
    hide ConnectorOpen, ClaimAdmitted, OwnersValid, HistoryCurrent, Chained, UnownedPlanned, ClaimsValid, Rooted;
    hide NoRepeats, AllSettledBehind;
    hide ConnectorsOrdered, TerminalClaims, RecordsValid, Holds, OnlyThese, IsCurrent, Canonical, ConnectorAfter;
    AdmittedIs(s, claim);
    ClaimedHolds(s, claim);
    if ClaimKey(claim.instance, claim.op) in s.claims {
      PredecessorNeeded(s, s.records[claim.op].core, claim.instance, claim);
      ClaimantOwns(s, h, s.records[claim.op].core, claim.instance, claim);
      ClaimedAgain(s, claim);
    }
  }

  lemma SealHeader(r: ExecutionRecord)
    requires ExecutionOk(r) && r.phase.ExecRunning?
    ensures r.runningRevision.Some?
    ensures HeaderFor(r.core, r.prepareResult, FinalizeMaterial, r.runningRevision.value, NoPayload).Ok?
  {
  }

  lemma SealCoherent(r: ExecutionRecord, header: Header, h: HostState)
    requires Coherent(r, h)
    ensures Coherent(r.(finalizeHeader := Some(header)), h)
  {
  }

  lemma StartPersisted(r: ExecutionRecord, revision: Revision)
    requires ExecutionOk(r) && r.phase.ExecPrepared? && NextRevision(r.prepareResult.value.revision, revision)
    ensures ExecutionOk(r.(startRevision := Some(revision), phase := ExecStarted))
  {
  }

  lemma RunPersisted(r: ExecutionRecord)
    requires ExecutionOk(r) && r.phase.ExecStarted?
    ensures ExecutionOk(r.(runningRevision := r.startRevision, phase := ExecRunning))
  {
  }

  /** A crash anywhere, in any run of applications of the operation against the cooperating Host, leaves what `Apply`
   *  resumes from. */
  lemma CrashLeavesInterrupted(run: seq<CoopWorld>, op: Token, k: nat)
    requires CoopRun(run, op) && k < |run|
    ensures Interrupted(run[k].w.files.store, run[k].w.files.history, run[k].w.files.execs, run[k].host, op)
  {
    hide CoopRun, Ordered, ExecsOk, ExecCoherent, OperationsBehind, ExecutionsBacked, ClaimsBehind, LeasesApart;
    hide ApplyKnows, CopyKnown;
    CoopRunOk(run, op);
    assert CoopOk(run[k], op);
  }

  // ----- expiry -----

  /** The operation is where an expiry finds it, with its claim not given up or given up already. */
  ghost predicate Expiring(s: Store, operation: OperationRecord, i: Token, claim: ClaimPhase) {
    && Level(s, operation, i, claim) && operation.phase == ArtifactsVerified && (claim == Prepared || claim == ClaimExpired)
  }

  lemma ExpiryMoves(s: Store, operation: OperationRecord, i: Token, claim: ClaimPhase)
    requires Expiring(s, operation, i, claim)
    ensures claim == Prepared ==>
      && Enabled(s, UpdateClaim(i, ExpireClaim))
      && After(s, UpdateClaim(i, ExpireClaim)) == ClaimSet(s, operation.core.op, i, ClaimExpired)
    ensures claim == ClaimExpired ==> s == ClaimSet(s, operation.core.op, i, ClaimExpired)
    ensures var t := ClaimSet(s, operation.core.op, i, ClaimExpired); var w := UpdateRecord(operation.core.op, Expire(i));
      && Enabled(t, w) && !ExpiryRecorded(t, operation.core.op, Expire(i))
      && Holds(After(t, w), operation.core, i, ClaimExpired)
      && OnlyThese(s, After(t, w), operation.core.op, i)
      && operation.core.op in After(t, w).records && After(t, w).records[operation.core.op].phase == ExpiredUnclaimed
  {
    ClaimMoves(s, operation.core, i, claim, ExpireClaim);
    var t := ClaimSet(s, operation.core.op, i, ClaimExpired);
    ExpireEnabled(t, operation, i);
  }

  lemma ExpireEnabled(t: Store, operation: OperationRecord, i: Token)
    requires Forward(t, operation) && operation.phase == ArtifactsVerified && Holds(t, operation.core, i, ClaimExpired)
    requires SoleConnector(operation.core) && SoleInstance(operation.core) == i
    ensures var w := UpdateRecord(operation.core.op, Expire(i));
      && Enabled(t, w) && !ExpiryRecorded(t, operation.core.op, Expire(i))
      && Holds(After(t, w), operation.core, i, ClaimExpired)
      && OnlyThese(t, After(t, w), operation.core.op, i)
      && operation.core.op in After(t, w).records && After(t, w).records[operation.core.op].phase == ExpiredUnclaimed
  {
    hide ValidIdentity;
  }

  /** What every world of a fitting run satisfies once the execution has expired, after a crash anywhere. */
  ghost predicate InterruptedExpiry(s: Store, h: History, execs: map<Token, ExecutionRecord>, op: Token) {
    && Ordered(s, h)
    && op in execs && execs[op].phase.ExecExpired?
    && OperationsBehind(s.records, execs) && ExecutionsBacked(s.records, execs) && ClaimsBehind(s.claims, execs)
  }

  /** A crash anywhere, whatever the Host replied, leaves what `ApplyExpired` finishes. */
  lemma CrashLeavesExpiry(run: seq<ApplyWorld>, k: nat, op: Token)
    requires FittingRun(run) && k < |run| && op in run[k].files.execs && run[k].files.execs[op].phase.ExecExpired?
    ensures InterruptedExpiry(run[k].files.store, run[k].files.history, run[k].files.execs, op)
  {
    hide ApplyRun, StepFits, Ordered, ExecsOk, OperationsBehind, ExecutionsBacked, ClaimsBehind, LeasesApart;
    hide ApplyKnows, CopyKnown, HandoverKnown;
    FittingRunOk(run);
    RunKeepsLag(run);
    assert ApplyOk(run[k]) && LagOk(run[k]) && HandoverOk(run[k]);
  }

  ghost predicate Expirable(s: Store, h: History, execs: map<Token, ExecutionRecord>, host: HostState, inputs: Inputs) {
    && InterruptedExpiry(s, h, execs, inputs.op) && InputsMatch(s, execs, host, inputs)
    && (PhaseRank(s.records[inputs.op].phase).Some? || s.records[inputs.op].phase == ExpiredUnclaimed)
  }

  /** An expired execution with the operation and the claim that go with it. */
  ghost predicate ExpiryFound(s: Store, r: ExecutionRecord, inputs: Inputs, operation: OperationRecord,
                              claim: ClaimPhase) {
    && r.phase.ExecExpired? && r.core.op == inputs.op && r.core.connector == inputs.plan.instance
    && inputs.op in s.records && s.records[inputs.op] == operation
    && Holds(s, operation.core, inputs.plan.instance, claim)
    && OperationExpires(operation, inputs, claim)
  }

  ghost predicate OperationExpires(r: OperationRecord, inputs: Inputs, claim: ClaimPhase) {
    && r.core.op == inputs.op && ValidRecord(r) && r.core.binding.workload.ConnectorHost?
    && SoleConnector(r.core) && SoleInstance(r.core) == inputs.plan.instance
    && (claim == Prepared || claim == ClaimExpired)
    && (r.phase == ExpiredUnclaimed ==> claim == ClaimExpired)
    && (r.phase != ExpiredUnclaimed ==> r.phase == r.lastProven == ArtifactsVerified && r.failure.None?)
  }

  lemma ExpiryIsExpiring(s: Store, r: ExecutionRecord, inputs: Inputs, operation: OperationRecord, claim: ClaimPhase)
    requires ExpiryFound(s, r, inputs, operation, claim)
    ensures operation.core.op == inputs.op
    ensures operation.phase == ExpiredUnclaimed || operation.phase == ArtifactsVerified
    ensures operation.phase == ExpiredUnclaimed ==> claim == ClaimExpired
    ensures operation.phase == ArtifactsVerified ==> Expiring(s, operation, inputs.plan.instance, claim)
    ensures r.core.op == inputs.op && r.core.connector == inputs.plan.instance
    ensures Holds(s, operation.core, inputs.plan.instance, claim)
    ensures inputs.op in s.records && s.records[inputs.op] == operation
  {
  }

  lemma ExpiredPhase(r: OperationRecord, execs: map<Token, ExecutionRecord>, op: Token)
    requires ValidRecord(r) && r.core.binding.workload.ConnectorHost? && PhaseBacked(r.lastProven, execs, op)
    requires op in execs && execs[op].phase.ExecExpired? && ProvenRank(r.lastProven) >= 3
    requires PhaseRank(r.phase).Some? || r.phase == ExpiredUnclaimed
    ensures r.phase != ExpiredUnclaimed ==> r.phase == r.lastProven == ArtifactsVerified && r.failure.None?
  {
    hide ValidIdentity;
  }

  lemma ExpiredClaim(s: Store, execs: map<Token, ExecutionRecord>, inputs: Inputs)
    requires ClaimsBehind(s.claims, execs) && inputs.op in execs && execs[inputs.op].phase.ExecExpired?
    ensures ClaimPhaseOf(s, inputs) == Prepared || ClaimPhaseOf(s, inputs) == ClaimExpired
  {
    var key := ClaimKey(inputs.plan.instance, inputs.op);
    assert key in s.claims ==> ClaimBacked(s.claims[key].phase, execs, key);
  }

  lemma ExpirableFacts(s: Store, h: History, execs: map<Token, ExecutionRecord>, host: HostState, inputs: Inputs)
    requires Expirable(s, h, execs, host, inputs)
    ensures Ordered(s, h) && InputsMatch(s, execs, host, inputs)
    ensures inputs.op in s.records && inputs.op in execs && execs[inputs.op].phase.ExecExpired?
    ensures execs[inputs.op].core.op == inputs.op && execs[inputs.op].core.connector == inputs.plan.instance
    ensures OperationExpires(s.records[inputs.op], inputs, ClaimPhaseOf(s, inputs))
    ensures s.records[inputs.op].phase == ExpiredUnclaimed ==> ClaimKey(inputs.plan.instance, inputs.op) in s.claims
  {
    OrderedRecord(s, h, inputs.op);
    hide Ordered, IsCurrent, OwnedHere, OperationMatches, FilesMatchPlan, FilesMatchRecord, ClaimsBehind, PhaseBacked;
    hide ValidRecord;
    var r := s.records[inputs.op];
    assert PhaseBacked(r.lastProven, execs, inputs.op);
    assert ProvenRank(r.lastProven) >= 3;
    ExpiredPhase(r, execs, inputs.op);
    ExpiredClaim(s, execs, inputs);
    if r.phase == ExpiredUnclaimed {
      ExpiredGaveUp(s, h, inputs.op);
    }
  }

  lemma ExpiredGaveUp(s: Store, h: History, op: Token)
    requires Ordered(s, h) && op in s.records && s.records[op].phase == ExpiredUnclaimed
    ensures SoleConnector(s.records[op].core)
    ensures ClaimKey(SoleInstance(s.records[op].core), op) in s.claims
    ensures s.claims[ClaimKey(SoleInstance(s.records[op].core), op)].phase == ClaimExpired
  {
    hide Consistent, Rooted, NoRepeats, AllSettledBehind, ConnectorsOrdered;
  }

  lemma ExpiredHeld(s: Store, inputs: Inputs, core: OperationIdentity, claim: ClaimPhase)
    requires Holds(s, core, inputs.plan.instance, claim) && core.op == inputs.op
    ensures ClaimPhaseOf(s, inputs) == claim
  {
  }
}
