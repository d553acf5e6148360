/** The file-at-a-time calls refine the enabled writes.
 *
 * `PcOk` is what a process knows where it stands: checks that still hold because of the locks it
 * holds.  A process never makes a write that is not enabled at that moment (`StepRefines`), and no
 * process disturbs what another has locked (`WriteGuards`, and `KnowledgeStable` in Interference).
 */
module StepProofs {
  import opened Domain
  import opened Records
  import opened StateActions
  import opened StateInvariants
  import opened StateProofs
  import opened StepMachine

  // ----- what a process knows -----

  ghost predicate FenceRecorded(s: Store, op: Token, fence: Fence) {
    op in s.records && FenceOf(s.records[op].core) == fence
  }

  ghost predicate Fresh(s: Store, core: OperationIdentity) {
    core.op !in s.records && !NamedElsewhere(s, core)
  }

  ghost predicate ExistingOk(s: Store, core: OperationIdentity, existing: Option<OperationRecord>) {
    match existing
    case None => Fresh(s, core)
    case Some(r) => core.op in s.records && s.records[core.op].core == core
  }

  /** Entries read, or listed before the scan began, that are not the fence of this operation, name another. */
  ghost predicate ScanOk(s: Store, core: OperationIdentity, listed: set<Fence>, seen: set<Fence>) {
    && core.op !in s.records
    && forall g :: g in s.owners && g != FenceOf(core) && (g in seen || g !in listed) ==> s.owners[g].current != core.op
  }

  ghost predicate SucceedsOwner(s: Store, core: OperationIdentity, current: TargetOwnership) {
    && FenceOf(core) in s.owners && s.owners[FenceOf(core)] == current
    && current.current != core.op
    && current.target == core.target && current.host == core.binding.host
    && core.predecessor == Some(current.current)
  }

  ghost predicate ExpiredPrior(s: Store, core: OperationIdentity, prior: OperationRecord) {
    && FenceOf(core) in s.owners
    && SucceedsOwner(s, core, s.owners[FenceOf(core)])
    && core.predecessor.value in s.records && s.records[core.predecessor.value] == prior
    && prior.core.op == core.predecessor.value
    && prior.core == s.owners[FenceOf(core)].identity
    && prior.phase == ExpiredUnclaimed && ReissueOf(prior.core, core)
  }

  ghost predicate CurrentRecord(s: Store, fence: Fence, record: OperationRecord) {
    && FenceRecorded(s, record.core.op, fence)
    && s.records[record.core.op] == record
  }

  ghost predicate OwningRecord(s: Store, fence: Fence, record: OperationRecord) {
    CurrentRecord(s, fence, record) && IsCurrent(s, record.core)
  }

  ghost predicate Completing(s: Store, change: Change, fence: Fence, record: OperationRecord, verified: nat) {
    && OwningRecord(s, fence, record)
    && Changed(record, change).Ok? && ValidRecord(Changed(record, change).value)
    && !change.Expire?
    && verified <= |Connectors(record.core.binding.workload)|
    && (forall k :: 0 <= k < verified ==> ConnectorDone(s, record.core.op, Connectors(record.core.binding.workload)[k].instance))
  }

  ghost predicate AdmittedParent(s: Store, claim: ClaimIdentity, fence: Fence) {
    FenceRecorded(s, claim.op, fence) && MatchesParent(claim, s.records[claim.op].core)
  }

  ghost predicate ParentCurrent(s: Store, claim: ClaimIdentity, fence: Fence, parent: OperationIdentity) {
    AdmittedParent(s, claim, fence) && s.records[claim.op].core == parent && IsCurrent(s, parent)
  }

  ghost predicate Admitted(s: Store, claim: ClaimIdentity, fence: Fence) {
    FenceRecorded(s, claim.op, fence) && ClaimAdmitted(s, claim)
  }

  ghost predicate Follows(s: Store, claim: ClaimIdentity, owner: ConnectorOwnership) {
    && claim.instance in s.connOwners && s.connOwners[claim.instance] == owner
    && owner.current != claim.op && owner.instance == claim.instance
    && (claim.predecessor.Some? ==> claim.predecessor.value == owner.current)
  }

  ghost predicate HandoffParent(s: Store, fence: Fence, parent: OperationIdentity) {
    FenceRecorded(s, parent.op, fence) && s.records[parent.op].core == parent
  }

  ghost predicate ClaimOk(pc: ClaimPc, s: Store) {
    match pc
    case ClaimLockId(core) => ValidIdentity(core)
    case ClaimRead(core) => ValidIdentity(core)
    case ClaimList(core) => ValidIdentity(core) && core.op !in s.records
    case ClaimScan(core, listed, seen, _) => ValidIdentity(core) && ScanOk(s, core, listed, seen)
    case ClaimLockTarget(core, existing) => ValidIdentity(core) && ExistingOk(s, core, existing)
    case ClaimReadOwner(core, existing) => ValidIdentity(core) && ExistingOk(s, core, existing)
    case ClaimReadPredecessor(core, existing, current) =>
      ValidIdentity(core) && ExistingOk(s, core, existing) && SucceedsOwner(s, core, current)
    case ClaimReadExpired(core, existing, prior) =>
      ValidIdentity(core) && ExistingOk(s, core, existing) && ExpiredPrior(s, core, prior)
    case ClaimWriteRecord(core) => Enabled(s, CreateRecord(core))
    case ClaimWriteOwner(core, _) => Enabled(s, PublishOwner(core))
  }

  ghost predicate ChangeOk(pc: ChangePc, s: Store) {
    match pc
    case ChangeRead(_, _) => true
    case ChangeLock(op, _, fence) => FenceRecorded(s, op, fence)
    case ChangeReread(op, _, fence) => FenceRecorded(s, op, fence)
    case ChangeReadOwner(_, fence, record) => CurrentRecord(s, fence, record)
    case ChangeReadClaim(_, fence, record) => OwningRecord(s, fence, record)
    case ChangeVerifyOwner(change, fence, record, verified) => Completing(s, change, fence, record, verified)
    case ChangeVerifyClaim(change, fence, record, verified, owner) =>
      && Completing(s, change, fence, record, verified)
      && verified < |Connectors(record.core.binding.workload)|
      && var i := Connectors(record.core.binding.workload)[verified].instance;
      && (owner.current == record.core.op ==> i in s.connOwners && s.connOwners[i] == owner)
    case ChangeWrite(change, fence, record) =>
      OwningRecord(s, fence, record) && Enabled(s, UpdateRecord(record.core.op, change))
  }

  ghost predicate ConnectorOk(pc: ConnectorPc, s: Store) {
    match pc
    case ConnectorReadParent(claim, _) => true
    case ConnectorLockTarget(claim, fence) => AdmittedParent(s, claim, fence)
    case ConnectorReread(claim, fence) => AdmittedParent(s, claim, fence)
    case ConnectorReadTarget(claim, fence, parent) =>
      AdmittedParent(s, claim, fence) && s.records[claim.op].core == parent
    case ConnectorLockInstance(claim, fence, parent) => ParentCurrent(s, claim, fence, parent)
    case ConnectorReadPredecessor(claim, fence, parent) => ParentCurrent(s, claim, fence, parent)
    case ConnectorReadOwner(claim, fence, parent) =>
      ParentCurrent(s, claim, fence, parent) && Admitted(s, claim, fence)
    case ConnectorReadPrior(claim, fence, parent, owner) =>
      ParentCurrent(s, claim, fence, parent) && Admitted(s, claim, fence) && Follows(s, claim, owner)
    case ConnectorReadPriorParent(claim, fence, parent, owner, prior) =>
      && ParentCurrent(s, claim, fence, parent) && Admitted(s, claim, fence) && Follows(s, claim, owner)
      && ClaimKey(claim.instance, owner.current) in s.claims
      && s.claims[ClaimKey(claim.instance, owner.current)] == prior
    case ConnectorWriteOwner(claim, fence) => Admitted(s, claim, fence) && Enabled(s, PublishConnectorOwner(claim))
    case ConnectorReadClaim(claim, fence) =>
      && Admitted(s, claim, fence)
      && claim.instance in s.connOwners && s.connOwners[claim.instance] == ConnectorOwnershipOf(claim)
    case ConnectorWriteClaim(claim, fence) => Admitted(s, claim, fence) && Enabled(s, CreateClaim(claim))
  }

  ghost predicate HandoffOk(pc: HandoffPc, s: Store) {
    match pc
    case HandoffReadOwner(_, _) => true
    case HandoffReadClaim(_, _, _) => true
    case HandoffReadParent(_, _, _) => true
    case HandoffLockTarget(_, _, op, fence) => FenceRecorded(s, op, fence)
    case HandoffReread(_, _, op, fence) => FenceRecorded(s, op, fence)
    case HandoffReadTarget(_, _, fence, parent) => HandoffParent(s, fence, parent)
    case HandoffLockInstance(_, _, fence, parent) => HandoffParent(s, fence, parent) && IsCurrent(s, parent)
    case HandoffReadOwnerAgain(_, _, fence, parent) => HandoffParent(s, fence, parent) && IsCurrent(s, parent)
    case HandoffReadClaimAgain(i, _, fence, parent, owner) =>
      HandoffParent(s, fence, parent) && IsCurrent(s, parent) && i in s.connOwners && s.connOwners[i] == owner
    case HandoffWrite(i, move, fence, held) =>
      && FenceRecorded(s, held.core.op, fence)
      && held.core.instance == i
      && Enabled(s, UpdateClaim(i, move))
      && s.connOwners[i].current == held.core.op
      && s.claims[ClaimKey(i, held.core.op)] == held
  }

  ghost predicate PcOk(pc: Pc, s: Store) {
    match pc
    case Done(_) => true
    case Claiming(c) => ClaimOk(c, s)
    case Changing(c) => ChangeOk(c, s)
    case Connecting(c) => ConnectorOk(c, s)
    case Handing(c) => HandoffOk(c, s)
  }

  /** The write a process is about to make. */
  function WriteOf(pc: Pc): Option<Write> {
    match pc
    case Claiming(ClaimWriteRecord(core)) => Some(CreateRecord(core))
    case Claiming(ClaimWriteOwner(core, _)) => Some(PublishOwner(core))
    case Changing(ChangeWrite(change, _, record)) => Some(UpdateRecord(record.core.op, change))
    case Connecting(ConnectorWriteOwner(claim, _)) => Some(PublishConnectorOwner(claim))
    case Connecting(ConnectorWriteClaim(claim, _)) => Some(CreateClaim(claim))
    case Handing(HandoffWrite(i, move, _, _)) => Some(UpdateClaim(i, move))
    case _ => None
  }

  // ----- refinement -----

  ghost predicate ClaimMoveOk(m: Move<ClaimPc>, s: Store) { m.effect.NoEffect? && (m.Stay? ==> ClaimOk(m.next, s)) }

  ghost predicate ChangeMoveOk(m: Move<ChangePc>, s: Store) { m.effect.NoEffect? && (m.Stay? ==> ChangeOk(m.next, s)) }

  ghost predicate ConnectorMoveOk(m: Move<ConnectorPc>,
                                  s: Store) { m.effect.NoEffect? && (m.Stay? ==> ConnectorOk(m.next, s)) }

  ghost predicate HandoffMoveOk(m: Move<HandoffPc>, s: Store) { m.effect.NoEffect? && (m.Stay? ==> HandoffOk(m.next, s)) }

  lemma ClaimAcceptedOk(s: Store, core: OperationIdentity, existing: Option<OperationRecord>)
    requires ValidIdentity(core) && ExistingOk(s, core, existing) && CanOwn(s, core)
    ensures ClaimMoveOk(ClaimAccepted(core, existing), s)
  {
    hide CanOwn, ValidIdentity;
  }

  lemma ScanStepOk(pc: ClaimPc, s: Store, pick: Fence)
    requires pc.ClaimScan? && ClaimOk(pc, s)
    ensures ClaimMoveOk(ScanStep(pc, s, pick), s)
  {
    hide ValidIdentity;
  }

  lemma ReadOwnerOk(pc: ClaimPc, s: Store, free: bool, pick: Fence)
    requires pc.ClaimReadOwner? && ClaimOk(pc, s)
    ensures ClaimMoveOk(ClaimStep(pc, s, free, pick), s)
  {
    if CanOwn(s, pc.core) { ClaimAcceptedOk(s, pc.core, pc.existing); }
    hide ValidIdentity, ExistingOk;
  }

  lemma ReadPredecessorOk(pc: ClaimPc, s: Store, free: bool, pick: Fence)
    requires pc.ClaimReadPredecessor? && ClaimOk(pc, s) && RecordsValid(s)
    ensures ClaimMoveOk(ClaimStep(pc, s, free, pick), s)
  {
    if CanOwn(s, pc.core) { ClaimAcceptedOk(s, pc.core, pc.existing); }
    hide ValidIdentity, ExistingOk, ValidRecord, ReissueOf;
  }

  lemma ReadExpiredOk(pc: ClaimPc, s: Store, free: bool, pick: Fence)
    requires pc.ClaimReadExpired? && ClaimOk(pc, s)
    ensures ClaimMoveOk(ClaimStep(pc, s, free, pick), s)
  {
    if CanOwn(s, pc.core) { ClaimAcceptedOk(s, pc.core, pc.existing); }
    hide ValidIdentity, ExistingOk;
  }

  lemma ClaimStepOk(pc: ClaimPc, s: Store, free: bool, pick: Fence)
    requires WriteOf(Claiming(pc)).None? && ClaimOk(pc, s) && RecordsValid(s)
    ensures ClaimMoveOk(ClaimStep(pc, s, free, pick), s)
  {
    hide ScanStep, CanOwn, ExpiredPrior, ValidRecord, ValidIdentity, NamedElsewhere;
    match pc
    case ClaimScan(_, _, _, _) => ScanStepOk(pc, s, pick);
    case ClaimReadOwner(core, existing) => ReadOwnerOk(pc, s, free, pick);
    case ClaimReadPredecessor(_, _, _) => ReadPredecessorOk(pc, s, free, pick);
    case ClaimReadExpired(_, _, _) => ReadExpiredOk(pc, s, free, pick);
    case _ =>
  }

  lemma ChangeAcceptedOk(s: Store, change: Change, fence: Fence, record: OperationRecord)
    requires OwningRecord(s, fence, record)
    requires change.Expire? ==>
      && ClaimKey(change.instance, record.core.op) in s.claims
      && s.claims[ClaimKey(change.instance, record.core.op)].phase == ClaimExpired
    ensures ChangeMoveOk(ChangeAccepted(change, fence, record), s)
  {
    hide ValidRecord;
  }

  lemma VerifyClaimOk(pc: ChangePc, s: Store, free: bool)
    requires pc.ChangeVerifyClaim? && ChangeOk(pc, s)
    ensures ChangeMoveOk(ChangeStep(pc, s, free), s)
  {
    hide Changed, ValidRecord;
  }

  lemma VerifyOwnerOk(pc: ChangePc, s: Store, free: bool)
    requires pc.ChangeVerifyOwner? && ChangeOk(pc, s)
    ensures ChangeMoveOk(ChangeStep(pc, s, free), s)
  {
    hide Changed, ValidRecord;
  }

  lemma ReadChangeClaimOk(pc: ChangePc, s: Store, free: bool)
    requires pc.ChangeReadClaim? && ChangeOk(pc, s)
    ensures ChangeMoveOk(ChangeStep(pc, s, free), s)
  {
    hide ChangeAccepted, OwningRecord;
    var ChangeReadClaim(change, fence, record) := pc;
    if change.Expire? && ClaimKey(change.instance, record.core.op) in s.claims
      && s.claims[ClaimKey(change.instance, record.core.op)].phase == ClaimExpired
    {
      ChangeAcceptedOk(s, change, fence, record);
    }
  }

  lemma FenceOfCurrent(s: Store, fence: Fence, record: OperationRecord)
    requires CurrentRecord(s, fence, record)
    ensures FenceOf(record.core) == fence
  {
  }

  lemma ReadChangeOwnerOk(pc: ChangePc, s: Store, free: bool)
    requires pc.ChangeReadOwner? && ChangeOk(pc, s)
    ensures ChangeMoveOk(ChangeStep(pc, s, free), s)
  {
    hide ChangeAccepted, CurrentRecord;
    var ChangeReadOwner(change, fence, record) := pc;
    if OwningRecord(s, fence, record) && !change.Expire? {
      ChangeAcceptedOk(s, change, fence, record);
    }
    FenceOfCurrent(s, fence, record);
  }

  lemma ChangeStepOk(pc: ChangePc, s: Store, free: bool)
    requires WriteOf(Changing(pc)).None? && ChangeOk(pc, s) && RecordsValid(s)
    ensures ChangeMoveOk(ChangeStep(pc, s, free), s)
  {
    hide Completing, ValidRecord, ChangeAccepted, IsCurrent;
    match pc
    case ChangeReadOwner(_, _, _) => ReadChangeOwnerOk(pc, s, free);
    case ChangeReadClaim(_, _, _) => ReadChangeClaimOk(pc, s, free);
    case ChangeVerifyOwner(_, _, _, _) => VerifyOwnerOk(pc, s, free);
    case ChangeVerifyClaim(_, _, _, _, _) => VerifyClaimOk(pc, s, free);
    case _ =>
  }

  lemma ReadPriorParentOk(pc: ConnectorPc, s: Store, free: bool)
    requires pc.ConnectorReadPriorParent? && ConnectorOk(pc, s)
    ensures ConnectorMoveOk(ConnectorStep(pc, s, free), s)
  {
    hide PriorAllows, ClaimAdmitted, IsCurrent, MatchesParent;
  }

  lemma ReadConnectorOwnerOk(pc: ConnectorPc, s: Store, free: bool)
    requires pc.ConnectorReadOwner? && ConnectorOk(pc, s)
    ensures ConnectorMoveOk(ConnectorStep(pc, s, free), s)
  {
    hide PriorAllows, ClaimAdmitted, IsCurrent, MatchesParent;
  }

  lemma ReadOwnClaimOk(pc: ConnectorPc, s: Store, free: bool)
    requires pc.ConnectorReadClaim? && ConnectorOk(pc, s)
    ensures ConnectorMoveOk(ConnectorStep(pc, s, free), s)
  {
    hide PriorAllows, ClaimAdmitted, IsCurrent, MatchesParent;
  }

  lemma ReadConnectorPredecessorOk(pc: ConnectorPc, s: Store, free: bool)
    requires pc.ConnectorReadPredecessor? && ConnectorOk(pc, s)
    ensures ConnectorMoveOk(ConnectorStep(pc, s, free), s)
  {
    hide PriorAllows, IsCurrent, MatchesParent, ConnectorPredecessor;
  }

  lemma ConnectorStepOk(pc: ConnectorPc, s: Store, free: bool)
    requires WriteOf(Connecting(pc)).None? && ConnectorOk(pc, s) && RecordsValid(s)
    ensures ConnectorMoveOk(ConnectorStep(pc, s, free), s)
  {
    hide MatchesParent, ConnectorPredecessor, ValidRecord, PriorAllows, Admitted, Follows, Enabled;
    match pc
    case ConnectorReadPredecessor(_, _, _) => ReadConnectorPredecessorOk(pc, s, free);
    case ConnectorReadOwner(_, _, _) => ReadConnectorOwnerOk(pc, s, free);
    case ConnectorReadPriorParent(_, _, _, _, _) => ReadPriorParentOk(pc, s, free);
    case ConnectorReadClaim(_, _) => ReadOwnClaimOk(pc, s, free);
    case _ =>
  }

  lemma ReadClaimAgainOk(pc: HandoffPc, s: Store, free: bool)
    requires pc.HandoffReadClaimAgain? && HandoffOk(pc, s) && ClaimsValid(s)
    ensures HandoffMoveOk(HandoffStep(pc, s, free), s)
  {
    hide MatchesParent, ConnectorPredecessor, IsCurrent;
    var key := ClaimKey(pc.instance, pc.owner.current);
    if key in s.claims {
      assert Canonical(s.records, key.op, key.instance, s.claims[key].core);
    }
  }

  lemma HandoffStepOk(pc: HandoffPc, s: Store, free: bool)
    requires WriteOf(Handing(pc)).None? && HandoffOk(pc, s) && RecordsValid(s) && ClaimsValid(s)
    ensures HandoffMoveOk(HandoffStep(pc, s, free), s)
  {
    hide MatchesParent, ConnectorPredecessor, ValidRecord, ClaimsValid, Enabled;
    match pc
    case HandoffReadClaimAgain(_, _, _, _, _) => ReadClaimAgainOk(pc, s, free);
    case _ =>
  }

  // ----- the writing steps -----

  /** The file a write replaces. */
  function EffectOf(s: Store, w: Write): Effect
    requires Enabled(s, w)
  {
    match w
    case CreateRecord(core) => PutRecord(Initial(core))
    case PublishOwner(core) => PutOwner(FenceOf(core), OwnershipOf(core))
    case UpdateRecord(op, change) => PutRecord(Changed(s.records[op], change).value)
    case PublishConnectorOwner(claim) => PutConnectorOwner(ConnectorOwnershipOf(claim))
    case CreateClaim(claim) => PutClaim(ConnectorClaim(claim, Prepared))
    case UpdateClaim(instance, change) =>
      PutClaim(s.claims[ClaimKey(instance, s.connOwners[instance].current)].(phase := ClaimTarget(change)))
  }

  lemma EffectIsWrite(s: Store, h: History, w: Write)
    requires RecordsValid(s) && ClaimsValid(s) && Enabled(s, w)
    ensures Put(s, EffectOf(s, w)) == After(s, w)
    ensures PutHistory(s, h, EffectOf(s, w)) == HistoryAfter(s, h, w)
  {
    hide CanOwn, CompletionVerified, ClaimAdmitted, PriorAllows, MatchesParent, ConnectorPredecessor, ValidRecord;
    hide ClaimsValid;
    match w
    case UpdateRecord(op, change) => UpdatedKeepsOp(s, op, change);
    case UpdateClaim(instance, _) => UpdatedKeepsKey(s, instance);
    case _ =>
  }

  lemma UpdatedKeepsOp(s: Store, op: Token, change: Change)
    requires RecordsValid(s) && op in s.records && Changed(s.records[op], change).Ok?
    ensures Changed(s.records[op], change).value.core.op == op
  {
    ChangedIsLegal(s.records[op], change);
  }

  lemma UpdatedKeepsKey(s: Store, instance: Token)
    requires ClaimsValid(s) && instance in s.connOwners && ClaimKey(instance, s.connOwners[instance].current) in s.claims
    ensures var key := ClaimKey(instance, s.connOwners[instance].current);
      s.claims[key].core.instance == instance && s.claims[key].core.op == key.op
  {
    var key := ClaimKey(instance, s.connOwners[instance].current);
    assert Canonical(s.records, key.op, key.instance, s.claims[key].core);
  }

  lemma WriteIsEffect(pc: Pc, s: Store, free: bool, pick: Fence)
    requires PcOk(pc, s) && WriteOf(pc).Some?
    ensures Enabled(s, WriteOf(pc).value)
    ensures Step(pc, s, free, pick).1 == EffectOf(s, WriteOf(pc).value)
  {
  }

  lemma AfterRecordOk(core: OperationIdentity, s: Store)
    requires ClaimOk(ClaimWriteRecord(core), s)
    ensures ClaimOk(ClaimWriteOwner(core, Initial(core)), After(s, CreateRecord(core)))
  {
  }

  lemma AfterConnectorOwnerOk(claim: ClaimIdentity, fence: Fence, s: Store)
    requires ConnectorOk(ConnectorWriteOwner(claim, fence), s)
    ensures ConnectorOk(ConnectorReadClaim(claim, fence), After(s, PublishConnectorOwner(claim)))
  {
    hide MatchesParent, ConnectorPredecessor, PriorAllows;
  }

  lemma AfterWriteOk(pc: Pc, s: Store, free: bool, pick: Fence)
    requires PcOk(pc, s) && WriteOf(pc).Some? && Enabled(s, WriteOf(pc).value)
    ensures PcOk(Step(pc, s, free, pick).0, After(s, WriteOf(pc).value))
  {
    hide Enabled, Admitted, ClaimOk, ConnectorOk;
    match pc
    case Claiming(ClaimWriteRecord(core)) => AfterRecordOk(core, s);
    case Connecting(ConnectorWriteOwner(claim, fence)) => AfterConnectorOwnerOk(claim, fence, s);
    case _ =>
  }

  // ----- interference -----

  /** The files that a lock guards are as they were. */
  ghost predicate Guarded(s: Store, s': Store, l: LockId) {
    match l
    case IdLock(op) =>
      && (op in s'.records ==> op in s.records)
      && (forall g :: g in s'.owners && s'.owners[g].current == op ==> g in s.owners && s.owners[g] == s'.owners[g])
    case TargetLock(f) =>
      && (f in s'.owners ==> f in s.owners)
      && (f in s.owners ==> f in s'.owners && s'.owners[f] == s.owners[f])
      && (forall op :: op in s'.records && FenceOf(s'.records[op].core) == f ==> op in s.records && s.records[op] == s'.records[op])
      && (forall key :: key in s'.claims && FenceRecorded(s, key.op, f) ==> key in s.claims && s.claims[key] == s'.claims[key])
      && (forall i :: i in s.connOwners && FenceRecorded(s, s.connOwners[i].current, f) ==>
            i in s'.connOwners && s'.connOwners[i] == s.connOwners[i])
    case ConnectorLock(i) =>
      && (i in s'.connOwners ==> i in s.connOwners)
      && (i in s.connOwners ==> i in s'.connOwners && s'.connOwners[i] == s.connOwners[i])
      && (forall key :: key in s'.claims && key.instance == i ==> key in s.claims && s.claims[key] == s'.claims[key])
  }

  /** What every write keeps, whoever makes it. */
  ghost predicate Kept(s: Store, s': Store) {
    && CoresKept(s, s')
    && s.owners.Keys <= s'.owners.Keys
    && s.claims.Keys <= s'.claims.Keys
  }

  lemma WriteKeeps(s: Store, w: Write)
    requires RecordsValid(s) && Enabled(s, w)
    ensures Kept(s, After(s, w))
  {
    hide Enabled;
    CoresKeptAfter(s, w);
  }

  /** The locks under which a write is made. */
  function LocksOf(s: Store, w: Write): set<LockId>
    requires Enabled(s, w)
  {
    match w
    case CreateRecord(core) => {IdLock(core.op), TargetLock(FenceOf(core))}
    case PublishOwner(core) => {IdLock(core.op), TargetLock(FenceOf(core))}
    case UpdateRecord(op, _) => {TargetLock(FenceOf(s.records[op].core))}
    case PublishConnectorOwner(claim) => {TargetLock(FenceOf(s.records[claim.op].core)), ConnectorLock(claim.instance)}
    case CreateClaim(claim) => {TargetLock(FenceOf(s.records[claim.op].core)), ConnectorLock(claim.instance)}
    case UpdateClaim(i, _) =>
      var op := s.claims[ClaimKey(i, s.connOwners[i].current)].core.op;
      {TargetLock(FenceOf(s.records[op].core)), ConnectorLock(i)}
  }

  /** A write leaves alone every file guarded by a lock it is not made under. */
  lemma WriteGuards(s: Store, w: Write, l: LockId)
    requires RecordsValid(s) && OwnersValid(s) && ClaimsValid(s) && Enabled(s, w) && l !in LocksOf(s, w)
    ensures Guarded(s, After(s, w), l)
  {
    hide Guarded, LocksOf, After;
    if w.CreateRecord? || w.UpdateRecord? {
      RecordWriteGuards(s, w, l);
    } else if w.PublishOwner? {
      OwnerWriteGuards(s, w, l);
    } else {
      ConnectorWriteGuards(s, w, l);
    }
  }

  lemma RecordWriteGuards(s: Store, w: Write, l: LockId)
    requires RecordsValid(s) && Enabled(s, w) && l !in LocksOf(s, w)
    requires w.CreateRecord? || w.UpdateRecord?
    ensures Guarded(s, After(s, w), l)
  {
    hide CanOwn, CompletionVerified, ValidRecord;
    if w.UpdateRecord? {
      UpdatedKeepsOp(s, w.op, w.change);
      CoresKeptAfter(s, w);
    }
  }

  lemma OwnerWriteGuards(s: Store, w: Write, l: LockId)
    requires w.PublishOwner? && Enabled(s, w) && l !in LocksOf(s, w)
    ensures Guarded(s, After(s, w), l)
  {
    hide CanOwn, ValidRecord;
  }

  lemma ConnectorWriteGuards(s: Store, w: Write, l: LockId)
    requires RecordsValid(s) && OwnersValid(s) && ClaimsValid(s) && Enabled(s, w) && l !in LocksOf(s, w)
    requires w.PublishConnectorOwner? || w.CreateClaim? || w.UpdateClaim?
    ensures Guarded(s, After(s, w), l)
  {
    hide MatchesParent, ConnectorPredecessor, PriorAllows, ValidRecord, ClaimsValid;
    match w
    case PublishConnectorOwner(claim) =>
      if claim.instance in s.connOwners { ConnectorStaysOnTarget(s, claim); }
    case UpdateClaim(i, _) => UpdatedKeepsKey(s, i);
    case _ =>
  }

  lemma WritesUnderLocks(pc: Pc, s: Store)
    requires PcOk(pc, s) && WriteOf(pc).Some? && Enabled(s, WriteOf(pc).value)
    ensures LocksOf(s, WriteOf(pc).value) <= Held(pc)
  {
    hide CanOwn, CompletionVerified, MatchesParent, ConnectorPredecessor, PriorAllows, ValidRecord;
  }
}
