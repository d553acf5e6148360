/** What a process knows survives whatever the others do, because of the locks it holds. */
module Interference {
  import opened Domain
  import opened Records
  import opened StateActions
  import opened StateInvariants
  import opened StateProofs
  import opened StepMachine
  import opened StepProofs

  ghost predicate Valid(s: Store) {
    RecordsValid(s) && OwnersValid(s) && ClaimsValid(s)
  }

  lemma CurrentStable(s: Store, s': Store, core: OperationIdentity)
    requires IsCurrent(s, core) && Guarded(s, s', TargetLock(FenceOf(core)))
    ensures IsCurrent(s', core)
  {
  }

  lemma FreshStable(s: Store, s': Store, core: OperationIdentity)
    requires Fresh(s, core) && Guarded(s, s', IdLock(core.op))
    ensures Fresh(s', core)
  {
  }

  lemma CanOwnStable(s: Store, s': Store, core: OperationIdentity)
    requires OwnersValid(s) && CanOwn(s, core) && Kept(s, s') && Guarded(s, s', TargetLock(FenceOf(core)))
    ensures CanOwn(s', core)
  {
    var f := FenceOf(core);
    if f in s.owners && s.owners[f].current != core.op {
      assert FenceRecorded(s, s.owners[f].current, f);
    }
  }

  lemma ScanStable(s: Store, s': Store, core: OperationIdentity, listed: set<Fence>, seen: set<Fence>)
    requires ScanOk(s, core, listed, seen) && Guarded(s, s', IdLock(core.op))
    ensures ScanOk(s', core, listed, seen)
  {
  }

  lemma ExpiredPriorStable(s: Store, s': Store, core: OperationIdentity, prior: OperationRecord)
    requires OwnersValid(s) && ExpiredPrior(s, core, prior) && Kept(s, s') && Guarded(s, s', TargetLock(FenceOf(core)))
    ensures ExpiredPrior(s', core, prior)
  {
    assert FenceRecorded(s, core.predecessor.value, FenceOf(core));
  }

  lemma ClaimStable(pc: ClaimPc, s: Store, s': Store)
    requires ClaimOk(pc, s) && OwnersValid(s) && Kept(s, s')
    requires forall l :: l in ClaimHeld(pc) ==> Guarded(s, s', l)
    ensures ClaimOk(pc, s')
  {
    hide ValidIdentity, CanOwn, ScanOk, ExpiredPrior, NamedElsewhere;
    var core := pc.core;
    assert !pc.ClaimLockId? ==> Guarded(s, s', IdLock(core.op));
    if CanOwn(s, core) && TargetLock(FenceOf(core)) in ClaimHeld(pc) { CanOwnStable(s, s', core); }
    if Fresh(s, core) && !pc.ClaimLockId? { FreshStable(s, s', core); }
    match pc
    case ClaimScan(_, listed, seen, _) => ScanStable(s, s', core, listed, seen);
    case ClaimReadPredecessor(_, _, _) => assert Guarded(s, s', TargetLock(FenceOf(core)));
    case ClaimReadExpired(_, _, prior) =>
      assert Guarded(s, s', TargetLock(FenceOf(core)));
      ExpiredPriorStable(s, s', core, prior);
    case _ =>
  }

  lemma OwningStable(s: Store, s': Store, fence: Fence, record: OperationRecord)
    requires CurrentRecord(s, fence, record) && Kept(s, s') && Guarded(s, s', TargetLock(fence))
    ensures CurrentRecord(s', fence, record)
    ensures IsCurrent(s, record.core) ==> IsCurrent(s', record.core)
  {
  }

  lemma DoneStable(s: Store, s': Store, op: Token, fence: Fence, i: Token)
    requires ConnectorDone(s, op, i) && FenceRecorded(s, op, fence) && Kept(s, s') && Guarded(s, s', TargetLock(fence))
    ensures ConnectorDone(s', op, i)
  {
  }

  lemma CompletingStable(s: Store, s': Store, change: Change, fence: Fence, record: OperationRecord, verified: nat)
    requires Completing(s, change, fence, record, verified) && Kept(s, s') && Guarded(s, s', TargetLock(fence))
    ensures Completing(s', change, fence, record, verified)
  {
    hide Guarded, Changed, ValidRecord, ConnectorDone, IsCurrent;
    OwningStable(s, s', fence, record);
    forall k | 0 <= k < verified
      ensures ConnectorDone(s', record.core.op, Connectors(record.core.binding.workload)[k].instance)
    {
      DoneStable(s, s', record.core.op, fence, Connectors(record.core.binding.workload)[k].instance);
    }
  }

  lemma VerifiedStable(s: Store, s': Store, core: OperationIdentity, fence: Fence)
    requires CompletionVerified(s, core) && FenceRecorded(s, core.op, fence) && Kept(s, s')
    requires Guarded(s, s', TargetLock(fence))
    ensures CompletionVerified(s', core)
  {
    hide Guarded, ConnectorDone;
    forall k | 0 <= k < |Connectors(core.binding.workload)|
      ensures ConnectorDone(s', core.op, Connectors(core.binding.workload)[k].instance)
    {
      DoneStable(s, s', core.op, fence, Connectors(core.binding.workload)[k].instance);
    }
  }

  lemma UpdateStable(s: Store, s': Store, fence: Fence, record: OperationRecord, change: Change)
    requires OwningRecord(s, fence, record) && Enabled(s, UpdateRecord(record.core.op, change))
    requires Kept(s, s') && Guarded(s, s', TargetLock(fence))
    ensures OwningRecord(s', fence, record) && Enabled(s', UpdateRecord(record.core.op, change))
  {
    hide CompletionVerified, Changed, ValidRecord;
    OwningStable(s, s', fence, record);
    if CompletionVerified(s, record.core) { VerifiedStable(s, s', record.core, fence); }
  }

  lemma ChangeStable(pc: ChangePc, s: Store, s': Store)
    requires ChangeOk(pc, s) && Kept(s, s')
    requires forall l :: l in ChangeHeld(pc) ==> Guarded(s, s', l)
    ensures ChangeOk(pc, s')
  {
    hide Completing, CurrentRecord, Enabled, IsCurrent, Guarded;
    match pc
    case ChangeReadOwner(_, fence, record) => OwningStable(s, s', fence, record);
    case ChangeReadClaim(_, fence, record) => OwningStable(s, s', fence, record);
    case ChangeVerifyOwner(change, fence, record, verified) => CompletingStable(s, s', change, fence, record, verified);
    case ChangeVerifyClaim(change, fence, record, verified, owner) =>
      CompletingStable(s, s', change, fence, record, verified);
      ReadOwnerStable(s, s', change, fence, record, verified, owner);
    case ChangeWrite(change, fence, record) => UpdateStable(s, s', fence, record, change);
    case _ =>
  }

  lemma ReadOwnerStable(s: Store, s': Store, change: Change, fence: Fence, record: OperationRecord, verified: nat,
                        owner: ConnectorOwnership)
    requires Completing(s, change, fence, record, verified) && Kept(s, s') && Guarded(s, s', TargetLock(fence))
    requires verified < |Connectors(record.core.binding.workload)|
    ensures var i := Connectors(record.core.binding.workload)[verified].instance;
      owner.current == record.core.op && i in s.connOwners && s.connOwners[i] == owner ==>
        i in s'.connOwners && s'.connOwners[i] == owner
  {
  }

  lemma AdmittedStable(s: Store, s': Store, claim: ClaimIdentity, fence: Fence)
    requires Admitted(s, claim, fence) && Kept(s, s') && Guarded(s, s', TargetLock(fence))
    ensures Admitted(s', claim, fence)
  {
    hide MatchesParent, Binds;
  }

  lemma ParentStable(s: Store, s': Store, claim: ClaimIdentity, fence: Fence)
    requires AdmittedParent(s, claim, fence) && Kept(s, s')
    ensures AdmittedParent(s', claim, fence) && s'.records[claim.op].core == s.records[claim.op].core
  {
  }

  lemma FollowsStable(s: Store, s': Store, claim: ClaimIdentity, owner: ConnectorOwnership)
    requires Follows(s, claim, owner) && Guarded(s, s', ConnectorLock(claim.instance))
    ensures Follows(s', claim, owner)
  {
  }

  lemma PublishStable(s: Store, s': Store, claim: ClaimIdentity, fence: Fence)
    requires Admitted(s, claim, fence) && Enabled(s, PublishConnectorOwner(claim)) && Kept(s, s')
    requires Valid(s) && Guarded(s, s', TargetLock(fence)) && Guarded(s, s', ConnectorLock(claim.instance))
    ensures Enabled(s', PublishConnectorOwner(claim))
  {
    hide MatchesParent, ClaimAdmitted, ConnectorPredecessor, ValidRecord;
    AdmittedStable(s, s', claim, fence);
    if claim.instance in s.connOwners {
      ConnectorStaysOnTarget(s, claim);
      UpdatedKeepsKey(s, claim.instance);
      assert FenceRecorded(s, s.connOwners[claim.instance].current, fence);
    }
  }

  lemma CreateStable(s: Store, s': Store, claim: ClaimIdentity, fence: Fence)
    requires Admitted(s, claim, fence) && Enabled(s, CreateClaim(claim)) && Kept(s, s')
    requires Guarded(s, s', TargetLock(fence)) && Guarded(s, s', ConnectorLock(claim.instance))
    ensures Enabled(s', CreateClaim(claim))
  {
    hide MatchesParent, ClaimAdmitted, ConnectorPredecessor;
    AdmittedStable(s, s', claim, fence);
  }

  lemma ParentCurrentStable(s: Store, s': Store, claim: ClaimIdentity, fence: Fence, parent: OperationIdentity)
    requires ParentCurrent(s, claim, fence, parent) && Kept(s, s') && Guarded(s, s', TargetLock(fence))
    ensures ParentCurrent(s', claim, fence, parent)
  {
    hide MatchesParent;
  }

  lemma PriorReadStable(s: Store, s': Store, claim: ClaimIdentity, key: ClaimKey)
    requires key in s.claims && key.instance == claim.instance && Kept(s, s')
    requires Guarded(s, s', ConnectorLock(claim.instance))
    ensures key in s'.claims && s'.claims[key] == s.claims[key]
  {
  }

  lemma OwnedStable(s: Store, s': Store, i: Token)
    requires i in s.connOwners && Guarded(s, s', ConnectorLock(i))
    ensures i in s'.connOwners && s'.connOwners[i] == s.connOwners[i]
  {
  }

  lemma ConnectorStable(pc: ConnectorPc, s: Store, s': Store)
    requires ConnectorOk(pc, s) && Valid(s) && Kept(s, s')
    requires forall l :: l in ConnectorHeld(pc) ==> Guarded(s, s', l)
    ensures ConnectorOk(pc, s')
  {
    hide Enabled, Admitted, AdmittedParent, ParentCurrent, Follows, Valid, Guarded, Kept;
    match pc
    case ConnectorReadParent(_, _) =>
    case ConnectorLockTarget(claim, fence) => ParentStable(s, s', claim, fence);
    case ConnectorReread(claim, fence) => ParentStable(s, s', claim, fence);
    case ConnectorReadTarget(claim, fence, parent) => ParentStable(s, s', claim, fence);
    case ConnectorLockInstance(claim, fence, parent) => ParentCurrentStable(s, s', claim, fence, parent);
    case ConnectorReadPredecessor(claim, fence, parent) => ParentCurrentStable(s, s', claim, fence, parent);
    case ConnectorReadOwner(claim, fence, parent) =>
      ParentCurrentStable(s, s', claim, fence, parent);
      AdmittedStable(s, s', claim, fence);
    case ConnectorReadPrior(claim, fence, parent, owner) =>
      ParentCurrentStable(s, s', claim, fence, parent);
      AdmittedStable(s, s', claim, fence);
      FollowsStable(s, s', claim, owner);
    case ConnectorReadPriorParent(claim, fence, parent, owner, prior) =>
      ParentCurrentStable(s, s', claim, fence, parent);
      AdmittedStable(s, s', claim, fence);
      FollowsStable(s, s', claim, owner);
      PriorReadStable(s, s', claim, ClaimKey(claim.instance, owner.current));
    case ConnectorWriteOwner(claim, fence) =>
      AdmittedStable(s, s', claim, fence);
      PublishStable(s, s', claim, fence);
    case ConnectorReadClaim(claim, fence) =>
      AdmittedStable(s, s', claim, fence);
      OwnedStable(s, s', claim.instance);
    case ConnectorWriteClaim(claim, fence) =>
      AdmittedStable(s, s', claim, fence);
      CreateStable(s, s', claim, fence);
  }

  lemma FenceStable(s: Store, s': Store, op: Token, fence: Fence)
    requires FenceRecorded(s, op, fence) && Kept(s, s')
    ensures FenceRecorded(s', op, fence) && s'.records[op].core == s.records[op].core
  {
  }

  lemma HandoffWriteStable(s: Store, s': Store, i: Token, move: ClaimChange, fence: Fence, held: ConnectorClaim)
    requires HandoffOk(HandoffWrite(i, move, fence, held), s) && Kept(s, s')
    requires Guarded(s, s', TargetLock(fence)) && Guarded(s, s', ConnectorLock(i))
    ensures HandoffOk(HandoffWrite(i, move, fence, held), s')
  {
    FenceStable(s, s', held.core.op, fence);
    OwnedStable(s, s', i);
    CurrentStable(s, s', s.records[held.core.op].core);
  }

  lemma HandoffStable(pc: HandoffPc, s: Store, s': Store)
    requires HandoffOk(pc, s) && Kept(s, s')
    requires forall l :: l in HandoffHeld(pc) ==> Guarded(s, s', l)
    ensures HandoffOk(pc, s')
  {
    hide Enabled, Guarded, Kept, IsCurrent, FenceRecorded;
    match pc
    case HandoffLockTarget(_, _, op, fence) => FenceStable(s, s', op, fence);
    case HandoffReread(_, _, op, fence) => FenceStable(s, s', op, fence);
    case HandoffReadTarget(_, _, fence, parent) => HandoffParentStable(s, s', fence, parent);
    case HandoffLockInstance(_, _, fence, parent) => HandoffParentStable(s, s', fence, parent);
    case HandoffReadOwnerAgain(_, _, fence, parent) => HandoffParentStable(s, s', fence, parent);
    case HandoffReadClaimAgain(i, _, fence, parent, _) =>
      HandoffParentStable(s, s', fence, parent);
      OwnedStable(s, s', i);
    case HandoffWrite(i, move, fence, held) => HandoffWriteStable(s, s', i, move, fence, held);
    case _ =>
  }

  lemma HandoffParentStable(s: Store, s': Store, fence: Fence, parent: OperationIdentity)
    requires HandoffParent(s, fence, parent) && Kept(s, s')
    ensures HandoffParent(s', fence, parent)
    ensures IsCurrent(s, parent) && Guarded(s, s', TargetLock(fence)) ==> IsCurrent(s', parent)
  {
    FenceStable(s, s', parent.op, fence);
  }

  lemma KnowledgeStable(pc: Pc, s: Store, s': Store)
    requires PcOk(pc, s) && Valid(s) && Kept(s, s')
    requires forall l :: l in Held(pc) ==> Guarded(s, s', l)
    ensures PcOk(pc, s')
  {
    hide ClaimOk, ChangeOk, ConnectorOk, HandoffOk, Guarded, Kept;
    match pc
    case Done(_) =>
    case Claiming(c) => ClaimStable(c, s, s');
    case Changing(c) => ChangeStable(c, s, s');
    case Connecting(c) => ConnectorStable(c, s, s');
    case Handing(c) => HandoffStable(c, s, s');
  }
}
