/** A process that runs while no other does reaches the outcome of its call.
 *
 * `Returns` is the step-by-step process with every lock free and the directory listed in any order;
 * `StateStore` has the same outcomes for the calls written as methods.
 */
module SoloRuns {
  import opened Domain
  import opened Records
  import opened StateActions
  import opened StateInvariants
  import opened StepMachine
  import opened StepProofs
  import opened Calls
  import LegacyOwners

  /** Within `n` steps of its own the process returns `outcome` and leaves the files as `after`. */
  ghost predicate Returns(pc: Pc, s: Store, n: nat, outcome: Result<Answer>, after: Store)
    decreases n
  {
    if pc.Done? then pc.outcome == outcome && after == s
    else n > 0 && exists pick ::
      Returns(Step(pc, s, true, pick).0, Put(s, Step(pc, s, true, pick).1), n - 1, outcome, after)
  }

  lemma ClaimMoves(c: ClaimPc, s: Store, n: nat, outcome: Result<Answer>, after: Store)
    returns (m: Move<ClaimPc>, pick: Fence)
    requires Returns(Claiming(c), s, n, outcome, after)
    ensures m == ClaimStep(c, s, true, pick)
    ensures m.Stay? ==> n > 0 && Returns(Claiming(m.next), Put(s, m.effect), n - 1, outcome, after)
    ensures m.End? ==> m.outcome == outcome && after == Put(s, m.effect)
  {
    hide ClaimStep;
    pick :| Returns(Step(Claiming(c), s, true, pick).0, Put(s, Step(Claiming(c), s, true, pick).1), n - 1, outcome, after);
    m := ClaimStep(c, s, true, pick);
  }

  // ----- every call returns -----

  /** How many kinds of step lie ahead of a process, counting those that repeat once. */
  function Ahead(pc: Pc): nat {
    match pc
    case Done(_) => 0
    case Claiming(c) =>
      (match c
       case ClaimLockId(_) => 10
       case ClaimRead(_) => 9
       case ClaimList(_) => 8
       case ClaimScan(_, _, _, _) => 7
       case ClaimLockTarget(_, _) => 6
       case ClaimReadOwner(_, _) => 5
       case ClaimReadPredecessor(_, _, _) => 4
       case ClaimReadExpired(_, _, _) => 3
       case ClaimWriteRecord(_) => 2
       case ClaimWriteOwner(_, _) => 1)
    case Changing(c) =>
      (match c
       case ChangeRead(_, _) => 7
       case ChangeLock(_, _, _) => 6
       case ChangeReread(_, _, _) => 5
       case ChangeReadOwner(_, _, _) => 4
       case ChangeReadClaim(_, _, _) => 3
       case ChangeVerifyOwner(_, _, _, _) => 2
       case ChangeVerifyClaim(_, _, _, _, _) => 2
       case ChangeWrite(_, _, _) => 1)
    case Connecting(c) =>
      (match c
       case ConnectorReadParent(_, _) => 12
       case ConnectorLockTarget(_, _) => 11
       case ConnectorReread(_, _) => 10
       case ConnectorReadTarget(_, _, _) => 9
       case ConnectorLockInstance(_, _, _) => 8
       case ConnectorReadPredecessor(_, _, _) => 7
       case ConnectorReadOwner(_, _, _) => 6
       case ConnectorReadPrior(_, _, _, _) => 5
       case ConnectorReadPriorParent(_, _, _, _, _) => 4
       case ConnectorWriteOwner(_, _) => 3
       case ConnectorReadClaim(_, _) => 2
       case ConnectorWriteClaim(_, _) => 1)
    case Handing(c) =>
      (match c
       case HandoffReadOwner(_, _) => 10
       case HandoffReadClaim(_, _, _) => 9
       case HandoffReadParent(_, _, _) => 8
       case HandoffLockTarget(_, _, _, _) => 7
       case HandoffReread(_, _, _, _) => 6
       case HandoffReadTarget(_, _, _, _) => 5
       case HandoffLockInstance(_, _, _, _) => 4
       case HandoffReadOwnerAgain(_, _, _, _) => 3
       case HandoffReadClaimAgain(_, _, _, _, _) => 2
       case HandoffWrite(_, _, _, _) => 1)
  }

  /** What a repeated step has left: entries to read, or connectors to verify. */
  function Left(pc: Pc): nat {
    match pc
    case Claiming(ClaimScan(_, listed, seen, _)) => |listed - seen|
    case Changing(ChangeVerifyOwner(_, _, r, k)) =>
      var n := |Connectors(r.core.binding.workload)|; if k >= n then 0 else 2 * (n - k) + 1
    case Changing(ChangeVerifyClaim(_, _, r, k, _)) =>
      var n := |Connectors(r.core.binding.workload)|; if k >= n then 0 else 2 * (n - k)
    case _ => 0
  }

  /** A scan has listed the directory as it is. */
  predicate Listed(pc: Pc, s: Store) {
    pc.Claiming? && pc.claiming.ClaimScan? ==> pc.claiming.listed == s.owners.Keys
  }

  predicate GoodPick(pc: Pc, pick: Fence) {
    pc.Claiming? && pc.claiming.ClaimScan? && !(pc.claiming.listed <= pc.claiming.seen) ==> pick in pc.claiming.listed - pc.claiming.seen
  }

  ghost predicate Nearer(pc: Pc, s: Store, next: Pc, e: Effect) {
    && (Ahead(next) < Ahead(pc) || (Ahead(next) == Ahead(pc) && Left(next) < Left(pc)))
    && Listed(next, Put(s, e))
  }

  lemma ClaimIsNearer(c: ClaimPc, s: Store, pick: Fence)
    requires Listed(Claiming(c), s) && GoodPick(Claiming(c), pick)
    ensures Nearer(Claiming(c), s, Step(Claiming(c), s, true, pick).0, Step(Claiming(c), s, true, pick).1)
  {
    hide Nearer, Step, Listed, GoodPick;
    match c
    case ClaimScan(_, _, _, _) => ScanningIsNearer(c, s, pick);
    case ClaimReadOwner(_, _) => OwnerIsNearer(c, s, pick);
    case ClaimReadPredecessor(_, _, _) => OwnerIsNearer(c, s, pick);
    case ClaimReadExpired(_, _, _) => OwnerIsNearer(c, s, pick);
    case _ => LockOrWriteIsNearer(c, s, pick);
  }

  lemma ScanningIsNearer(c: ClaimPc, s: Store, pick: Fence)
    requires c.ClaimScan? && Listed(Claiming(c), s) && GoodPick(Claiming(c), pick)
    ensures Nearer(Claiming(c), s, Step(Claiming(c), s, true, pick).0, Step(Claiming(c), s, true, pick).1)
  {
    ScanIsNearer(c, s, pick);
  }

  lemma OwnerIsNearer(c: ClaimPc, s: Store, pick: Fence)
    requires c.ClaimReadOwner? || c.ClaimReadPredecessor? || c.ClaimReadExpired?
    ensures Nearer(Claiming(c), s, Step(Claiming(c), s, true, pick).0, Step(Claiming(c), s, true, pick).1)
  {
    hide ReissueOf, ExpiredClaimOf;
  }

  lemma LockOrWriteIsNearer(c: ClaimPc, s: Store, pick: Fence)
    requires !c.ClaimScan? && !c.ClaimReadOwner? && !c.ClaimReadPredecessor? && !c.ClaimReadExpired?
    ensures Nearer(Claiming(c), s, Step(Claiming(c), s, true, pick).0, Step(Claiming(c), s, true, pick).1)
  {
  }

  lemma ChangeIsNearer(c: ChangePc, s: Store, pick: Fence)
    ensures Nearer(Changing(c), s, Step(Changing(c), s, true, pick).0, Step(Changing(c), s, true, pick).1)
  {
    hide Changed, ValidRecord;
  }

  lemma ConnectorIsNearer(c: ConnectorPc, s: Store, pick: Fence)
    ensures Nearer(Connecting(c), s, Step(Connecting(c), s, true, pick).0, Step(Connecting(c), s, true, pick).1)
  {
    hide MatchesParent, ConnectorPredecessor, PriorAllows;
  }

  lemma HandoffIsNearer(c: HandoffPc, s: Store, pick: Fence)
    ensures Nearer(Handing(c), s, Step(Handing(c), s, true, pick).0, Step(Handing(c), s, true, pick).1)
  {
    hide ClaimChanged;
  }

  lemma StepIsNearer(pc: Pc, s: Store, pick: Fence)
    requires !pc.Done? && Listed(pc, s) && GoodPick(pc, pick)
    ensures Nearer(pc, s, Step(pc, s, true, pick).0, Step(pc, s, true, pick).1)
  {
    hide Nearer, Step, Listed, GoodPick;
    match pc
    case Done(_) =>
    case Claiming(c) => ClaimIsNearer(c, s, pick);
    case Changing(c) => ChangeIsNearer(c, s, pick);
    case Connecting(c) => ConnectorIsNearer(c, s, pick);
    case Handing(c) => HandoffIsNearer(c, s, pick);
  }

  lemma ScanIsNearer(c: ClaimPc, s: Store, pick: Fence)
    requires c.ClaimScan? && Listed(Claiming(c), s) && GoodPick(Claiming(c), pick)
    ensures var m := ScanStep(c, s, pick);
      m.Stay? ==> m.next.ClaimLockTarget? || (m.next.ClaimScan? && m.next.listed == c.listed && |m.next.listed - m.next.seen| < |c.listed - c.seen|)
  {
    if !(c.listed <= c.seen) {
      assert c.listed - (c.seen + {pick}) == (c.listed - c.seen) - {pick};
    }
  }

  /** A process that runs alone returns. */
  lemma {:induction false} Finishes(pc: Pc, s: Store) returns (n: nat, outcome: Result<Answer>, after: Store)
    requires Listed(pc, s)
    ensures Returns(pc, s, n, outcome, after)
    decreases Ahead(pc), Left(pc)
  {
    hide Step, Put, Ahead, Left, Listed, GoodPick;
    if pc.Done? {
      n, outcome, after := 0, pc.outcome, s;
    } else {
      var pick := PickOne(pc);
      StepIsNearer(pc, s, pick);
      n, outcome, after := Finishes(Step(pc, s, true, pick).0, Put(s, Step(pc, s, true, pick).1));
      n := n + 1;
    }
  }

  lemma PickOne(pc: Pc) returns (pick: Fence)
    ensures GoodPick(pc, pick)
  {
    if pc.Claiming? && pc.claiming.ClaimScan? && !(pc.claiming.listed <= pc.claiming.seen) {
      pick :| pick in pc.claiming.listed && pick !in pc.claiming.seen;
    } else {
      pick := Fence(0, Host(0, 0, 0, 0));
    }
  }

  /** Every call, begun alone on any files, returns; with what, the theorems about the single calls say. */
  lemma SoloReturns(pc: Pc, s: Store)
    requires Entry(pc)
    ensures exists n, outcome, after :: Returns(pc, s, n, outcome, after)
  {
    hide Returns;
    var n, outcome, after := Finishes(pc, s);
  }

  // ----- claim -----

  ghost predicate ClaimEnds(s: Store, core: OperationIdentity, existing: Option<OperationRecord>, allowed: bool,
                            outcome: Result<Answer>, after: Store) {
    if allowed then
      && outcome == Ok(RecordAnswer(if existing.Some? then existing.value else Initial(core)))
      && after == s.(records := if existing.Some? then s.records else s.records[core.op := Initial(core)],
                     owners := s.owners[FenceOf(core) := OwnershipOf(core)])
    else outcome.Err? && after == s
  }

  lemma ClaimWrites(c: ClaimPc, core: OperationIdentity, existing: Option<OperationRecord>, s: Store, n: nat,
                    outcome: Result<Answer>, after: Store)
    requires ClaimAccepted(core, existing) == Goes(c) && Returns(Claiming(c), s, n, outcome, after)
    ensures ClaimEnds(s, core, existing, true, outcome, after)
  {
    hide Returns;
    var m, pick := ClaimMoves(c, s, n, outcome, after);
    if existing.None? {
      var m', pick' := ClaimMoves(m.next, Put(s, m.effect), n - 1, outcome, after);
    }
  }

  lemma ClaimReadsExpired(c: ClaimPc, s: Store, n: nat, outcome: Result<Answer>, after: Store)
    requires c.ClaimReadExpired? && ClaimOk(c, s) && Returns(Claiming(c), s, n, outcome, after)
    ensures ClaimEnds(s, c.core, c.existing, CanOwn(s, c.core), outcome, after)
  {
    hide Returns, ClaimEnds, ExpiredClaimOf, ExistingOk, ValidIdentity;
    var m, pick := ClaimMoves(c, s, n, outcome, after);
    if m.Stay? {
      ClaimWrites(m.next, c.core, c.existing, s, n - 1, outcome, after);
    } else {
      Refused(s, c.core, c.existing, outcome, after);
    }
  }

  lemma Refused(s: Store, core: OperationIdentity, existing: Option<OperationRecord>, outcome: Result<Answer>,
                after: Store)
    requires outcome.Err? && after == s
    ensures ClaimEnds(s, core, existing, false, outcome, after)
  {
  }

  lemma ClaimReadsPredecessor(c: ClaimPc, s: Store, n: nat, outcome: Result<Answer>, after: Store)
    requires c.ClaimReadPredecessor? && ClaimOk(c, s) && RecordsValid(s) && Returns(Claiming(c), s, n, outcome, after)
    ensures ClaimEnds(s, c.core, c.existing, CanOwn(s, c.core), outcome, after)
  {
    hide Returns, ClaimEnds, ReissueOf, ExpiredClaimOf, ExistingOk, ValidIdentity, ValidRecord;
    var m, pick := ClaimMoves(c, s, n, outcome, after);
    if m.End? {
      Refused(s, c.core, c.existing, outcome, after);
    } else if m.next.ClaimReadExpired? {
      ReadPredecessorOk(c, s, true, pick);
      ClaimReadsExpired(m.next, s, n - 1, outcome, after);
    } else {
      ClaimWrites(m.next, c.core, c.existing, s, n - 1, outcome, after);
    }
  }

  lemma ClaimReadsOwner(c: ClaimPc, s: Store, n: nat, outcome: Result<Answer>, after: Store)
    requires c.ClaimReadOwner? && ClaimOk(c, s) && RecordsValid(s) && Returns(Claiming(c), s, n, outcome, after)
    ensures ClaimEnds(s, c.core, c.existing, CanOwn(s, c.core), outcome, after)
  {
    hide Returns, ClaimEnds, ReissueOf, ExpiredClaimOf, ExistingOk, ValidIdentity, RecordsValid, Settled;
    var m, pick := ClaimMoves(c, s, n, outcome, after);
    if m.End? {
      Refused(s, c.core, c.existing, outcome, after);
    } else if m.next.ClaimReadPredecessor? {
      ReadOwnerOk(c, s, true, pick);
      ClaimReadsPredecessor(m.next, s, n - 1, outcome, after);
    } else {
      ClaimWrites(m.next, c.core, c.existing, s, n - 1, outcome, after);
    }
  }

  lemma ClaimLocksTarget(c: ClaimPc, s: Store, n: nat, outcome: Result<Answer>, after: Store)
    requires c.ClaimLockTarget? && ClaimOk(c, s) && RecordsValid(s) && Returns(Claiming(c), s, n, outcome, after)
    ensures ClaimEnds(s, c.core, c.existing, CanOwn(s, c.core), outcome, after)
  {
    hide Returns, ClaimEnds, CanOwn, ExistingOk, ValidIdentity, RecordsValid;
    var m, pick := ClaimMoves(c, s, n, outcome, after);
    ClaimReadsOwner(ClaimReadOwner(c.core, c.existing), s, n - 1, outcome, after);
  }

  /** What a scan that has read some of the listed pointers has found. */
  ghost predicate Scanned(s: Store, core: OperationIdentity, seen: set<Fence>, matched: bool) {
    && seen <= s.owners.Keys && |seen| <= MAX_STATE_ROOT_ENTRIES
    && (matched ==> FenceOf(core) in seen)
    && (forall g :: g in seen && s.owners[g].current == core.op ==> g == FenceOf(core) && s.owners[g] == OwnershipOf(core))
  }

  lemma ScanReadsOne(c: ClaimPc, s: Store, pick: Fence)
    requires c.ClaimScan? && Scanned(s, c.core, c.seen, c.matched) && pick in s.owners && pick !in c.seen
    ensures var m := ScanStep(c, s, pick);
      && m.effect.NoEffect?
      && (m.End? ==> m.outcome.Err? && !(|s.owners| <= MAX_STATE_ROOT_ENTRIES && ProjectionsAgree(s, c.core)))
      && (m.Stay? ==> m.next.ClaimScan? && m.next.core == c.core && m.next.listed == c.listed
                      && Scanned(s, c.core, m.next.seen, m.next.matched))
  {
    LegacyOwners.SubsetCard(c.seen + {pick}, s.owners.Keys);
  }

  lemma ScanReadAll(s: Store, core: OperationIdentity, seen: set<Fence>, matched: bool)
    requires Scanned(s, core, seen, matched) && s.owners.Keys <= seen
    ensures |s.owners| <= MAX_STATE_ROOT_ENTRIES && ProjectionsAgree(s, core)
  {
    assert seen == s.owners.Keys && |s.owners| == |s.owners.Keys|;
  }

  lemma {:induction false} ClaimScans(c: ClaimPc, s: Store, n: nat, outcome: Result<Answer>, after: Store)
    requires c.ClaimScan? && ClaimOk(c, s) && RecordsValid(s) && Returns(Claiming(c), s, n, outcome, after)
    requires c.listed == s.owners.Keys && Scanned(s, c.core, c.seen, c.matched)
    ensures ClaimEnds(s, c.core, None, |s.owners| <= MAX_STATE_ROOT_ENTRIES && ProjectionsAgree(s, c.core) && CanOwn(s, c.core),
                      outcome, after)
    decreases n
  {
    hide Returns, ClaimEnds, CanOwn, ValidIdentity, RecordsValid, Scanned, ProjectionsAgree, ScanOk, ExistingOk;
    var m, pick := ClaimMoves(c, s, n, outcome, after);
    ScanStepOk(c, s, pick);
    if pick in s.owners && pick !in c.seen {
      ScanReadsOne(c, s, pick);
      hide ScanStep;
      if m.End? {
        Refused(s, c.core, None, outcome, after);
      } else {
        ClaimScans(m.next, s, n - 1, outcome, after);
      }
    } else if c.listed <= c.seen {
      ScanReadAll(s, c.core, c.seen, c.matched);
      ClaimLocksTarget(m.next, s, n - 1, outcome, after);
    } else {
      ClaimScans(c, s, n - 1, outcome, after);
    }
  }

  /** A claim that runs alone does what `Claim` does. */
  lemma SoloClaim(core: OperationIdentity, s: Store, h: History, n: nat, outcome: Result<Answer>, after: Store)
    requires Consistent(s, h) && ValidIdentity(core)
    requires Returns(Claiming(ClaimLockId(core)), s, n, outcome, after)
    ensures if ClaimAllowed(s, core) then outcome == Ok(RecordAnswer(ClaimedRecord(s, core))) && after == ClaimAfter(s, core)
            else outcome.Err? && after == s
  {
    hide Returns, CanOwn, ValidIdentity, RecordsValid, OwnersValid, HistoryCurrent, Chained, UnownedPlanned, ClaimsValid;
    var m, pick := ClaimMoves(ClaimLockId(core), s, n, outcome, after);
    var m1, pick1 := ClaimMoves(ClaimRead(core), s, n - 1, outcome, after);
    if core.op !in s.records {
      var m2, pick2 := ClaimMoves(ClaimList(core), s, n - 2, outcome, after);
      ClaimScans(ClaimScan(core, s.owners.Keys, {}, false), s, n - 3, outcome, after);
    } else if s.records[core.op].core == core {
      ClaimLocksTarget(ClaimLockTarget(core, Some(s.records[core.op])), s, n - 2, outcome, after);
      assert s.records[core.op := s.records[core.op]] == s.records;
    }
  }

  // ----- changing a record -----

  lemma ChangeMoves(c: ChangePc, s: Store, n: nat, outcome: Result<Answer>, after: Store) returns (m: Move<ChangePc>)
    requires Returns(Changing(c), s, n, outcome, after)
    ensures m == ChangeStep(c, s, true)
    ensures m.Stay? ==> n > 0 && Returns(Changing(m.next), Put(s, m.effect), n - 1, outcome, after)
    ensures m.End? ==> m.outcome == outcome && after == Put(s, m.effect)
  {
    hide ChangeStep;
    var pick :| Returns(Step(Changing(c), s, true, pick).0, Put(s, Step(Changing(c), s, true, pick).1), n - 1, outcome, after);
    m := ChangeStep(c, s, true);
  }

  ghost predicate ChangeEnds(s: Store, op: Token, change: Change, outcome: Result<Answer>, after: Store) {
    if Enabled(s, UpdateRecord(op, change)) then
      after == After(s, UpdateRecord(op, change)) && outcome == Ok(RecordAnswer(after.records[op]))
    else if ExpiryRecorded(s, op, change) then after == s && outcome == Ok(RecordAnswer(s.records[op]))
    else outcome.Err? && after == s
  }

  lemma ChangeRefused(s: Store, op: Token, change: Change, outcome: Result<Answer>, after: Store)
    requires !Enabled(s, UpdateRecord(op, change)) && !ExpiryRecorded(s, op, change) && outcome.Err? && after == s
    ensures ChangeEnds(s, op, change, outcome, after)
  {
  }

  lemma ChangeWrites(c: ChangePc, s: Store, n: nat, outcome: Result<Answer>, after: Store)
    requires c.ChangeWrite? && ChangeOk(c, s) && Returns(Changing(c), s, n, outcome, after)
    ensures ChangeEnds(s, c.record.core.op, c.change, outcome, after)
  {
    hide Returns, IsCurrent, CompletionVerified, ValidRecord;
    var m := ChangeMoves(c, s, n, outcome, after);
    assert Changed(c.record, c.change).value.core == c.record.core;
  }

  /** The completion check reads the rest of the connectors. */
  lemma {:induction false} ChangeVerifies(c: ChangePc, s: Store, n: nat, outcome: Result<Answer>, after: Store)
    requires c.ChangeVerifyOwner? && ChangeOk(c, s) && Returns(Changing(c), s, n, outcome, after)
    requires Changed(c.record, c.change).value.phase == Completed
    ensures ChangeEnds(s, c.record.core.op, c.change, outcome, after)
    decreases n
  {
    hide Returns, ChangeEnds, IsCurrent, ValidRecord, Changed;
    var m := ChangeMoves(c, s, n, outcome, after);
    VerifyOwnerOk(c, s, true);
    if m.End? {
      assert !ConnectorDone(s, c.record.core.op, Connectors(c.record.core.binding.workload)[c.verified].instance);
      ChangeRefused(s, c.record.core.op, c.change, outcome, after);
    } else if m.next.ChangeWrite? {
      ChangeWrites(m.next, s, n - 1, outcome, after);
    } else {
      var m' := ChangeMoves(m.next, s, n - 1, outcome, after);
      VerifyClaimOk(m.next, s, true);
      if m'.End? {
        assert !ConnectorDone(s, c.record.core.op, Connectors(c.record.core.binding.workload)[c.verified].instance);
        ChangeRefused(s, c.record.core.op, c.change, outcome, after);
      } else {
        ChangeVerifies(m'.next, s, n - 2, outcome, after);
      }
    }
  }

  lemma ChangeIsAccepted(m: Move<ChangePc>, change: Change, fence: Fence, record: OperationRecord, s: Store, n: nat,
                         outcome: Result<Answer>, after: Store)
    requires m == ChangeAccepted(change, fence, record) && OwningRecord(s, fence, record)
    requires change.Expire? ==>
      && ClaimKey(change.instance, record.core.op) in s.claims
      && s.claims[ClaimKey(change.instance, record.core.op)].phase == ClaimExpired
      && record.phase != ExpiredUnclaimed
    requires m.Stay? ==> n > 0 && Returns(Changing(m.next), s, n - 1, outcome, after)
    requires m.End? ==> m.outcome == outcome && after == s
    ensures ChangeEnds(s, record.core.op, change, outcome, after)
  {
    hide Returns, ChangeEnds, ValidRecord, Changed, CompletionVerified;
    ChangeAcceptedOk(s, change, fence, record);
    if m.End? {
      ChangeRefused(s, record.core.op, change, outcome, after);
    } else if m.next.ChangeWrite? {
      ChangeWrites(m.next, s, n - 1, outcome, after);
    } else {
      ChangeVerifies(m.next, s, n - 1, outcome, after);
    }
  }

  lemma ChangeReadsOwner(c: ChangePc, s: Store, n: nat, outcome: Result<Answer>, after: Store)
    requires c.ChangeReadOwner? && ChangeOk(c, s) && Returns(Changing(c), s, n, outcome, after)
    ensures ChangeEnds(s, c.record.core.op, c.change, outcome, after)
  {
    hide Returns, ChangeEnds, ValidRecord, Changed, CompletionVerified;
    var m := ChangeMoves(c, s, n, outcome, after);
    if !IsCurrent(s, c.record.core) {
      ChangeRefused(s, c.record.core.op, c.change, outcome, after);
    } else if !c.change.Expire? {
      ChangeIsAccepted(m, c.change, c.fence, c.record, s, n, outcome, after);
    } else {
      ChangeReadsClaim(m.next, s, n - 1, outcome, after);
    }
  }

  lemma ChangeReadsClaim(c: ChangePc, s: Store, n: nat, outcome: Result<Answer>, after: Store)
    requires c.ChangeReadClaim? && c.change.Expire? && ChangeOk(c, s) && Returns(Changing(c), s, n, outcome, after)
    ensures ChangeEnds(s, c.record.core.op, c.change, outcome, after)
  {
    hide Returns, Changed, ValidRecord, CompletionVerified, ChangeEnds;
    var m := ChangeMoves(c, s, n, outcome, after);
    var key := ClaimKey(c.change.instance, c.record.core.op);
    if key !in s.claims || s.claims[key].phase != ClaimExpired {
      ChangeRefused(s, c.record.core.op, c.change, outcome, after);
    } else if c.record.phase != ExpiredUnclaimed {
      ChangeIsAccepted(m, c.change, c.fence, c.record, s, n, outcome, after);
    } else {
      ExpiredAlready(s, c.record.core.op, c.change, outcome, after);
    }
  }

  lemma ExpiredAlready(s: Store, op: Token, change: Change, outcome: Result<Answer>, after: Store)
    requires ExpiryRecorded(s, op, change) && outcome == Ok(RecordAnswer(s.records[op])) && after == s
    ensures ChangeEnds(s, op, change, outcome, after)
  {
  }

  /** A change that runs alone does what the method of its name does. */
  lemma SoloChange(op: Token, change: Change, s: Store, n: nat, outcome: Result<Answer>, after: Store)
    requires RecordsValid(s) && Returns(Changing(ChangeRead(op, change)), s, n, outcome, after)
    ensures ChangeEnds(s, op, change, outcome, after)
  {
    hide Returns, ChangeAccepted, ValidRecord, Changed, CompletionVerified;
    var m := ChangeMoves(ChangeRead(op, change), s, n, outcome, after);
    if op in s.records {
      var m1 := ChangeMoves(m.next, s, n - 1, outcome, after);
      var m2 := ChangeMoves(m1.next, s, n - 2, outcome, after);
      ChangeReadsOwner(m2.next, s, n - 3, outcome, after);
    }
  }

  // ----- claiming a connector -----

  lemma ConnectorMoves(c: ConnectorPc, s: Store, n: nat, outcome: Result<Answer>, after: Store)
    returns (m: Move<ConnectorPc>)
    requires Returns(Connecting(c), s, n, outcome, after)
    ensures m == ConnectorStep(c, s, true)
    ensures m.Stay? ==> n > 0 && Returns(Connecting(m.next), Put(s, m.effect), n - 1, outcome, after)
    ensures m.End? ==> m.outcome == outcome && after == Put(s, m.effect)
  {
    hide ConnectorStep;
    var pick :| Returns(Step(Connecting(c), s, true, pick).0, Put(s, Step(Connecting(c), s, true, pick).1), n - 1, outcome, after);
    m := ConnectorStep(c, s, true);
  }

  ghost predicate ConnectorEnds(s: Store, claim: ClaimIdentity, allowed: bool, outcome: Result<Answer>, after: Store) {
    if !allowed then outcome.Err? && after == s
    else if ForeignClaim(s, claim) then
      outcome == Err(Conflict) && after == s.(connOwners := s.connOwners[claim.instance := ConnectorOwnershipOf(claim)])
    else after == ConnectorAfter(s, claim) && outcome == Ok(ClaimAnswer(HeldClaim(s, claim)))
  }

  lemma ConnectorConverges(c: ConnectorPc, s: Store, n: nat, outcome: Result<Answer>, after: Store)
    requires c.ConnectorReadClaim? && ConnectorOk(c, s) && Returns(Connecting(c), s, n, outcome, after)
    ensures ConnectorEnds(s, c.claim, true, outcome, after)
  {
    hide Returns, ClaimAdmitted;
    var m := ConnectorMoves(c, s, n, outcome, after);
    var key := ClaimKey(c.claim.instance, c.claim.op);
    assert s.connOwners[c.claim.instance := ConnectorOwnershipOf(c.claim)] == s.connOwners;
    if key in s.claims {
      assert s.claims[key := s.claims[key]] == s.claims;
      assert s.(connOwners := s.connOwners) == s;
    } else {
      var m' := ConnectorMoves(m.next, s, n - 1, outcome, after);
    }
  }

  lemma ConnectorPublishes(c: ConnectorPc, s: Store, n: nat, outcome: Result<Answer>, after: Store)
    requires c.ConnectorWriteOwner? && ConnectorOk(c, s) && Returns(Connecting(c), s, n, outcome, after)
    ensures ConnectorEnds(s, c.claim, true, outcome, after)
  {
    hide Returns, ClaimAdmitted, PriorAllows;
    var m := ConnectorMoves(c, s, n, outcome, after);
    AfterConnectorOwnerOk(c.claim, c.fence, s);
    var t := Put(s, m.effect);
    ConnectorConverges(m.next, t, n - 1, outcome, after);
    assert t.connOwners[c.claim.instance := ConnectorOwnershipOf(c.claim)] == t.connOwners;
  }

  lemma ConnectorReadsPrior(c: ConnectorPc, s: Store, n: nat, outcome: Result<Answer>, after: Store)
    requires c.ConnectorReadPrior? && ConnectorOk(c, s) && Returns(Connecting(c), s, n, outcome, after)
    ensures ConnectorEnds(s, c.claim, ConnectorOpen(s, c.claim), outcome, after)
  {
    hide Returns, MatchesParent, ConnectorPredecessor, PriorAllows, IsCurrent;
    var m := ConnectorMoves(c, s, n, outcome, after);
    if m.Stay? {
      var m' := ConnectorMoves(m.next, s, n - 1, outcome, after);
      if m'.Stay? {
        ConnectorPublishes(m'.next, s, n - 2, outcome, after);
      }
    }
  }

  lemma ConnectorReadsOwner(c: ConnectorPc, s: Store, n: nat, outcome: Result<Answer>, after: Store)
    requires c.ConnectorReadOwner? && ConnectorOk(c, s) && Returns(Connecting(c), s, n, outcome, after)
    ensures ConnectorEnds(s, c.claim, ConnectorOpen(s, c.claim), outcome, after)
  {
    hide Returns, MatchesParent, ConnectorPredecessor, PriorAllows, IsCurrent, ConnectorEnds;
    var m := ConnectorMoves(c, s, n, outcome, after);
    if m.End? {
      assert !ConnectorOpen(s, c.claim);
      ConnectorRefused(s, c.claim, outcome, after);
    } else if m.next.ConnectorWriteOwner? {
      ConnectorPublishes(m.next, s, n - 1, outcome, after);
    } else if m.next.ConnectorReadClaim? {
      ConnectorConverges(m.next, s, n - 1, outcome, after);
    } else {
      ConnectorReadsPrior(m.next, s, n - 1, outcome, after);
    }
  }

  lemma ConnectorRefused(s: Store, claim: ClaimIdentity, outcome: Result<Answer>, after: Store)
    requires outcome.Err? && after == s
    ensures ConnectorEnds(s, claim, false, outcome, after)
  {
  }

  lemma ConnectorReadsTarget(c: ConnectorPc, s: Store, n: nat, outcome: Result<Answer>, after: Store)
    requires c.ConnectorReadTarget? && ConnectorOk(c, s) && Returns(Connecting(c), s, n, outcome, after)
    ensures ConnectorEnds(s, c.claim, ConnectorOpen(s, c.claim), outcome, after)
  {
    hide Returns, MatchesParent, ConnectorPredecessor, PriorAllows, ConnectorEnds;
    var m := ConnectorMoves(c, s, n, outcome, after);
    if m.End? {
      OpenNeedsAdmission(s, c.claim);
      ConnectorRefused(s, c.claim, outcome, after);
    } else {
      var m1 := ConnectorMoves(m.next, s, n - 1, outcome, after);
      var m2 := ConnectorMoves(m1.next, s, n - 2, outcome, after);
      OpenNeedsAdmission(s, c.claim);
      if m2.End? {
        ConnectorRefused(s, c.claim, outcome, after);
      } else {
        ConnectorReadsOwner(m2.next, s, n - 3, outcome, after);
      }
    }
  }

  lemma OpenNeedsAdmission(s: Store, claim: ClaimIdentity)
    ensures ConnectorOpen(s, claim) ==> ClaimAdmitted(s, claim)
  {
    hide MatchesParent, ConnectorPredecessor, PriorAllows, IsCurrent;
  }

  /** A connector claim that runs alone does what `ClaimConnector` does. */
  lemma SoloConnectorClaim(claim: ClaimIdentity, host: Host, s: Store, n: nat, outcome: Result<Answer>, after: Store)
    requires RecordsValid(s) && claim.predecessor != Some(claim.op)
    requires Returns(Connecting(ConnectorReadParent(claim, host)), s, n, outcome, after)
    ensures ConnectorEnds(s, claim, ConnectorAllowed(s, claim, host), outcome, after)
  {
    hide Returns, MatchesParent, ConnectorPredecessor, PriorAllows, IsCurrent, ConnectorEnds, ConnectorOpen, ValidRecord;
    OpenNeedsAdmission(s, claim);
    var m := ConnectorMoves(ConnectorReadParent(claim, host), s, n, outcome, after);
    if m.End? {
      ConnectorRefused(s, claim, outcome, after);
    } else {
      var m1 := ConnectorMoves(m.next, s, n - 1, outcome, after);
      var m2 := ConnectorMoves(m1.next, s, n - 2, outcome, after);
      ConnectorReadsTarget(m2.next, s, n - 3, outcome, after);
    }
  }

  // ----- observing, releasing or expiring a connector claim -----

  lemma HandoffMoves(c: HandoffPc, s: Store, n: nat, outcome: Result<Answer>, after: Store) returns (m: Move<HandoffPc>)
    requires Returns(Handing(c), s, n, outcome, after)
    ensures m == HandoffStep(c, s, true)
    ensures m.Stay? ==> n > 0 && Returns(Handing(m.next), Put(s, m.effect), n - 1, outcome, after)
    ensures m.End? ==> m.outcome == outcome && after == Put(s, m.effect)
  {
    hide HandoffStep;
    var pick :| Returns(Step(Handing(c), s, true, pick).0, Put(s, Step(Handing(c), s, true, pick).1), n - 1, outcome, after);
    m := HandoffStep(c, s, true);
  }

  ghost predicate HandoffEnds(s: Store, i: Token, move: ClaimChange, outcome: Result<Answer>, after: Store) {
    if Enabled(s, UpdateClaim(i, move)) || ChangeRecorded(s, i, move) then
      && after == (if Enabled(s, UpdateClaim(i, move)) then After(s, UpdateClaim(i, move)) else s)
      && ClaimKey(i, s.connOwners[i].current) in after.claims
      && outcome == Ok(ClaimAnswer(after.claims[ClaimKey(i, s.connOwners[i].current)]))
    else outcome.Err? && after == s
  }

  /** A claim change that runs alone does what the method of its name does. */
  lemma SoloHandoff(i: Token, move: ClaimChange, s: Store, n: nat, outcome: Result<Answer>, after: Store)
    requires RecordsValid(s) && ClaimsValid(s)
    requires Returns(Handing(HandoffReadOwner(i, move)), s, n, outcome, after)
    ensures HandoffEnds(s, i, move, outcome, after)
  {
    hide Returns, ClaimsValid, ValidRecord, IsCurrent, HandoffEnds, Enabled, ClaimChanged;
    var m := HandoffMoves(HandoffReadOwner(i, move), s, n, outcome, after);
    if m.End? {
      HandoffRefused(s, i, move, outcome, after);
    } else {
      var m1 := HandoffMoves(m.next, s, n - 1, outcome, after);
      if m1.End? {
        HandoffRefused(s, i, move, outcome, after);
      } else {
        ClaimNamed(s, ClaimKey(i, s.connOwners[i].current));
        var m2 := HandoffMoves(m1.next, s, n - 2, outcome, after);
        var m3 := HandoffMoves(m2.next, s, n - 3, outcome, after);
        var m4 := HandoffMoves(m3.next, s, n - 4, outcome, after);
        HandoffReadsTarget(m4.next, s, n - 5, outcome, after);
      }
    }
  }

  lemma ClaimNamed(s: Store, key: ClaimKey)
    requires ClaimsValid(s) && key in s.claims
    ensures s.claims[key].core.op == key.op && s.claims[key].core.instance == key.instance && key.op in s.records
  {
    assert Canonical(s.records, key.op, key.instance, s.claims[key].core);
  }

  lemma HandoffRefused(s: Store, i: Token, move: ClaimChange, outcome: Result<Answer>, after: Store)
    requires !CurrentConnector(s, i) || (CurrentClaim(s, i).phase != ClaimTarget(move) && ClaimChanged(CurrentClaim(s, i).phase, move).Err?)
    requires outcome.Err? && after == s
    ensures HandoffEnds(s, i, move, outcome, after)
  {
  }

  lemma HandoffReadsTarget(c: HandoffPc, s: Store, n: nat, outcome: Result<Answer>, after: Store)
    requires c.HandoffReadTarget? && RecordsValid(s) && ClaimsValid(s) && c.instance in s.connOwners
    requires c.parent.op == s.connOwners[c.instance].current && c.parent.op in s.records
    requires s.records[c.parent.op].core == c.parent
    requires ClaimKey(c.instance, c.parent.op) in s.claims
    requires Returns(Handing(c), s, n, outcome, after)
    ensures HandoffEnds(s, c.instance, c.move, outcome, after)
  {
    hide Returns, ClaimsValid, RecordsValid, HandoffEnds, Enabled, ClaimChanged;
    var key := ClaimKey(c.instance, c.parent.op);
    ClaimNamed(s, key);
    var m := HandoffMoves(c, s, n, outcome, after);
    if m.End? {
      HandoffRefused(s, c.instance, c.move, outcome, after);
    } else {
      var m1 := HandoffMoves(m.next, s, n - 1, outcome, after);
      var m2 := HandoffMoves(m1.next, s, n - 2, outcome, after);
      var m3 := HandoffMoves(m2.next, s, n - 3, outcome, after);
      if m3.Stay? {
        var m4 := HandoffMoves(m3.next, s, n - 4, outcome, after);
        HandoffWrites(s, c.instance, c.move, outcome, after);
      } else if outcome.Err? {
        HandoffRefused(s, c.instance, c.move, outcome, after);
      } else {
        HandoffRecorded(s, c.instance, c.move, outcome, after);
      }
    }
  }

  lemma HandoffWrites(s: Store, i: Token, move: ClaimChange, outcome: Result<Answer>, after: Store)
    requires CurrentConnector(s, i) && CurrentClaim(s, i).phase != ClaimTarget(move)
    requires ClaimChanged(CurrentClaim(s, i).phase, move).Ok?
    requires CurrentClaim(s, i).core.op == s.connOwners[i].current && CurrentClaim(s, i).core.instance == i
    requires var claim := CurrentClaim(s, i).(phase := ClaimTarget(move));
      outcome == Ok(ClaimAnswer(claim)) && after == Put(s, PutClaim(claim))
    ensures HandoffEnds(s, i, move, outcome, after)
  {
  }

  lemma HandoffRecorded(s: Store, i: Token, move: ClaimChange, outcome: Result<Answer>, after: Store)
    requires ChangeRecorded(s, i, move) && outcome == Ok(ClaimAnswer(CurrentClaim(s, i))) && after == s
    ensures HandoffEnds(s, i, move, outcome, after)
  {
  }
}
