/** The store's calls as processes that lock, read and write one file at a time.
 *
 * Any number of processes run interleaved, and each may crash between any two of its steps.  A step
 * reads at most one file, tries at most one lock, or replaces one file.  A process that fails to get
 * a lock gives up at once.  The locks a process holds follow from where it stands in its call; the
 * kernel drops them when the call returns or the process dies.
 */
module StepMachine {
  import opened Domain
  import opened Records
  import opened StateActions

  datatype LockId = IdLock(op: Token) | TargetLock(fence: Fence) | ConnectorLock(instance: Token)

  datatype Answer = RecordAnswer(record: OperationRecord) | ClaimAnswer(claim: ConnectorClaim)

  /** Inside `claim`, with what it has read so far. */
  datatype ClaimPc =
    | ClaimLockId(core: OperationIdentity)
    | ClaimRead(core: OperationIdentity)
    | ClaimList(core: OperationIdentity)
    | ClaimScan(core: OperationIdentity, listed: set<Fence>, seen: set<Fence>, matched: bool)
    | ClaimLockTarget(core: OperationIdentity, existing: Option<OperationRecord>)
    | ClaimReadOwner(core: OperationIdentity, existing: Option<OperationRecord>)
    | ClaimReadPredecessor(core: OperationIdentity, existing: Option<OperationRecord>, current: TargetOwnership)
    | ClaimReadExpired(core: OperationIdentity, existing: Option<OperationRecord>, prior: OperationRecord)
    | ClaimWriteRecord(core: OperationIdentity)
    | ClaimWriteOwner(core: OperationIdentity, answer: OperationRecord)

  /** Inside `advance`, `fail`, `resume`, `expire_unclaimed_operation`, `rollback_fence` or `finish_rollback`. */
  datatype ChangePc =
    | ChangeRead(op: Token, change: Change)
    | ChangeLock(op: Token, change: Change, fence: Fence)
    | ChangeReread(op: Token, change: Change, fence: Fence)
    | ChangeReadOwner(change: Change, fence: Fence, record: OperationRecord)
    | ChangeReadClaim(change: Change, fence: Fence, record: OperationRecord)
    | ChangeVerifyOwner(change: Change, fence: Fence, record: OperationRecord, verified: nat)
    | ChangeVerifyClaim(change: Change, fence: Fence, record: OperationRecord, verified: nat, owner: ConnectorOwnership)
    | ChangeWrite(change: Change, fence: Fence, record: OperationRecord)

  /** Inside `claim_connector`. */
  datatype ConnectorPc =
    | ConnectorReadParent(claim: ClaimIdentity, host: Host)
    | ConnectorLockTarget(claim: ClaimIdentity, fence: Fence)
    | ConnectorReread(claim: ClaimIdentity, fence: Fence)
    | ConnectorReadTarget(claim: ClaimIdentity, fence: Fence, parent: OperationIdentity)
    | ConnectorLockInstance(claim: ClaimIdentity, fence: Fence, parent: OperationIdentity)
    | ConnectorReadPredecessor(claim: ClaimIdentity, fence: Fence, parent: OperationIdentity)
    | ConnectorReadOwner(claim: ClaimIdentity, fence: Fence, parent: OperationIdentity)
    | ConnectorReadPrior(claim: ClaimIdentity, fence: Fence, parent: OperationIdentity, owner: ConnectorOwnership)
    | ConnectorReadPriorParent(claim: ClaimIdentity, fence: Fence, parent: OperationIdentity,
                               owner: ConnectorOwnership, priorClaim: ConnectorClaim)
    | ConnectorWriteOwner(claim: ClaimIdentity, fence: Fence)
    | ConnectorReadClaim(claim: ClaimIdentity, fence: Fence)
    | ConnectorWriteClaim(claim: ClaimIdentity, fence: Fence)

  /** Inside `observe_connector_handoff`, `release_connector_claim` or `expire_unclaimed_connector_claim`. */
  datatype HandoffPc =
    | HandoffReadOwner(instance: Token, move: ClaimChange)
    | HandoffReadClaim(instance: Token, move: ClaimChange, op: Token)
    | HandoffReadParent(instance: Token, move: ClaimChange, op: Token)
    | HandoffLockTarget(instance: Token, move: ClaimChange, op: Token, fence: Fence)
    | HandoffReread(instance: Token, move: ClaimChange, op: Token, fence: Fence)
    | HandoffReadTarget(instance: Token, move: ClaimChange, fence: Fence, parent: OperationIdentity)
    | HandoffLockInstance(instance: Token, move: ClaimChange, fence: Fence, parent: OperationIdentity)
    | HandoffReadOwnerAgain(instance: Token, move: ClaimChange, fence: Fence, parent: OperationIdentity)
    | HandoffReadClaimAgain(instance: Token, move: ClaimChange, fence: Fence, parent: OperationIdentity,
                            owner: ConnectorOwnership)
    | HandoffWrite(instance: Token, move: ClaimChange, fence: Fence, held: ConnectorClaim)

  /** Where a process stands in its call. */
  datatype Pc =
    | Done(outcome: Result<Answer>)
    | Claiming(claiming: ClaimPc)
    | Changing(changing: ChangePc)
    | Connecting(connecting: ConnectorPc)
    | Handing(handing: HandoffPc)

  function ClaimHeld(pc: ClaimPc): set<LockId> {
    match pc
    case ClaimRead(core) => {IdLock(core.op)}
    case ClaimList(core) => {IdLock(core.op)}
    case ClaimScan(core, _, _, _) => {IdLock(core.op)}
    case ClaimLockTarget(core, _) => {IdLock(core.op)}
    case ClaimReadOwner(core, _) => {IdLock(core.op), TargetLock(FenceOf(core))}
    case ClaimReadPredecessor(core, _, _) => {IdLock(core.op), TargetLock(FenceOf(core))}
    case ClaimReadExpired(core, _, _) => {IdLock(core.op), TargetLock(FenceOf(core))}
    case ClaimWriteRecord(core) => {IdLock(core.op), TargetLock(FenceOf(core))}
    case ClaimWriteOwner(core, _) => {IdLock(core.op), TargetLock(FenceOf(core))}
    case _ => {}
  }

  function ChangeHeld(pc: ChangePc): set<LockId> {
    match pc
    case ChangeReread(_, _, fence) => {TargetLock(fence)}
    case ChangeReadOwner(_, fence, _) => {TargetLock(fence)}
    case ChangeReadClaim(_, fence, _) => {TargetLock(fence)}
    case ChangeVerifyOwner(_, fence, _, _) => {TargetLock(fence)}
    case ChangeVerifyClaim(_, fence, _, _, _) => {TargetLock(fence)}
    case ChangeWrite(_, fence, _) => {TargetLock(fence)}
    case _ => {}
  }

  function ConnectorHeld(pc: ConnectorPc): set<LockId> {
    match pc
    case ConnectorReread(_, fence) => {TargetLock(fence)}
    case ConnectorReadTarget(_, fence, _) => {TargetLock(fence)}
    case ConnectorLockInstance(_, fence, _) => {TargetLock(fence)}
    case ConnectorReadPredecessor(claim, fence, _) => {TargetLock(fence), ConnectorLock(claim.instance)}
    case ConnectorReadOwner(claim, fence, _) => {TargetLock(fence), ConnectorLock(claim.instance)}
    case ConnectorReadPrior(claim, fence, _, _) => {TargetLock(fence), ConnectorLock(claim.instance)}
    case ConnectorReadPriorParent(claim, fence, _, _, _) => {TargetLock(fence), ConnectorLock(claim.instance)}
    case ConnectorWriteOwner(claim, fence) => {TargetLock(fence), ConnectorLock(claim.instance)}
    case ConnectorReadClaim(claim, fence) => {TargetLock(fence), ConnectorLock(claim.instance)}
    case ConnectorWriteClaim(claim, fence) => {TargetLock(fence), ConnectorLock(claim.instance)}
    case _ => {}
  }

  function HandoffHeld(pc: HandoffPc): set<LockId> {
    match pc
    case HandoffReread(_, _, _, fence) => {TargetLock(fence)}
    case HandoffReadTarget(_, _, fence, _) => {TargetLock(fence)}
    case HandoffLockInstance(_, _, fence, _) => {TargetLock(fence)}
    case HandoffReadOwnerAgain(instance, _, fence, _) => {TargetLock(fence), ConnectorLock(instance)}
    case HandoffReadClaimAgain(instance, _, fence, _, _) => {TargetLock(fence), ConnectorLock(instance)}
    case HandoffWrite(instance, _, fence, _) => {TargetLock(fence), ConnectorLock(instance)}
    case _ => {}
  }

  function Held(pc: Pc): set<LockId> {
    match pc
    case Done(_) => {}
    case Claiming(c) => ClaimHeld(c)
    case Changing(c) => ChangeHeld(c)
    case Connecting(c) => ConnectorHeld(c)
    case Handing(c) => HandoffHeld(c)
  }

  /** The lock a process tries to take in its next step. */
  function Wanted(pc: Pc): Option<LockId> {
    match pc
    case Claiming(ClaimLockId(core)) => Some(IdLock(core.op))
    case Claiming(ClaimLockTarget(core, _)) => Some(TargetLock(FenceOf(core)))
    case Changing(ChangeLock(_, _, fence)) => Some(TargetLock(fence))
    case Connecting(ConnectorLockTarget(_, fence)) => Some(TargetLock(fence))
    case Connecting(ConnectorLockInstance(claim, _, _)) => Some(ConnectorLock(claim.instance))
    case Handing(HandoffLockTarget(_, _, _, fence)) => Some(TargetLock(fence))
    case Handing(HandoffLockInstance(instance, _, _, _)) => Some(ConnectorLock(instance))
    case _ => None
  }

  /** The file a step replaces. */
  datatype Effect =
    | NoEffect
    | PutRecord(record: OperationRecord)
    | PutOwner(fence: Fence, owner: TargetOwnership)
    | PutConnectorOwner(connectorOwner: ConnectorOwnership)
    | PutClaim(held: ConnectorClaim)

  function Put(s: Store, e: Effect): Store {
    match e
    case NoEffect => s
    case PutRecord(r) => s.(records := s.records[r.core.op := r])
    case PutOwner(fence, o) => s.(owners := s.owners[fence := o])
    case PutConnectorOwner(o) => s.(connOwners := s.connOwners[o.instance := o])
    case PutClaim(c) => s.(claims := s.claims[ClaimKey(c.core.instance, c.core.op) := c])
  }

  /** The pointer histories after a step: a pointer that names a new operation is recorded. */
  function PutHistory(s: Store, h: History, e: Effect): History {
    match e
    case PutOwner(fence, o) =>
      if fence in s.owners && s.owners[fence].current == o.current then h
      else h.(targets := h.targets[fence := TargetHistory(h, fence) + [o.current]])
    case PutConnectorOwner(o) =>
      if o.instance in s.connOwners && s.connOwners[o.instance].current == o.current then h
      else h.(connectors := h.connectors[o.instance := ConnectorHistory(h, o.instance) + [o.current]])
    case _ => h
  }

  /** One step of a call: on to `next`, or back to the caller. */
  datatype Move<+P> = Stay(next: P, effect: Effect) | End(outcome: Result<Answer>, effect: Effect)

  function Fails<P>(e: Error): Move<P> { End(Err(e), NoEffect) }

  function Goes<P>(pc: P): Move<P> { Stay(pc, NoEffect) }

  // ----- one step of each call -----

  function ClaimAccepted(core: OperationIdentity, existing: Option<OperationRecord>): Move<ClaimPc> {
    match existing
    case Some(r) => Goes(ClaimWriteOwner(core, r))
    case None => Goes(ClaimWriteRecord(core))
  }

  function ScanStep(pc: ClaimPc, s: Store, pick: Fence): Move<ClaimPc>
    requires pc.ClaimScan?
  {
    var ClaimScan(core, listed, seen, matched) := pc;
    if pick in s.owners && pick !in seen then
      if |seen + {pick}| > MAX_STATE_ROOT_ENTRIES then Fails(Contract)
      else if s.owners[pick].current != core.op then Goes(pc.(seen := seen + {pick}))
      else if matched || pick != FenceOf(core) || s.owners[pick] != OwnershipOf(core) then Fails(Conflict)
      else Goes(pc.(seen := seen + {pick}, matched := true))
    else if listed <= seen then Goes(ClaimLockTarget(core, None))
    else Goes(pc)
  }

  function ClaimStep(pc: ClaimPc, s: Store, free: bool, pick: Fence): Move<ClaimPc>
  {
    match pc
    case ClaimLockId(core) => if free then Goes(ClaimRead(core)) else Fails(Locked)
    case ClaimRead(core) =>
      if core.op !in s.records then Goes(ClaimList(core))
      else if s.records[core.op].core != core then Fails(Conflict)
      else Goes(ClaimLockTarget(core, Some(s.records[core.op])))
    case ClaimList(core) => Goes(ClaimScan(core, s.owners.Keys, {}, false))
    case ClaimScan(_, _, _, _) => ScanStep(pc, s, pick)
    case ClaimLockTarget(core, existing) => if free then Goes(ClaimReadOwner(core, existing)) else Fails(Locked)
    case ClaimReadOwner(core, existing) =>
      if FenceOf(core) !in s.owners then
        if core.predecessor.Some? then Fails(Conflict) else ClaimAccepted(core, existing)
      else
        var current := s.owners[FenceOf(core)];
        if current.current == core.op then
          if current != OwnershipOf(core) then Fails(Conflict) else ClaimAccepted(core, existing)
        else if
          || current.target != core.target || current.host != core.binding.host
          || core.predecessor != Some(current.current)
        then Fails(Conflict)
        else Goes(ClaimReadPredecessor(core, existing, current))
    case ClaimReadPredecessor(core, existing, current) =>
      if current.current !in s.records then Fails(Missing)
      else
        var prior := s.records[current.current];
        if prior.core != current.identity then Fails(Conflict)
        else if prior.phase == Completed || prior.phase == RollbackConverged then ClaimAccepted(core, existing)
        else if prior.phase != ExpiredUnclaimed then Fails(Conflict)
        else if !ReissueOf(prior.core, core) then Fails(Conflict)
        else Goes(ClaimReadExpired(core, existing, prior))
    case ClaimReadExpired(core, existing, prior) =>
      if !SoleConnector(prior.core) then Fails(Conflict)
      else
        var key := ClaimKey(SoleInstance(prior.core), prior.core.op);
        if key !in s.claims then Fails(Missing)
        else if !ExpiredClaimOf(s.claims[key], prior.core) then Fails(Conflict)
        else ClaimAccepted(core, existing)
    case ClaimWriteRecord(core) => Stay(ClaimWriteOwner(core, Initial(core)), PutRecord(Initial(core)))
    case ClaimWriteOwner(core, answer) => End(Ok(RecordAnswer(answer)), PutOwner(FenceOf(core), OwnershipOf(core)))
  }

  /** What follows once the new record is computed: the completion check, or the write. */
  function ChangeAccepted(change: Change, fence: Fence, record: OperationRecord): Move<ChangePc> {
    var changed := Changed(record, change);
    if changed.Err? then Fails(changed.error)
    else if !ValidRecord(changed.value) then Fails(Contract)
    else if changed.value.phase == Completed then Goes(ChangeVerifyOwner(change, fence, record, 0))
    else Goes(ChangeWrite(change, fence, record))
  }

  function ChangeStep(pc: ChangePc, s: Store, free: bool): Move<ChangePc>
  {
    match pc
    case ChangeRead(op, change) =>
      if op !in s.records then Fails(Missing)
      else Goes(ChangeLock(op, change, FenceOf(s.records[op].core)))
    case ChangeLock(op, change, fence) => if free then Goes(ChangeReread(op, change, fence)) else Fails(Locked)
    case ChangeReread(op, change, fence) =>
      if op !in s.records then Fails(Missing) else Goes(ChangeReadOwner(change, fence, s.records[op]))
    case ChangeReadOwner(change, fence, record) =>
      if fence !in s.owners then Fails(Missing)
      else if s.owners[fence].current != record.core.op || s.owners[fence].identity != record.core then Fails(Conflict)
      else if change.Expire? then Goes(ChangeReadClaim(change, fence, record))
      else ChangeAccepted(change, fence, record)
    case ChangeReadClaim(change, fence, record) =>
      if !change.Expire? then Fails(Contract)
      else
        var key := ClaimKey(change.instance, record.core.op);
        if key !in s.claims then Fails(Missing)
        else if s.claims[key].phase != ClaimExpired then Fails(Conflict)
        else if record.phase == ExpiredUnclaimed then End(Ok(RecordAnswer(record)), NoEffect)
        else ChangeAccepted(change, fence, record)
    case ChangeVerifyOwner(change, fence, record, verified) =>
      var connectors := Connectors(record.core.binding.workload);
      if verified >= |connectors| then Goes(ChangeWrite(change, fence, record))
      else if connectors[verified].instance !in s.connOwners then Fails(Missing)
      else Goes(ChangeVerifyClaim(change, fence, record, verified, s.connOwners[connectors[verified].instance]))
    case ChangeVerifyClaim(change, fence, record, verified, owner) =>
      var connectors := Connectors(record.core.binding.workload);
      if verified >= |connectors| then Fails(Contract)
      else
        var key := ClaimKey(connectors[verified].instance, owner.current);
        if key !in s.claims then Fails(Missing)
        else if
          || owner.current != record.core.op
          || s.claims[key].core != owner.identity
          || s.claims[key].phase != Released
        then Fails(Conflict)
        else Goes(ChangeVerifyOwner(change, fence, record, verified + 1))
    case ChangeWrite(change, fence, record) =>
      var changed := Changed(record, change);
      if changed.Err? then Fails(changed.error)
      else End(Ok(RecordAnswer(changed.value)), PutRecord(changed.value))
  }

  function VerifyCurrent<P>(s: Store, core: OperationIdentity, next: P): Move<P> {
    if FenceOf(core) !in s.owners then Fails(Missing)
    else if s.owners[FenceOf(core)].current != core.op || s.owners[FenceOf(core)].identity != core then Fails(Conflict)
    else Goes(next)
  }

  function ConnectorStep(pc: ConnectorPc, s: Store, free: bool): Move<ConnectorPc>
  {
    match pc
    case ConnectorReadParent(claim, host) =>
      if claim.op !in s.records then Fails(Missing)
      else
        var parent := s.records[claim.op].core;
        if host != parent.binding.host || !MatchesParent(claim, parent) then Fails(Conflict)
        else Goes(ConnectorLockTarget(claim, FenceOf(parent)))
    case ConnectorLockTarget(claim, fence) => if free then Goes(ConnectorReread(claim, fence)) else Fails(Locked)
    case ConnectorReread(claim, fence) =>
      if claim.op !in s.records then Fails(Missing)
      else Goes(ConnectorReadTarget(claim, fence, s.records[claim.op].core))
    case ConnectorReadTarget(claim, fence, parent) =>
      VerifyCurrent(s, parent, ConnectorLockInstance(claim, fence, parent))
    case ConnectorLockInstance(claim, fence, parent) =>
      if free then Goes(ConnectorReadPredecessor(claim, fence, parent)) else Fails(Locked)
    case ConnectorReadPredecessor(claim, fence, parent) =>
      var expected := ConnectorPredecessor(s.records, parent, claim.instance);
      if expected.Err? then Fails(expected.error)
      else if claim.predecessor != expected.value then Fails(Conflict)
      else Goes(ConnectorReadOwner(claim, fence, parent))
    case ConnectorReadOwner(claim, fence, parent) =>
      if claim.instance !in s.connOwners then
        if claim.predecessor.Some? then Fails(Conflict) else Goes(ConnectorWriteOwner(claim, fence))
      else
        var owner := s.connOwners[claim.instance];
        if owner.current == claim.op then
          if owner != ConnectorOwnershipOf(claim) then Fails(Conflict) else Goes(ConnectorReadClaim(claim, fence))
        else if owner.instance != claim.instance then Fails(Conflict)
        else if claim.predecessor.Some? && claim.predecessor.value != owner.current then Fails(Conflict)
        else Goes(ConnectorReadPrior(claim, fence, parent, owner))
    case ConnectorReadPrior(claim, fence, parent, owner) =>
      var key := ClaimKey(claim.instance, owner.current);
      if key !in s.claims then Fails(Missing)
      else Goes(ConnectorReadPriorParent(claim, fence, parent, owner, s.claims[key]))
    case ConnectorReadPriorParent(claim, fence, parent, owner, prior) =>
      if prior.core.op !in s.records then Fails(Missing)
      else if !PriorAllows(prior, s.records[prior.core.op], owner, parent) then Fails(Conflict)
      else Goes(ConnectorWriteOwner(claim, fence))
    case ConnectorWriteOwner(claim, fence) =>
      Stay(ConnectorReadClaim(claim, fence), PutConnectorOwner(ConnectorOwnershipOf(claim)))
    case ConnectorReadClaim(claim, fence) =>
      var key := ClaimKey(claim.instance, claim.op);
      if key !in s.claims then Goes(ConnectorWriteClaim(claim, fence))
      else if s.claims[key].core != claim then Fails(Conflict)
      else End(Ok(ClaimAnswer(s.claims[key])), NoEffect)
    case ConnectorWriteClaim(claim, fence) =>
      End(Ok(ClaimAnswer(ConnectorClaim(claim, Prepared))), PutClaim(ConnectorClaim(claim, Prepared)))
  }

  function HandoffStep(pc: HandoffPc, s: Store, free: bool): Move<HandoffPc>
  {
    match pc
    case HandoffReadOwner(i, move) =>
      if i !in s.connOwners then Fails(Missing) else Goes(HandoffReadClaim(i, move, s.connOwners[i].current))
    case HandoffReadClaim(i, move, op) =>
      if ClaimKey(i, op) !in s.claims then Fails(Missing)
      else Goes(HandoffReadParent(i, move, s.claims[ClaimKey(i, op)].core.op))
    case HandoffReadParent(i, move, op) =>
      if op !in s.records then Fails(Missing) else Goes(HandoffLockTarget(i, move, op, FenceOf(s.records[op].core)))
    case HandoffLockTarget(i, move, op, fence) => if free then Goes(HandoffReread(i, move, op, fence)) else Fails(Locked)
    case HandoffReread(i, move, op, fence) =>
      if op !in s.records then Fails(Missing) else Goes(HandoffReadTarget(i, move, fence, s.records[op].core))
    case HandoffReadTarget(i, move, fence, parent) => VerifyCurrent(s, parent, HandoffLockInstance(i, move, fence, parent))
    case HandoffLockInstance(i, move, fence, parent) =>
      if free then Goes(HandoffReadOwnerAgain(i, move, fence, parent)) else Fails(Locked)
    case HandoffReadOwnerAgain(i, move, fence, parent) =>
      if i !in s.connOwners then Fails(Missing)
      else Goes(HandoffReadClaimAgain(i, move, fence, parent, s.connOwners[i]))
    case HandoffReadClaimAgain(i, move, fence, parent, owner) =>
      var key := ClaimKey(i, owner.current);
      if key !in s.claims then Fails(Missing)
      else if owner.instance != i || s.claims[key].core != owner.identity || s.claims[key].core.op != parent.op then Fails(Conflict)
      else if s.claims[key].phase == ClaimTarget(move) then End(Ok(ClaimAnswer(s.claims[key])), NoEffect)
      else
        var changed := ClaimChanged(s.claims[key].phase, move);
        if changed.Err? then Fails(changed.error) else Goes(HandoffWrite(i, move, fence, s.claims[key]))
    case HandoffWrite(i, move, fence, held) =>
      var claim := held.(phase := ClaimTarget(move));
      End(Ok(ClaimAnswer(claim)), PutClaim(claim))
  }

  /** One step of a process: where it stands next and which file it replaces.  `free` says whether the
   *  lock it wants is free, `pick` which directory entry a scan reads next. */
  function Step(pc: Pc, s: Store, free: bool, pick: Fence): (Pc, Effect) {
    match pc
    case Done(_) => (pc, NoEffect)
    case Claiming(c) =>
      (match ClaimStep(c, s, free, pick)
       case Stay(next, e) => (Claiming(next), e)
       case End(outcome, e) => (Done(outcome), e))
    case Changing(c) =>
      (match ChangeStep(c, s, free)
       case Stay(next, e) => (Changing(next), e)
       case End(outcome, e) => (Done(outcome), e))
    case Connecting(c) =>
      (match ConnectorStep(c, s, free)
       case Stay(next, e) => (Connecting(next), e)
       case End(outcome, e) => (Done(outcome), e))
    case Handing(c) =>
      (match HandoffStep(c, s, free)
       case Stay(next, e) => (Handing(next), e)
       case End(outcome, e) => (Done(outcome), e))
  }

  // ----- the system -----

  datatype World = World(store: Store, history: History, procs: map<nat, Pc>)

  /** Where a call may begin: its arguments have passed the checks that need no file. */
  predicate Entry(pc: Pc) {
    match pc
    case Claiming(ClaimLockId(core)) => ValidIdentity(core)
    case Changing(ChangeRead(_, _)) => true
    case Connecting(ConnectorReadParent(claim, _)) => claim.predecessor != Some(claim.op)
    case Handing(HandoffReadOwner(_, _)) => true
    case _ => false
  }

  ghost predicate Free(w: World, p: nat, lock: Option<LockId>) {
    lock.Some? ==> forall q :: q in w.procs && q != p ==> lock.value !in Held(w.procs[q])
  }

  ghost predicate Runs(w: World, w': World, p: nat, pick: Fence) {
    && p in w.procs
    && var (pc, e) := Step(w.procs[p], w.store, Free(w, p, Wanted(w.procs[p])), pick);
    && w' == World(Put(w.store, e), PutHistory(w.store, w.history, e), w.procs[p := pc])
  }

  ghost predicate Starts(w: World, w': World, p: nat, pc: Pc) {
    && (p !in w.procs || w.procs[p].Done?)
    && Entry(pc)
    && w' == w.(procs := w.procs[p := pc])
  }

  /** A crash, or an input/output error that makes a call return early. */
  ghost predicate Crashes(w: World, w': World, p: nat) {
    w' == w.(procs := w.procs - {p})
  }

  ghost predicate Next(w: World, w': World) {
    || (exists p, pick :: Runs(w, w', p, pick))
    || (exists p, pc :: Starts(w, w', p, pc))
    || (exists p :: Crashes(w, w', p))
  }

  /** A store before any recorded operation: nothing, or legacy owner pointers that each name a
   *  different operation. */
  ghost predicate Legacy(s: Store) {
    && s.records == map[] && s.connOwners == map[] && s.claims == map[]
    && (forall f :: f in s.owners ==> Fence(s.owners[f].target, s.owners[f].host) == f)
    && (forall f, g :: f in s.owners && g in s.owners && s.owners[f].current == s.owners[g].current ==> f == g)
  }

  /** The pointers' histories before anything ran: each names the operation it names. */
  function NamedOnce(owners: map<Fence, TargetOwnership>): map<Fence, seq<Token>> {
    map f | f in owners :: [owners[f].current]
  }

  ghost predicate Init(w: World) {
    && Legacy(w.store)
    && w.procs == map[]
    && w.history.connectors == map[]
    && w.history.targets == NamedOnce(w.store.owners)
  }

  /** A run: consecutive worlds, each one step after the last. */
  ghost predicate IsRun(run: seq<World>) {
    && |run| > 0
    && Init(run[0])
    && forall k :: 0 <= k < |run| - 1 ==> Next(run[k], run[k + 1])
  }
}
