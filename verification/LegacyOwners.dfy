/** Owner pointers that older deployers left without a record.
 */
module LegacyOwners {
  import opened Domain
  import opened Records
  import opened StateActions
  import opened StepMachine

  // ----- duplicate projections -----

  /** Two pointers name one operation that has no record. */
  ghost predicate Duplicated(s: Store, op: Token, f: Fence, g: Fence) {
    && op !in s.records && f != g
    && f in s.owners && s.owners[f].current == op
    && g in s.owners && s.owners[g].current == op
  }

  ghost predicate Named(s: Store) {
    forall op :: op in s.records ==> s.records[op].core.op == op
  }

  /** A claim that has not passed, and cannot pass, the duplicated pointers. */
  ghost predicate ClaimStopped(c: ClaimPc, op: Token, f: Fence, g: Fence) {
    if c.core.op == op then
      match c
      case ClaimLockId(_) | ClaimRead(_) | ClaimList(_) => true
      case ClaimScan(core, listed, seen, _) =>
        f in listed && g in listed && (f != FenceOf(core) ==> f !in seen) && (g != FenceOf(core) ==> g !in seen)
      case _ => false
    else FenceOf(c.core) in {f, g} ==>
      match c
      case ClaimReadPredecessor(_, _, current) => current.current == op
      case ClaimReadExpired(_, _, _) | ClaimWriteRecord(_) | ClaimWriteOwner(_, _) => false
      case _ => true
  }

  ghost predicate ChangeElsewhere(c: ChangePc, op: Token) {
    match c
    case ChangeRead(_, _) | ChangeLock(_, _, _) | ChangeReread(_, _, _) => true
    case _ => c.record.core.op != op
  }

  ghost predicate Stopped(pc: Pc, op: Token, f: Fence, g: Fence) {
    match pc
    case Claiming(c) => ClaimStopped(c, op, f, g)
    case Changing(c) => ChangeElsewhere(c, op)
    case _ => true
  }

  ghost predicate Blocked(w: World, op: Token, f: Fence, g: Fence) {
    && Duplicated(w.store, op, f, g) && Named(w.store)
    && forall p :: p in w.procs ==> Stopped(w.procs[p], op, f, g)
  }

  /** A run from any store whatsoever, as long as its record files carry their own names. */
  ghost predicate AnyRun(run: seq<World>) {
    && |run| > 0 && run[0].procs == map[] && Named(run[0].store)
    && forall k :: 0 <= k < |run| - 1 ==> Next(run[k], run[k + 1])
  }

  /** The step neither records the operation nor moves either pointer. */
  ghost predicate LeavesDuplicates(s: Store, e: Effect, op: Token, f: Fence, g: Fence) {
    match e
    case PutRecord(r) => r.core.op != op
    case PutOwner(x, _) => x != f && x != g
    case _ => true
  }

  lemma ClaimStaysStopped(c: ClaimPc, s: Store, free: bool, pick: Fence, op: Token, f: Fence, g: Fence)
    requires Duplicated(s, op, f, g) && ClaimStopped(c, op, f, g)
    ensures var m := ClaimStep(c, s, free, pick);
      (m.Stay? ==> ClaimStopped(m.next, op, f, g)) && LeavesDuplicates(s, m.effect, op, f, g)
  {
    hide ReissueOf, ExpiredClaimOf, Settled;
  }

  lemma ChangeStaysElsewhere(c: ChangePc, s: Store, free: bool, op: Token, f: Fence, g: Fence)
    requires Duplicated(s, op, f, g) && Named(s) && ChangeElsewhere(c, op)
    ensures var m := ChangeStep(c, s, free);
      (m.Stay? ==> ChangeElsewhere(m.next, op)) && LeavesDuplicates(s, m.effect, op, f, g)
  {
    hide ValidRecord;
  }

  lemma StepStaysStopped(pc: Pc, s: Store, free: bool, pick: Fence, op: Token, f: Fence, g: Fence)
    requires Duplicated(s, op, f, g) && Named(s) && Stopped(pc, op, f, g)
    ensures var (next, e) := Step(pc, s, free, pick); Stopped(next, op, f, g) && LeavesDuplicates(s, e, op, f, g)
  {
    hide ClaimStep, ChangeStep, ClaimStopped, ChangeElsewhere, Duplicated, Named;
    match pc
    case Done(_) =>
    case Claiming(c) => ClaimStaysStopped(c, s, free, pick, op, f, g);
    case Changing(c) => ChangeStaysElsewhere(c, s, free, op, f, g);
    case Connecting(_) =>
    case Handing(_) =>
  }

  lemma NextStaysBlocked(w: World, w': World, op: Token, f: Fence, g: Fence)
    requires Blocked(w, op, f, g) && Next(w, w')
    ensures Blocked(w', op, f, g)
  {
    hide Step, ClaimStopped, ChangeElsewhere, Held, Wanted;
    if p, pick :| Runs(w, w', p, pick) {
      StepStaysStopped(w.procs[p], w.store, Free(w, p, Wanted(w.procs[p])), pick, op, f, g);
    } else if p, pc :| Starts(w, w', p, pc) {
      EntryIsStopped(pc, op, f, g);
    } else {
    }
  }

  lemma EntryIsStopped(pc: Pc, op: Token, f: Fence, g: Fence)
    requires Entry(pc)
    ensures Stopped(pc, op, f, g)
  {
  }

  /** If two pointers name an operation that has no record, no run ever records it or moves either pointer: every
   *  claim of it fails without a write, however it is interleaved with other calls. */
  lemma {:induction false} DuplicatesNeverClaimed(run: seq<World>, op: Token, f: Fence, g: Fence)
    requires AnyRun(run) && Duplicated(run[0].store, op, f, g)
    ensures forall k :: 0 <= k < |run| ==> Duplicated(run[k].store, op, f, g)
  {
    hide Next, Named, Stopped;
    var k := 0;
    while k < |run| - 1
      invariant 0 <= k < |run|
      invariant forall j :: 0 <= j <= k ==> Duplicated(run[j].store, op, f, g)
      invariant Blocked(run[k], op, f, g)
    {
      NextStaysBlocked(run[k], run[k + 1], op, f, g);
      k := k + 1;
    }
  }

  // ----- more pointers than a claim may list -----

  /** A process that has got nowhere, because nothing is recorded and there are too many pointers to list. */
  ghost predicate GotNowhere(pc: Pc, s: Store) {
    match pc
    case Done(_) => true
    case Claiming(ClaimLockId(_)) | Claiming(ClaimRead(_)) | Claiming(ClaimList(_)) => true
    case Claiming(ClaimScan(_, listed, seen, _)) => listed == s.owners.Keys && |seen| <= MAX_STATE_ROOT_ENTRIES
    case Changing(ChangeRead(_, _)) => true
    case Connecting(ConnectorReadParent(_, _)) => true
    case Handing(HandoffReadOwner(_, _)) => true
    case _ => false
  }

  predicate Crowded(s: Store) {
    |s.owners| > 4096
  }

  ghost predicate Unrecorded(s: Store) {
    s.records == map[] && s.connOwners == map[] && s.claims == map[]
  }

  lemma SubsetCard(a: set<Fence>, b: set<Fence>)
    requires a <= b
    ensures |a| <= |b|
  {
    if a != {} {
      var x :| x in a;
      SubsetCard(a - {x}, b - {x});
    }
  }

  lemma CrowdedStep(pc: Pc, s: Store, free: bool, pick: Fence)
    requires Unrecorded(s) && Crowded(s) && GotNowhere(pc, s)
    ensures Step(pc, s, free, pick).1.NoEffect? && GotNowhere(Step(pc, s, free, pick).0, s)
  {
    assert |s.owners| == |s.owners.Keys|;
    if pc.Claiming? && pc.claiming.ClaimScan? && pc.claiming.listed <= pc.claiming.seen {
      SubsetCard(s.owners.Keys, pc.claiming.seen);
    }
  }

  ghost predicate Stuck(w: World, s: Store) {
    w.store == s && forall p :: p in w.procs ==> GotNowhere(w.procs[p], s)
  }

  lemma NextStaysStuck(w: World, w': World, s: Store)
    requires Unrecorded(s) && Crowded(s) && Stuck(w, s) && Next(w, w')
    ensures Stuck(w', s)
  {
    hide Step, Crowded, Unrecorded, GotNowhere, Held, Wanted;
    if p, pick :| Runs(w, w', p, pick) {
      CrowdedStep(w.procs[p], s, Free(w, p, Wanted(w.procs[p])), pick);
    } else if p, pc :| Starts(w, w', p, pc) {
      EntryIsNowhere(pc, s);
    } else {
    }
  }

  lemma EntryIsNowhere(pc: Pc, s: Store)
    requires Entry(pc)
    ensures GotNowhere(pc, s)
  {
  }

  /** Beside more legacy pointers than a claim may list, nothing is ever recorded and no pointer moves. */
  lemma {:induction false} CrowdedNeverMoves(run: seq<World>)
    requires IsRun(run) && Crowded(run[0].store)
    ensures forall k :: 0 <= k < |run| ==> run[k].store == run[0].store
  {
    hide Next, GotNowhere, Crowded;
    var s := run[0].store;
    var k := 0;
    while k < |run| - 1
      invariant 0 <= k < |run|
      invariant forall j :: 0 <= j <= k ==> run[j].store == s
      invariant Stuck(run[k], s)
    {
      NextStaysStuck(run[k], run[k + 1], s);
      k := k + 1;
    }
  }
}
