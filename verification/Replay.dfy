/** Exact replay of a call that was interrupted between its two writes.
 */
module Replay {
  import opened Domain
  import opened Records
  import opened StateActions
  import opened StateInvariants
  import opened StateProofs
  import opened StepMachine
  import opened Interference
  import opened Runs
  import opened Ownership
  import opened RecordHistory
  import opened Calls
  import opened Recovery
  import opened AloneRuns

  // ----- nobody else ran meanwhile -----

  /** Interrupted before, between or after its writes, a claim that is made again ends where an uninterrupted one does. */
  lemma ClaimReplayIsExact(s: Store, core: OperationIdentity)
    requires ClaimAllowed(s, core) && core.op !in s.records
    requires forall op :: op in s.records ==> s.records[op].core.op == op
    ensures Enabled(s, CreateRecord(core))
    ensures forall crashed | crashed in [s, After(s, CreateRecord(core)), ClaimAfter(s, core)] ::
      && ClaimAllowed(crashed, core)
      && ClaimAfter(crashed, core) == ClaimAfter(s, core)
      && ClaimedRecord(crashed, core) == ClaimedRecord(s, core)
  {
    hide ReissueOf, ExpiredClaimOf;
    ClaimIsWrites(s, core);
    var t, u := After(s, CreateRecord(core)), ClaimAfter(s, core);
    assert CanOwn(t, core) by {
      assert forall op :: op in s.records ==> t.records[op] == s.records[op];
    }
    assert ClaimAfter(t, core) == u;
    assert ClaimAfter(u, core) == u;
  }

  /** The same for a connector claim, which moves the pointer before it writes the claim. */
  lemma ConnectorReplayIsExact(s: Store, claim: ClaimIdentity, proof: Host)
    requires ConnectorAllowed(s, claim, proof) && Enabled(s, PublishConnectorOwner(claim)) && !ForeignClaim(s, claim)
    ensures forall crashed | crashed in [s, After(s, PublishConnectorOwner(claim)), ConnectorAfter(s, claim)] ::
      && ConnectorAllowed(crashed, claim, proof) && !ForeignClaim(crashed, claim)
      && ConnectorAfter(crashed, claim) == ConnectorAfter(s, claim)
      && HeldClaim(crashed, claim) == HeldClaim(s, claim)
  {
    hide PriorAllows, MatchesParent, ConnectorPredecessor;
    var t, u := After(s, PublishConnectorOwner(claim)), ConnectorAfter(s, claim);
    assert ConnectorAfter(t, claim) == u;
    assert ConnectorAfter(u, claim) == u;
  }

  // ----- others ran meanwhile -----

  /** The target's pointer says what it said. */
  ghost predicate PointerKept(s: Store, t: Store, f: Fence) {
    (f in s.owners <==> f in t.owners) && (f in s.owners ==> t.owners[f] == s.owners[f])
  }

  ghost predicate NamesOwner(s: Store, f: Fence, op: Token) {
    f in s.owners && s.owners[f].current == op
  }

  /** The predecessor's record, which a rollback may have reopened, is settled. */
  ghost predicate PredecessorSettled(t: Store, core: OperationIdentity) {
    core.predecessor.Some? && core.predecessor.value in t.records ==> Settled(t.records[core.predecessor.value].phase)
  }

  /** What a run does to the predecessor's record: it keeps its identity, and once completed it never expires. */
  ghost predicate PredecessorFollowed(s: Store, t: Store, core: OperationIdentity) {
    core.predecessor.Some? && core.predecessor.value in s.records ==>
      && core.predecessor.value in t.records
      && t.records[core.predecessor.value].core == s.records[core.predecessor.value].core
      && (AfterCompletion(s.records[core.predecessor.value].phase) ==> AfterCompletion(t.records[core.predecessor.value].phase))
  }

  lemma StillAllowed(s: Store, t: Store, core: OperationIdentity)
    requires CanOwn(s, core) && PredecessorFollowed(s, t, core) && PointerKept(s, t, FenceOf(core))
    requires !NamesOwner(t, FenceOf(core), core.op)
    requires RecordsValid(t) && ClaimsValid(t) && TerminalClaims(t)
    ensures CanOwn(t, core) <==> PredecessorSettled(t, core)
  {
    hide RecordsValid, ClaimsValid, TerminalClaims, ReissueOf, ExpiredClaimOf, SoleConnector;
    if FenceOf(core) in s.owners {
      var prior := core.predecessor.value;
      if t.records[prior].phase == ExpiredUnclaimed {
        ExpiredLeft(t, prior);
      }
    }
  }

  lemma ExpiredLeft(t: Store, op: Token)
    requires RecordsValid(t) && ClaimsValid(t) && TerminalClaims(t)
    requires op in t.records && t.records[op].phase == ExpiredUnclaimed
    ensures t.records[op].core.op == op && SoleConnector(t.records[op].core)
    ensures ClaimKey(SoleInstance(t.records[op].core), op) in t.claims
    ensures ExpiredClaimOf(t.claims[ClaimKey(SoleInstance(t.records[op].core), op)], t.records[op].core)
  {
    hide ConnectorPredecessor, ValidRecord, AfterCompletion;
    var key := ClaimKey(SoleInstance(t.records[op].core), op);
    assert key in t.claims;
    assert Canonical(t.records, key.op, key.instance, t.claims[key].core);
  }

  lemma AlreadyOwner(t: Store, core: OperationIdentity)
    requires OwnersValid(t) && core.op in t.records && t.records[core.op].core == core
    requires NamesOwner(t, FenceOf(core), core.op)
    ensures CanOwn(t, core)
  {
  }

  /** A pointer that moved on to a third operation admits the claim no more. */
  lemma TakenSlotRefuses(s: Store, t: Store, h: History, core: OperationIdentity)
    requires CanOwn(s, core) && OwnersValid(s) && OwnersValid(t) && RecordsValid(t) && HistoryCurrent(t, h)
    requires Chained(t, h) && Rooted(t, h) && NoRepeats(h)
    requires PredecessorFollowed(s, t, core) && core.op in t.records && t.records[core.op].core == core
    requires NamesOwner(s, FenceOf(core), core.op) ==> core.op in TargetHistory(h, FenceOf(core))
    requires !PointerKept(s, t, FenceOf(core)) && !NamesOwner(t, FenceOf(core), core.op)
    requires FenceOf(core) in s.owners ==> FenceOf(core) in t.owners
    ensures !CanOwn(t, core)
  {
    hide ReissueOf, ExpiredClaimOf, NoRepeat;
    var f := FenceOf(core);
    if NamesOwner(s, f, core.op) && core.predecessor.Some? {
      PredecessorIsBehind(t, h, core);
    }
  }

  lemma PredecessorIsBehind(t: Store, h: History, core: OperationIdentity)
    requires RecordsValid(t) && HistoryCurrent(t, h) && Chained(t, h) && Rooted(t, h) && NoRepeats(h)
    requires core.op in t.records && t.records[core.op].core == core && core.predecessor.Some?
    requires core.op in TargetHistory(h, FenceOf(core)) && FenceOf(core) in t.owners
    ensures t.owners[FenceOf(core)].current != core.predecessor.value
  {
    var f := FenceOf(core);
    var chain := h.targets[f];
    var k :| 0 <= k < |chain| && chain[k] == core.op;
    assert core.predecessor != Some(core.op);
    hide RecordsValid;
    assert NoRepeat(chain);
    if k > 0 {
      assert Succeeds(t, h.targets, f, k);
      assert chain[k - 1] == core.predecessor.value;
    } else {
      assert RootedAt(t, core, f);
      if |chain| > 1 {
        SuccessionRecorded(t, h, f, |chain| - 1);
      }
    }
  }

  /** What follows a completion is a rollback. */
  lemma {:induction false} CompletionLasts(path: seq<OperationRecord>, before: OperationRecord, after: OperationRecord)
    requires Path(path, before, after) && AfterCompletion(before.phase)
    ensures AfterCompletion(after.phase)
    decreases |path|
  {
    if |path| > 1 {
      var last := |path| - 1;
      assert LegalEdge(path[last - 1], path[last]);
      CompletionLasts(path[..last], before, path[last - 1]);
    }
  }

  lemma RunFollowsPredecessor(run: seq<World>, i: nat, j: nat, core: OperationIdentity)
    requires SoundRun(run) && i <= j < |run|
    ensures PredecessorFollowed(run[i].store, run[j].store, core)
  {
    hide Path, Next, Valid, LegalEdge;
    if core.predecessor.Some? && core.predecessor.value in RecordsAt(run, i) {
      var op := core.predecessor.value;
      var path := RecordFollowsPath(run, i, j, op);
      if AfterCompletion(RecordsAt(run, i)[op].phase) {
        CompletionLasts(path, RecordsAt(run, i)[op], RecordsAt(run, j)[op]);
      }
    }
  }

  /** Crash plus replay, with any other processes running in between: once the record is written, the claim succeeds
   *  again exactly when the target's pointer names the operation, or says what it said and the predecessor it names has
   *  not been reopened by a rollback. */
  lemma ReplayRepairsClaim(run: seq<World>, i: nat, j: nat, core: OperationIdentity)
    requires BeginsRooted(run) && i <= j < |run|
    requires ClaimAllowed(run[i].store, core)
    requires core.op in RecordsAt(run, j) && RecordsAt(run, j)[core.op].core == core
    ensures var f := FenceOf(core); var t := run[j].store;
      ClaimAllowed(t, core) <==> NamesOwner(t, f, core.op) || (PointerKept(run[i].store, t, f) && PredecessorSettled(t, core))
    ensures ClaimAllowed(run[j].store, core) ==>
      && ClaimAfter(run[j].store, core).records == RecordsAt(run, j)
      && NamesOwner(ClaimAfter(run[j].store, core), FenceOf(core), core.op)
  {
    hide CanOwn, ValidIdentity, PointerKept, PredecessorFollowed, PredecessorSettled, NoRepeats, AllSettledBehind;
    hide Rooted, Chained, ConnectorsOrdered;
    hide TerminalClaims, ClaimsValid, RecordsValid, OwnersValid, HistoryCurrent, UnownedPlanned, Next, Init, Dangles;
    RecordedIsRooted(run, j, core.op);
    LegacyRunIsSound(run);
    RunOrdered(run);
    RunFollowsPredecessor(run, i, j, core);
    var s, t := run[i].store, run[j].store;
    assert Ordered(s, run[i].history) && Ordered(t, run[j].history);
    assert RecordsAt(run, j)[core.op := RecordsAt(run, j)[core.op]] == RecordsAt(run, j);
    if NamesOwner(t, FenceOf(core), core.op) {
      AlreadyOwner(t, core);
    } else if PointerKept(s, t, FenceOf(core)) {
      StillAllowed(s, t, core);
    } else {
      OwnersStay(run, i, j, FenceOf(core));
      TakenSlotRefuses(s, t, run[j].history, core);
    }
  }

  /** A replay between the fence of a rollback of its predecessor and the rollback's convergence is refused, and after a
   *  blocked rollback for good. */
  lemma RollbackRefusesReplay(run: seq<World>, i: nat, j: nat, core: OperationIdentity)
    requires BeginsRooted(run) && i <= j < |run|
    requires ClaimAllowed(run[i].store, core)
    requires core.op in RecordsAt(run, j) && RecordsAt(run, j)[core.op].core == core
    requires core.predecessor.Some? && core.predecessor.value in RecordsAt(run, j)
    requires RecordsAt(run, j)[core.predecessor.value].phase in {RollbackFenced, RollbackBlocked}
    requires !NamesOwner(run[j].store, FenceOf(core), core.op)
    ensures !ClaimAllowed(run[j].store, core)
    ensures RecordsAt(run, j)[core.predecessor.value].phase == RollbackBlocked ==>
      forall k :: j <= k < |run| && !NamesOwner(run[k].store, FenceOf(core), core.op) ==> !ClaimAllowed(run[k].store, core)
  {
    hide BeginsRooted, ClaimAllowed, PointerKept, NamesOwner, Next, Init, Valid, Path;
    ReplayRepairsClaim(run, i, j, core);
    var prior := core.predecessor.value;
    BeginsSound(run);
    if RecordsAt(run, j)[prior].phase == RollbackBlocked {
      forall k | j <= k < |run| && !NamesOwner(run[k].store, FenceOf(core), core.op) ensures !ClaimAllowed(run[k].store, core) {
        var path := RecordFollowsPath(run, j, k, prior);
        BlockedLasts(path, RecordsAt(run, j)[prior], RecordsAt(run, k)[prior]);
        SameCore(run, j, k, core.op);
        ReplayRepairsClaim(run, i, k, core);
      }
    }
  }

  lemma RollbackEnabled(s: Store, core: OperationIdentity)
    requires RecordsValid(s) && OwnersValid(s) && CanOwn(s, core) && !NamesOwner(s, FenceOf(core), core.op)
    requires FenceOf(core) in s.owners && core.op in s.records && s.records[core.op].core == core
    requires s.records[core.predecessor.value].phase == Completed
    ensures var p := core.predecessor.value; var w := UpdateRecord(p, FenceRollback);
      && Enabled(s, w) && !CanOwn(After(s, w), core)
      && var v := UpdateRecord(p, FinishRollback(RollbackConverged)); var t := After(After(s, w), v);
      && Enabled(After(s, w), v) && CanOwn(t, core) && core.op in t.records && t.records[core.op].core == core
  {
    hide ReissueOf, ExpiredClaimOf, ValidIdentity, CompletionVerified;
    var prior := s.records[core.predecessor.value];
    assert ValidRecord(prior.(phase := RollbackFenced)) && ValidRecord(prior.(phase := RollbackConverged));
  }

  /** Both sides of that window are reached: from any world in which an interrupted claim could be replayed behind a
   *  completed predecessor, a rollback call leads to one where the replay is refused, and its convergence to one where
   *  it is allowed again. */
  lemma RollbackWindow(run: seq<World>, core: OperationIdentity) returns (fenced: seq<World>, converged: seq<World>)
    requires IsRun(run) && Last(run).procs == map[]
    requires ClaimAllowed(Last(run).store, core) && core.op in Last(run).store.records
    requires FenceOf(core) in Last(run).store.owners && !NamesOwner(Last(run).store, FenceOf(core), core.op)
    requires Last(run).store.records[core.predecessor.value].phase == Completed
    ensures IsRun(fenced) && run <= fenced && !ClaimAllowed(Last(fenced).store, core)
    ensures IsRun(converged) && fenced <= converged && ClaimAllowed(Last(converged).store, core)
  {
    hide IsRun, Valid, Enabled, After, ValidIdentity, RecordsValid, OwnersValid;
    LegacyRunIsSound(run);
    SoundRunOk(run);
    SoundParts(Last(run));
    RollbackEnabled(Last(run).store, core);
    hide CanOwn;
    fenced := ChangesAlone(run, core.predecessor.value, FenceRollback);
    converged := ChangesAlone(fenced, core.predecessor.value, FinishRollback(RollbackConverged));
  }

  lemma BeginsSound(run: seq<World>)
    requires BeginsRooted(run)
    ensures SoundRun(run) && IsRun(run)
  {
    hide Next, Dangles;
    LegacyRunIsSound(run);
  }

  lemma {:induction false} BlockedLasts(path: seq<OperationRecord>, before: OperationRecord, after: OperationRecord)
    requires Path(path, before, after) && before.phase == RollbackBlocked
    ensures after.phase == RollbackBlocked
    decreases |path|
  {
    if |path| > 1 {
      var last := |path| - 1;
      assert LegalEdge(path[last - 1], path[last]);
      BlockedLasts(path[..last], before, path[last - 1]);
    }
  }

  lemma {:induction false} OwnersStay(run: seq<World>, i: nat, j: nat, f: Fence)
    requires IsRun(run) && i <= j < |run|
    ensures f in run[i].store.owners ==> f in run[j].store.owners
    ensures forall op :: op in TargetHistory(run[i].history, f) ==> op in TargetHistory(run[j].history, f)
    ensures f in run[i].store.owners ==> run[i].store.owners[f].current in TargetHistory(run[j].history, f)
    decreases j
  {
    hide WorldOk, Next, Init, Evolves;
    RunOk(run);
    WorldCurrent(run[i]);
    hide Consistent, HistoryCurrent;
    CurrentSeen(run[i].store, run[i].history, f);
    if i < j {
      OwnersStay(run, i, j - 1, f);
      assert Next(run[j - 1], run[j - 1 + 1]);
      NextOk(run[j - 1], run[j]);
      WorldCurrent(run[j - 1]);
      EvolutionKeepsOwners(run[j - 1].store, run[j - 1].history, run[j].store, run[j].history, f);
    }
  }

  lemma CurrentSeen(s: Store, h: History, f: Fence)
    requires HistoryCurrent(s, h)
    ensures f in s.owners ==> s.owners[f].current in TargetHistory(h, f)
  {
  }

  lemma EvolutionKeepsOwners(s: Store, h: History, s': Store, h': History, f: Fence)
    requires HistoryCurrent(s, h) && Evolves(s, h, s', h')
    ensures f in s.owners ==> f in s'.owners
    ensures forall op :: op in TargetHistory(h, f) ==> op in TargetHistory(h', f)
  {
    hide Enabled;
  }

  /** A connector claim interrupted anywhere succeeds when it is made again, for as long as its operation owns the
   *  target and no operation of another target has taken a connector that was still free.  Once the pointer has been
   *  published nothing another process does in between can take the connector away. */
  lemma ReplayRepairsConnector(run: seq<World>, i: nat, j: nat, claim: ClaimIdentity, proof: Host)
    requires BeginsRooted(run) && i <= j < |run|
    requires ConnectorAllowed(run[i].store, claim, proof)
    requires IsCurrent(run[j].store, RecordsAt(run, i)[claim.op].core)
    ensures ConnectorAllowed(run[j].store, claim, proof) <==> OwnedHere(run[j].store, RecordsAt(run, i)[claim.op].core, claim.instance)
    ensures claim.instance in run[i].store.connOwners ==> ConnectorAllowed(run[j].store, claim, proof)
    ensures !ForeignClaim(run[j].store, claim)
  {
    hide Ordered, IsCurrent, Next, Init, Progressed, ConnectorPredecessor, PriorAllows, MatchesParent, Dangles;
    RecordedIsRooted(run, i, claim.op);
    RunOrdered(run);
    var core := RecordsAt(run, i)[claim.op].core;
    SameCore(run, i, j, claim.op);
    AllowedNow(run[i].store, run[i].history, core, claim, proof);
    PredecessorCore(run, i, j, core, claim);
    PredecessorNeeded(run[j].store, core, claim.instance, claim);
    var now := ConnectorClaimable(run[j].store, run[j].history, core, claim.instance);
    SamePrepared(run[j].store, core, claim, now);
    if claim.instance in run[i].store.connOwners {
      ConnectorStaysHere(run, i, j, core, claim.instance);
    }
  }

  lemma SameCore(run: seq<World>, i: nat, j: nat, op: Token)
    requires IsRun(run) && i <= j < |run| && op in RecordsAt(run, i)
    ensures op in RecordsAt(run, j) && RecordsAt(run, j)[op].core == RecordsAt(run, i)[op].core
  {
    hide Path, Next;
    LegacyRunIsSound(run);
    var path := RecordFollowsPath(run, i, j, op);
  }

  lemma AllowedNow(s: Store, h: History, core: OperationIdentity, claim: ClaimIdentity, proof: Host)
    requires Ordered(s, h) && ConnectorAllowed(s, claim, proof) && s.records[claim.op].core == core
    ensures core.op == claim.op && Binds(core, claim.instance) && OwnedHere(s, core, claim.instance)
    ensures proof == core.binding.host
    ensures MatchesParent(claim, core) && ConnectorPredecessor(s.records, core, claim.instance) == Ok(claim.predecessor)
  {
    hide Enabled, ConnectorsOrdered, TerminalClaims, AllSettledBehind, NoRepeats, Rooted, Chained, UnownedPlanned;
    hide HistoryCurrent, OwnersValid;
    hide ConnectorPredecessor, ClaimsValid, ValidRecord;
    OpenIsAdmitted(s, claim);
    MatchedIsBound(claim, core);
    if Enabled(s, PublishConnectorOwner(claim)) && claim.instance in s.connOwners {
      ConnectorStaysOnTarget(s, claim);
    }
  }

  lemma OpenIsAdmitted(s: Store, claim: ClaimIdentity)
    requires ConnectorOpen(s, claim)
    ensures ClaimAdmitted(s, claim)
  {
    hide PriorAllows, MatchesParent, ConnectorPredecessor;
  }

  lemma PredecessorCore(run: seq<World>, i: nat, j: nat, core: OperationIdentity, claim: ClaimIdentity)
    requires IsRun(run) && i <= j < |run|
    requires ConnectorPredecessor(RecordsAt(run, i), core, claim.instance) == Ok(claim.predecessor)
    ensures ConnectorPredecessor(RecordsAt(run, j), core, claim.instance) == Ok(claim.predecessor)
  {
    if core.predecessor.Some? {
      SameCore(run, i, j, core.predecessor.value);
    }
  }

  lemma SamePrepared(s: Store, core: OperationIdentity, claim: ClaimIdentity, now: ClaimIdentity)
    requires MatchesParent(claim, core) && claim.op == core.op
    requires ConnectorPredecessor(s.records, core, claim.instance) == Ok(claim.predecessor)
    requires Prepares(s, core, claim.instance, now)
    ensures now == claim
  {
  }

  lemma StepStaysHere(s: Store, h: History, s': Store, h': History, core: OperationIdentity, c: Token)
    requires Consistent(s, h) && Evolves(s, h, s', h')
    requires c in s.connOwners && OwnedHere(s, core, c)
    ensures c in s'.connOwners && OwnedHere(s', core, c)
  {
    hide OwnersValid, HistoryCurrent, Chained, UnownedPlanned;
    if s' != s {
      var w :| Enabled(s, w) && s' == After(s, w);
      CoresKeptAfter(s, w);
      WriteStaysHere(s, w, core, c);
    }
  }

  lemma WriteStaysHere(s: Store, w: Write, core: OperationIdentity, c: Token)
    requires RecordsValid(s) && ClaimsValid(s) && Enabled(s, w) && CoresKept(s, After(s, w))
    requires c in s.connOwners && OwnedHere(s, core, c)
    ensures c in After(s, w).connOwners && OwnedHere(After(s, w), core, c)
  {
    hide RecordsValid, ClaimsValid, CanOwn, CompletionVerified, ClaimAdmitted, PriorAllows;
    if w.PublishConnectorOwner? && w.claim.instance == c {
      ConnectorStaysOnTarget(s, w.claim);
      PublisherRecorded(s, w.claim);
    }
  }

  lemma PublisherRecorded(s: Store, claim: ClaimIdentity)
    requires Enabled(s, PublishConnectorOwner(claim))
    ensures claim.op in s.records
  {
  }

  lemma {:induction false} ConnectorStaysHere(run: seq<World>, i: nat, j: nat, core: OperationIdentity, c: Token)
    requires IsRun(run) && i <= j < |run|
    requires c in run[i].store.connOwners && OwnedHere(run[i].store, core, c)
    ensures c in run[j].store.connOwners && OwnedHere(run[j].store, core, c)
    decreases j
  {
    hide OwnedHere, Next, Init, Evolves, Consistent, Exclusive, AllKnow;
    RunOk(run);
    if i < j {
      ConnectorStaysHere(run, i, j - 1, core, c);
      assert Next(run[j - 1], run[j - 1 + 1]);
      NextOk(run[j - 1], run[j]);
      StepStaysHere(run[j - 1].store, run[j - 1].history, run[j].store, run[j].history, core, c);
    }
  }
}
