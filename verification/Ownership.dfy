/** Ownership over whole runs.
 *
 * The theorems speak of what an observer of the pointer files sees: `OwnersSeen` and
 * `ConnectorOwnersSeen` list the operations a pointer has named, in the order it named them.
 */
module Ownership {
  import opened Domain
  import opened Records
  import opened StateActions
  import opened StateInvariants
  import opened StateProofs
  import opened StepMachine
  import opened Interference
  import opened LegacyOwners
  import opened Runs

  ghost function OwnersSeen(run: seq<World>, f: Fence): seq<Token> {
    if run == [] then []
    else
      var earlier := OwnersSeen(run[..|run| - 1], f);
      var owners := run[|run| - 1].store.owners;
      if f in owners && (earlier == [] || earlier[|earlier| - 1] != owners[f].current)
      then earlier + [owners[f].current] else earlier
  }

  ghost function ConnectorOwnersSeen(run: seq<World>, i: Token): seq<Token> {
    if run == [] then []
    else
      var earlier := ConnectorOwnersSeen(run[..|run| - 1], i);
      var owners := run[|run| - 1].store.connOwners;
      if i in owners && (earlier == [] || earlier[|earlier| - 1] != owners[i].current)
      then earlier + [owners[i].current] else earlier
  }

  /** Some node service can be adopted from a legacy pointer although no pointer names its predecessor, and there are
   *  few enough pointers for a claim to list. */
  ghost predicate AdoptsDangling(s: Store) {
    !Crowded(s) && exists f :: Dangles(s, f)
  }

  ghost predicate BeginsRooted(run: seq<World>) {
    IsRun(run) && !AdoptsDangling(run[0].store)
  }

  ghost predicate RootedRun(run: seq<World>) {
    IsRun(run) && forall f :: !Dangles(run[0].store, f)
  }

  /** Where anything was ever recorded, the pointers could be listed. */
  lemma RecordedIsRooted(run: seq<World>, k: nat, op: Token)
    requires BeginsRooted(run) && k < |run| && op in run[k].store.records
    ensures RootedRun(run)
  {
    hide Next, Dangles;
    if Crowded(run[0].store) {
      CrowdedNeverMoves(run);
    }
  }

  lemma {:induction false} RunOrdered(run: seq<World>)
    requires RootedRun(run)
    ensures forall k :: 0 <= k < |run| ==> Ordered(run[k].store, run[k].history)
  {
    hide WorldOk, Consistent, Next, Dangles;
    RunOk(run);
    InitOrdered(run[0]);
    hide Init, Ordered;
    var k := 0;
    while k < |run| - 1
      invariant 0 <= k < |run|
      invariant forall j :: 0 <= j <= k ==> Ordered(run[j].store, run[j].history)
    {
      NextOk(run[k], run[k + 1]);
      EvolutionOrdered(run[k].store, run[k].history, run[k + 1].store, run[k + 1].history);
      k := k + 1;
    }
  }

  lemma InitOrdered(w: World)
    requires Init(w) && WorldOk(w) && forall f :: !Dangles(w.store, f)
    ensures Ordered(w.store, w.history)
  {
    hide WorldOk, Dangles;
    LegacyOrdered(w.store, w.history);
  }

  lemma LegacyOrdered(s: Store, h: History)
    requires Legacy(s) && h.connectors == map[] && h.targets == NamedOnce(s.owners)
    requires forall f :: !Dangles(s, f)
    ensures Ordered(s, h)
  {
    forall f | f in s.owners && Adoptable(s.owners[f]) ensures RootedAt(s, s.owners[f].identity, f) {
      assert !Dangles(s, f);
    }
  }

  // ----- the histories are what was seen -----

  lemma PointerStep(s: Store, h: History, s': Store, h': History, f: Fence)
    requires HistoryCurrent(s, h) && HistoryCurrent(s', h') && Evolves(s, h, s', h')
    ensures TargetHistory(h', f) ==
      if f in s'.owners && (TargetHistory(h, f) == [] || TargetHistory(h, f)[|TargetHistory(h, f)| - 1] != s'.owners[f].current)
      then TargetHistory(h, f) + [s'.owners[f].current] else TargetHistory(h, f)
  {
    hide Enabled;
  }

  lemma {:induction false} SeenIsHistory(run: seq<World>, f: Fence)
    requires IsRun(run)
    ensures OwnersSeen(run, f) == TargetHistory(run[|run| - 1].history, f)
    decreases |run|
  {
    hide WorldOk, Next, Evolves, RecordsValid, OwnersValid, Chained, UnownedPlanned, ClaimsValid;
    RunOk(run);
    var last := |run| - 1;
    WorldCurrent(run[last]);
    if last == 0 {
      assert run[..0] == [];
    } else {
      var earlier := run[..last];
      SeenIsHistory(earlier, f);
      assert earlier[|earlier| - 1] == run[last - 1];
      WorldCurrent(run[last - 1]);
      assert Next(run[last - 1], run[last - 1 + 1]);
      NextOk(run[last - 1], run[last]);
      PointerStep(run[last - 1].store, run[last - 1].history, run[last].store, run[last].history, f);
    }
  }

  lemma WorldCurrent(w: World)
    requires WorldOk(w)
    ensures HistoryCurrent(w.store, w.history) && Consistent(w.store, w.history)
  {
  }

  ghost predicate ConnectorsCurrent(s: Store, h: History) {
    && h.connectors.Keys == s.connOwners.Keys
    && forall i :: i in h.connectors ==> |h.connectors[i]| > 0 && h.connectors[i][|h.connectors[i]| - 1] == s.connOwners[i].current
  }

  lemma ConnectorPointerStep(s: Store, h: History, s': Store, h': History, i: Token)
    requires ConnectorsCurrent(s, h) && ConnectorsCurrent(s', h') && Evolves(s, h, s', h')
    ensures ConnectorHistory(h', i) ==
      if i in s'.connOwners && (ConnectorHistory(h, i) == [] || ConnectorHistory(h, i)[|ConnectorHistory(h, i)| - 1] != s'.connOwners[i].current)
      then ConnectorHistory(h, i) + [s'.connOwners[i].current] else ConnectorHistory(h, i)
  {
    hide ClaimAdmitted, PriorAllows, CanOwn, CompletionVerified;
  }

  lemma OrderedConnectors(s: Store, h: History)
    requires Ordered(s, h)
    ensures ConnectorsCurrent(s, h)
  {
    hide Consistent, Rooted, NoRepeats, AllSettledBehind, TerminalClaims, Increasing, BindersOf;
    forall i | i in h.connectors ensures |h.connectors[i]| > 0 && h.connectors[i][|h.connectors[i]| - 1] == s.connOwners[i].current {
      assert ConnectorOrdered(s, h, i);
    }
  }

  lemma {:induction false} ConnectorSeenIsHistory(run: seq<World>, i: Token)
    requires RootedRun(run)
    ensures ConnectorOwnersSeen(run, i) == ConnectorHistory(run[|run| - 1].history, i)
    decreases |run|
  {
    hide WorldOk, Next, Evolves, Ordered;
    RunOk(run);
    RunOrdered(run);
    var last := |run| - 1;
    OrderedConnectors(run[last].store, run[last].history);
    if last == 0 {
      assert run[..0] == [];
    } else {
      var earlier := run[..last];
      ConnectorSeenIsHistory(earlier, i);
      assert earlier[|earlier| - 1] == run[last - 1];
      OrderedConnectors(run[last - 1].store, run[last - 1].history);
      assert Next(run[last - 1], run[last - 1 + 1]);
      NextOk(run[last - 1], run[last]);
      ConnectorPointerStep(run[last - 1].store, run[last - 1].history, run[last].store, run[last].history, i);
    }
  }

  // ----- theorems -----

  /** `newer` names `older` as its predecessor, and `older` is settled. */
  ghost predicate SucceededBy(records: map<Token, OperationRecord>, older: Token, newer: Token) {
    && older in records && newer in records
    && records[newer].core.predecessor == Some(older)
    && records[older].phase in {Completed, RollbackConverged, ExpiredUnclaimed}
  }

  /** The owners of a target form a chain: each names the one before it as its predecessor, none owns twice, and every
   *  owner but the last has completed, rolled back or expired without effect.  The first names no predecessor unless it
   *  was adopted from a legacy pointer that does, and that one never owns the target. */
  lemma OwnersFormChain(run: seq<World>, f: Fence)
    requires BeginsRooted(run)
    ensures var chain := OwnersSeen(run, f); var records := run[|run| - 1].store.records;
      && (forall a, b :: 0 <= a < b < |chain| ==> chain[a] != chain[b])
      && (forall a, b :: 0 <= a < |chain| && b == a + 1 < |chain| ==> SucceededBy(records, chain[a], chain[b]))
      && (chain != [] && chain[0] in records && records[chain[0]].core.predecessor.Some? ==>
            && f in run[0].store.owners && run[0].store.owners[f] == OwnershipOf(records[chain[0]].core)
            && records[chain[0]].core.predecessor.value !in chain)
  {
    hide Dangles, SucceededBy, Next, Init;
    SeenIsHistory(run, f);
    if Crowded(run[0].store) {
      CrowdedChain(run, f);
    } else {
      RunOrdered(run);
      HistoriesFormChains(run[|run| - 1].store, run[|run| - 1].history, f);
      FirstOwner(run, |run| - 1, f);
    }
  }

  lemma {:induction false} CrowdedChain(run: seq<World>, f: Fence)
    requires IsRun(run) && Crowded(run[0].store)
    ensures |OwnersSeen(run, f)| <= 1 && run[|run| - 1].store.records == map[]
    ensures OwnersSeen(run, f) == if f in run[0].store.owners then [run[0].store.owners[f].current] else []
    decreases |run|
  {
    hide Next;
    CrowdedNeverMoves(run);
    if |run| == 1 {
      assert run[..0] == [];
    } else {
      CrowdedChain(run[..|run| - 1], f);
    }
  }

  /** The first owner a target's pointer ever named: the legacy one, or one without predecessor. */
  ghost predicate BeganWith(initial: Store, s: Store, h: History, f: Fence) {
    && (f in h.targets ==> |h.targets[f]| > 0)
    && (f in initial.owners ==>
          && f in h.targets && h.targets[f][0] == initial.owners[f].current
          && (h.targets[f][0] !in s.records ==> f in s.owners && s.owners[f] == initial.owners[f])
          && (h.targets[f][0] in s.records ==> initial.owners[f] == OwnershipOf(s.records[h.targets[f][0]].core)))
    && (f in h.targets && f !in initial.owners ==>
          h.targets[f][0] in s.records && s.records[h.targets[f][0]].core.predecessor.None?)
  }

  lemma StillBeganWith(initial: Store, s: Store, h: History, w: Write, f: Fence)
    requires Consistent(s, h) && BeganWith(initial, s, h, f) && Enabled(s, w)
    ensures BeganWith(initial, After(s, w), HistoryAfter(s, h, w), f)
  {
    hide CompletionVerified, ClaimAdmitted, PriorAllows, ReissueOf, ExpiredClaimOf, UnownedPlanned, ClaimsValid;
    hide Changed, ValidRecord, Settled;
    CoresKeptAfter(s, w);
    if f in h.targets && |h.targets[f]| > 1 {
      SuccessionRecorded(s, h, f, 0);
    }
    hide Chained, RecordsValid;
  }

  lemma {:induction false} FirstOwner(run: seq<World>, k: nat, f: Fence)
    requires IsRun(run) && k < |run|
    ensures BeganWith(run[0].store, run[k].store, run[k].history, f)
    decreases k
  {
    RunOk(run);
    if k > 0 {
      hide Next, Init, WorldOk, Enabled, BeganWith;
      FirstOwner(run, k - 1, f);
      assert Next(run[k - 1], run[k - 1 + 1]);
      NextOk(run[k - 1], run[k]);
      WorldCurrent(run[k - 1]);
      var s, h, s', h' := run[k - 1].store, run[k - 1].history, run[k].store, run[k].history;
      if !(s' == s && h' == h) {
        var w :| Enabled(s, w) && s' == After(s, w) && h' == HistoryAfter(s, h, w);
        StillBeganWith(run[0].store, s, h, w, f);
      }
    }
  }

  lemma HistoriesFormChains(s: Store, h: History, f: Fence)
    requires Ordered(s, h)
    ensures var chain := TargetHistory(h, f);
      && NoRepeat(chain)
      && (forall a, b :: 0 <= a < |chain| && b == a + 1 < |chain| ==> SucceededBy(s.records, chain[a], chain[b]))
      && (chain != [] && chain[0] in s.records && s.records[chain[0]].core.predecessor.Some? ==>
            s.records[chain[0]].core.predecessor.value !in chain)
  {
    hide ConnectorsOrdered, TerminalClaims, AllSettledBehind, SucceededBy, ClaimsValid, UnownedPlanned;
    var chain := TargetHistory(h, f);
    forall a, b | 0 <= a < |chain| && b == a + 1 < |chain| ensures SucceededBy(s.records, chain[a], chain[b]) {
      NeighboursSucceed(s, h, f, b);
    }
    if chain != [] && chain[0] in s.records && s.records[chain[0]].core.predecessor.Some? {
      PredecessorNotInChain(s, h, f);
    }
  }

  lemma PredecessorNotInChain(s: Store, h: History, f: Fence)
    requires RecordsValid(s) && Chained(s, h) && Rooted(s, h)
    requires f in h.targets && h.targets[f] != [] && h.targets[f][0] in s.records
    requires s.records[h.targets[f][0]].core.predecessor.Some?
    ensures s.records[h.targets[f][0]].core.predecessor.value !in h.targets[f]
  {
    var chain := h.targets[f];
    var core := s.records[chain[0]].core;
    assert RootedAt(s, core, f);
    assert core.predecessor != Some(core.op) && core.op == chain[0];
    hide RootedAt, RecordsValid;
    forall k | 0 <= k < |chain| ensures chain[k] != core.predecessor.value {
      if k > 0 {
        SuccessionRecorded(s, h, f, k);
      }
    }
  }

  lemma NeighboursSucceed(s: Store, h: History, f: Fence, b: nat)
    requires Ordered(s, h) && f in h.targets && 0 < b < |h.targets[f]|
    ensures SucceededBy(s.records, h.targets[f][b - 1], h.targets[f][b])
  {
    hide ClaimsValid, ConnectorsOrdered, TerminalClaims, RecordsValid, OwnersValid, NoRepeats, Rooted, UnownedPlanned;
    hide HistoryCurrent, ReissueOf;
    assert Succeeds(s, h.targets, f, b);
    assert SettledBehind(s, h.targets, f, b);
  }

  /** The operation is recorded at this target, or has no record and this target's pointer names it. */
  ghost predicate BelongsAt(s: Store, op: Token, f: Fence) {
    if op in s.records then FenceOf(s.records[op].core) == f else f in s.owners && s.owners[f].current == op
  }

  lemma StillBelongs(s: Store, w: Write, op: Token, f: Fence)
    requires RecordsValid(s) && OwnersValid(s) && Enabled(s, w) && BelongsAt(s, op, f)
    ensures BelongsAt(After(s, w), op, f)
  {
    hide CompletionVerified, ClaimAdmitted, PriorAllows, ReissueOf, ExpiredClaimOf, Changed, ValidRecord;
    CoresKeptAfter(s, w);
  }

  lemma OwnerBelongs(s: Store, f: Fence)
    requires OwnersValid(s) && f in s.owners
    ensures BelongsAt(s, s.owners[f].current, f)
  {
  }

  lemma {:induction false} SeenBelongs(run: seq<World>, op: Token, f: Fence)
    requires SoundRun(run) && op in OwnersSeen(run, f)
    ensures BelongsAt(run[|run| - 1].store, op, f)
    decreases |run|
  {
    hide Next, Valid, BelongsAt, Exclusive, AllKnow, Evolves;
    SoundRunOk(run);
    var last := |run| - 1;
    SoundParts(run[last]);
    if f in run[last].store.owners {
      OwnerBelongs(run[last].store, f);
    }
    if op in OwnersSeen(run[..last], f) {
      assert last > 0;
      SeenBelongs(run[..last], op, f);
      assert run[..last][last - 1] == run[last - 1];
      assert Next(run[last - 1], run[last - 1 + 1]);
      NextSound(run[last - 1], run[last]);
      EvolutionKeepsPlace(run[last - 1], run[last], op, f);
    }
  }

  lemma SoundParts(w: World)
    requires SoundWorld(w)
    ensures RecordsValid(w.store) && OwnersValid(w.store) && ClaimsValid(w.store)
  {
    hide Exclusive, AllKnow, RecordsValid, OwnersValid, ClaimsValid;
  }

  lemma EvolutionKeepsPlace(w: World, w': World, op: Token, f: Fence)
    requires SoundWorld(w) && Evolves(w.store, w.history, w'.store, w'.history) && BelongsAt(w.store, op, f)
    ensures BelongsAt(w'.store, op, f)
  {
    hide Enabled, After, BelongsAt, SoundWorld;
    SoundParts(w);
    if w'.store != w.store {
      var write :| Enabled(w.store, write) && w'.store == After(w.store, write);
      StillBelongs(w.store, write, op, f);
    }
  }

  /** From any store, with records beside legacy pointers or without, in which each pointer without a record is the only
   *  one that names its operation, no run makes one operation own two targets. */
  lemma OwnsOneTarget(run: seq<World>, op: Token, f: Fence, g: Fence)
    requires SoundRun(run)
    requires op in OwnersSeen(run, f) && op in OwnersSeen(run, g)
    ensures f == g
  {
    hide Next, OwnersSeen;
    SoundRunOk(run);
    SeenBelongs(run, op, f);
    SeenBelongs(run, op, g);
    SoundParts(run[|run| - 1]);
  }

  /** The owners of one connector, in order, are operations of one target and host that bind it, in the order in
   *  which they owned that target: connector ownership never returns to an older operation or crosses targets. */
  lemma ConnectorFollowsTarget(run: seq<World>, i: Token)
    requires BeginsRooted(run)
    requires ConnectorOwnersSeen(run, i) != []
    ensures var owners := ConnectorOwnersSeen(run, i); var records := run[|run| - 1].store.records;
      exists f :: Increasing(owners, OwnersSeen(run, f))
        && forall op :: op in owners ==> op in records && Binds(records[op].core, i) && FenceOf(records[op].core) == f
  {
    hide Increasing, WorldOk, RecordsValid, OwnersValid, Chained, Dangles, Next;
    if Crowded(run[0].store) {
      CrowdedConnectors(run, i);
    }
    ConnectorSeenIsHistory(run, i);
    RunOrdered(run);
    var s, h := run[|run| - 1].store, run[|run| - 1].history;
    assert ConnectorsOrdered(s, h);
    assert i in h.connectors;
    assert ConnectorOrdered(s, h, i);
    var f := FenceOf(s.records[s.connOwners[i].current].core);
    SeenIsHistory(run, f);
  }

  lemma {:induction false} CrowdedConnectors(run: seq<World>, i: Token)
    requires IsRun(run) && Crowded(run[0].store)
    ensures ConnectorOwnersSeen(run, i) == []
    decreases |run|
  {
    hide Next;
    CrowdedNeverMoves(run);
    if |run| == 1 {
      assert run[..0] == [];
    } else {
      CrowdedConnectors(run[..|run| - 1], i);
    }
  }

  /** Terminal operations have settled their claims in every world, if they had in the first. */
  lemma {:induction false} RunTerminal(run: seq<World>)
    requires SoundRun(run) && TerminalClaims(run[0].store)
    ensures forall k :: 0 <= k < |run| ==> TerminalClaims(run[k].store)
  {
    hide TerminalClaims, Next, SoundWorld, Valid, Enabled, After;
    SoundRunOk(run);
    var k := 0;
    while k < |run| - 1
      invariant 0 <= k < |run|
      invariant forall j :: 0 <= j <= k ==> TerminalClaims(run[j].store)
    {
      NextSound(run[k], run[k + 1]);
      SoundParts(run[k]);
      var s, s' := run[k].store, run[k + 1].store;
      if s' != s {
        var w :| Enabled(s, w) && s' == After(s, w);
        TerminalAfter(s, w);
      }
      k := k + 1;
    }
  }

  /** A completed operation, rolled back or not, has released every connector it binds; an expired one gave up
   *  the claim of its only connector. */
  lemma CompletionMeansReleased(run: seq<World>, k: nat, op: Token)
    requires IsRun(run) && k < |run| && op in run[k].store.records
    ensures var s := run[k].store; var r := s.records[op];
      && (r.phase in {Completed, RollbackFenced, RollbackConverged, RollbackBlocked} ==>
            forall i :: Binds(r.core, i) ==> ClaimKey(i, op) in s.claims && s.claims[ClaimKey(i, op)].phase == Released)
      && (r.phase == ExpiredUnclaimed ==>
            && SoleConnector(r.core)
            && var key := ClaimKey(SoleInstance(r.core), op);
            && key in s.claims && s.claims[key].phase == ClaimExpired)
  {
    hide Next, Valid, Binds;
    LegacyRunIsSound(run);
    RunTerminal(run);
    var s := run[k].store;
    assert TerminalClaims(s);
    if AfterCompletion(s.records[op].phase) {
      forall i | Binds(s.records[op].core, i) ensures ClaimKey(i, op) in s.claims && s.claims[ClaimKey(i, op)].phase == Released {
        assert ReleasedFor(s, op, i);
      }
    }
  }
}
