/** What one operation's files go through over a run. */
module RecordHistory {
  import opened Domain
  import opened Records
  import opened StateActions
  import opened StateInvariants
  import opened StateProofs
  import opened StepMachine
  import opened Interference
  import opened Runs
  import opened Ownership

  ghost function RecordsAt(run: seq<World>, k: nat): map<Token, OperationRecord>
    requires k < |run|
  {
    run[k].store.records
  }

  // ----- no lost update -----

  /** A record file appears in its initial state and then moves along the phase graph, one edge at a time
   *  and only while its operation owns the target. */
  ghost predicate RecordStep(s: Store, s': Store, op: Token) {
    && (op in s.records ==> op in s'.records)
    && (op !in s.records && op in s'.records ==> s'.records[op] == Initial(s'.records[op].core))
    && (op in s.records && s'.records[op] != s.records[op] ==>
          LegalEdge(s.records[op], s'.records[op]) && IsCurrent(s, s.records[op].core))
  }

  lemma WriteIsRecordStep(s: Store, w: Write, op: Token)
    requires RecordsValid(s) && Enabled(s, w)
    ensures RecordStep(s, After(s, w), op)
  {
    hide CanOwn, CompletionVerified, ClaimAdmitted, PriorAllows;
    if w.UpdateRecord? {
      hide Changed, LegalEdge;
      ChangedIsLegal(s.records[w.op], w.change);
    }
  }

  lemma NoLostUpdate(run: seq<World>, k: nat, op: Token)
    requires SoundRun(run) && k < |run| - 1
    ensures RecordStep(run[k].store, run[k + 1].store, op)
  {
    hide RecordStep, Enabled, After, Next, Valid, Exclusive, AllKnow;
    SoundRunOk(run);
    SoundParts(run[k]);
    NextSound(run[k], run[k + 1]);
    var s, s' := run[k].store, run[k + 1].store;
    if s' == s {
      SameIsRecordStep(s, op);
    } else {
      var w :| Enabled(s, w) && s' == After(s, w);
      WriteIsRecordStep(s, w, op);
    }
  }

  lemma SameIsRecordStep(s: Store, op: Token)
    ensures RecordStep(s, s, op)
  {
  }

  /** Reachable from `before` along edges of the phase graph. */
  ghost predicate Path(path: seq<OperationRecord>, before: OperationRecord, after: OperationRecord) {
    && |path| > 0 && path[0] == before && path[|path| - 1] == after
    && forall a, b :: 0 <= a < |path| && b == a + 1 < |path| ==> LegalEdge(path[a], path[b])
  }

  lemma PathExtend(path: seq<OperationRecord>, before: OperationRecord, middle: OperationRecord, after: OperationRecord)
    requires Path(path, before, middle) && LegalEdge(middle, after)
    ensures Path(path + [after], before, after)
  {
    hide LegalEdge;
  }

  /** What the files of two moments of a run say about one operation, the later against the earlier. */
  ghost predicate Progressed(before: OperationRecord, after: OperationRecord) {
    && after.core == before.core
    && ProvenRank(before.lastProven) <= ProvenRank(after.lastProven)
    && ValidRecord(after)
  }

  lemma StepProgresses(s: Store, s': Store, op: Token)
    requires RecordsValid(s) && RecordsValid(s') && RecordStep(s, s', op) && op in s.records
    ensures op in s'.records && Progressed(s.records[op], s'.records[op])
    ensures s'.records[op] == s.records[op] || LegalEdge(s.records[op], s'.records[op])
  {
    if s'.records[op] != s.records[op] {
      EdgeAdvances(s.records[op], s'.records[op]);
    }
  }

  lemma ProgressTransitive(a: OperationRecord, b: OperationRecord, c: OperationRecord)
    requires Progressed(a, b) && Progressed(b, c)
    ensures Progressed(a, c)
  {
  }

  /** The history of a record file is a path of the phase graph; identity never changes, the proven phase never
   *  moves back, and the file is valid throughout. */
  lemma {:induction false} RecordFollowsPath(run: seq<World>, i: nat, j: nat, op: Token)
    returns (path: seq<OperationRecord>)
    requires SoundRun(run) && i <= j < |run| && op in RecordsAt(run, i)
    ensures op in RecordsAt(run, j)
    ensures Path(path, RecordsAt(run, i)[op], RecordsAt(run, j)[op])
    ensures Progressed(RecordsAt(run, i)[op], RecordsAt(run, j)[op])
    decreases j
  {
    hide LegalEdge, Valid, Path, Progressed, RecordStep, Next;
    RunRecordsValid(run, j);
    if i == j {
      path := [RecordsAt(run, i)[op]];
      SinglePath(RecordsAt(run, i)[op], run[i].store, op);
    } else {
      var before := RecordFollowsPath(run, i, j - 1, op);
      NoLostUpdate(run, j - 1, op);
      RunRecordsValid(run, j - 1);
      StepProgresses(run[j - 1].store, run[j].store, op);
      ProgressTransitive(RecordsAt(run, i)[op], RecordsAt(run, j - 1)[op], RecordsAt(run, j)[op]);
      path := before;
      if RecordsAt(run, j)[op] != RecordsAt(run, j - 1)[op] {
        PathExtend(before, RecordsAt(run, i)[op], RecordsAt(run, j - 1)[op], RecordsAt(run, j)[op]);
        path := before + [RecordsAt(run, j)[op]];
      }
    }
  }

  lemma SinglePath(r: OperationRecord, s: Store, op: Token)
    requires RecordsValid(s) && op in s.records && s.records[op] == r
    ensures Path([r], r, r) && Progressed(r, r)
  {
  }

  lemma RunRecordsValid(run: seq<World>, k: nat)
    requires SoundRun(run) && k < |run|
    ensures RecordsValid(run[k].store)
  {
    hide Next, Valid, SoundWorld;
    SoundRunOk(run);
    SoundParts(run[k]);
  }

  lemma EdgeAdvances(before: OperationRecord, after: OperationRecord)
    requires LegalEdge(before, after) && ValidRecord(before) && ValidRecord(after)
    ensures before.core == after.core && ProvenRank(before.lastProven) <= ProvenRank(after.lastProven)
  {
    var change := LegalIsChanged(before, after);
    ChangedIsLegal(before, change);
  }

  // ----- phases in order -----

  ghost predicate WasAt(run: seq<World>, m: nat, op: Token, phase: OperationPhase) {
    m < |run| && op in RecordsAt(run, m) && RecordsAt(run, m)[op].phase == phase
  }

  /** No phase is skipped: when the proven phase stands somewhere on the forward path of its workload, the operation was
   *  in every earlier phase of that path before. */
  lemma {:induction false} PhasesInOrder(run: seq<World>, k: nat, op: Token, i: nat, j: nat) returns (m: nat)
    requires IsRun(run) && k < |run| && op in RecordsAt(run, k)
    requires var path := ForwardPath(RecordsAt(run, k)[op].core.binding.workload);
      j <= i < |path| && path[i] == RecordsAt(run, k)[op].lastProven
    ensures m <= k && WasAt(run, m, op, ForwardPath(RecordsAt(run, k)[op].core.binding.workload)[j])
    decreases k
  {
    hide Next, ComesNext, ShortOfEnd;
    LegacyRunIsSound(run);
    RunRecordsValid(run, k);
    assert k > 0;
    NoLostUpdate(run, k - 1, op);
    var now := RecordsAt(run, k)[op];
    if op !in RecordsAt(run, k - 1) {
      PlannedIsFirst(now, i);
      return k;
    }
    var before := RecordsAt(run, k - 1)[op];
    RunRecordsValid(run, k - 1);
    if before == now || before.lastProven == now.lastProven {
      m := PhasesInOrder(run, k - 1, op, i, j);
    } else {
      ProvenMoves(before, now, i);
      if j == i {
        m := k;
      } else {
        m := PhasesInOrder(run, k - 1, op, i - 1, j);
      }
    }
  }

  lemma PlannedIsFirst(r: OperationRecord, i: nat)
    requires r == Initial(r.core) && i < |ForwardPath(r.core.binding.workload)|
    requires ForwardPath(r.core.binding.workload)[i] == r.lastProven
    ensures i == 0
  {
  }

  lemma ProvenMoves(before: OperationRecord, after: OperationRecord, i: nat)
    requires ValidRecord(before) && LegalEdge(before, after) && before.lastProven != after.lastProven
    requires i < |ForwardPath(after.core.binding.workload)| && ForwardPath(after.core.binding.workload)[i] == after.lastProven
    ensures i > 0 && ForwardPath(after.core.binding.workload)[i - 1] == before.lastProven && after.phase == after.lastProven
  {
    hide ValidIdentity;
    var workload := after.core.binding.workload;
    hide ForwardPath;
    NotExpired(workload, i);
    if ShortOfEnd(workload, before.phase) {
      var n :| 0 <= n < |ForwardPath(workload)| && ForwardPath(workload)[n] == before.phase;
      NotFailed(workload, n);
    }
    assert ComesNext(workload, before.phase, after.phase);
    var n :| 0 <= n < |ForwardPath(workload)| - 1
      && ForwardPath(workload)[n] == before.phase && ForwardPath(workload)[n + 1] == after.phase;
    NotFailed(workload, n);
    NotFailed(workload, n + 1);
    NotExpired(workload, n + 1);
    PathDistinct(workload, n + 1, i);
  }

  lemma NotExpired(workload: Workload, i: nat)
    requires i < |ForwardPath(workload)|
    ensures ForwardPath(workload)[i] != ExpiredUnclaimed
  {
  }

  lemma NotFailed(workload: Workload, i: nat)
    requires i < |ForwardPath(workload)|
    ensures ForwardPath(workload)[i] !in {FailedRecoverable, RollbackFenced, RollbackConverged, RollbackBlocked}
  {
  }

  lemma PathDistinct(workload: Workload, i: nat, j: nat)
    requires i < |ForwardPath(workload)| && j < |ForwardPath(workload)|
    requires ForwardPath(workload)[i] == ForwardPath(workload)[j]
    ensures i == j
  {
    assert ProvenRank(ForwardPath(workload)[i]) == ProvenRank(ForwardPath(workload)[j]);
  }

  /** So a node operation whose services have converged applied its migration before. */
  lemma MigrationComesFirst(run: seq<World>, k: nat, op: Token) returns (m: nat)
    requires IsRun(run) && k < |run| && op in RecordsAt(run, k)
    requires RecordsAt(run, k)[op].core.binding.workload.NodeWorkload?
    requires RecordsAt(run, k)[op].lastProven in {ServicesConverged, ReadinessVerified, Completed}
    ensures m < k && WasAt(run, m, op, MigrationApplied)
  {
    hide Next, IsRun;
    var proven := RecordsAt(run, k)[op].lastProven;
    m := PhasesInOrder(run, k, op, if proven == ServicesConverged then 7 else if proven == ReadinessVerified then 8 else 9, 6);
    LegacyRunIsSound(run);
    RunRecordsValid(run, k);
  }

  // ----- claims -----

  /** A claim file appears prepared, and then moves along the claims' phase graph, one edge at a time and only while its
   *  operation owns the connector and the target. */
  ghost predicate ClaimFileStep(s: Store, s': Store, key: ClaimKey) {
    && (key in s.claims ==> key in s'.claims && s'.claims[key].core == s.claims[key].core)
    && (key !in s.claims && key in s'.claims ==> s'.claims[key].phase == Prepared)
    && (key in s.claims && s'.claims[key] != s.claims[key] ==>
          && ClaimEdge(s.claims[key].phase, s'.claims[key].phase)
          && key.instance in s.connOwners && s.connOwners[key.instance].current == key.op
          && key.op in s.records && IsCurrent(s, s.records[key.op].core))
  }

  lemma WriteIsClaimFileStep(s: Store, w: Write, key: ClaimKey)
    requires RecordsValid(s) && ClaimsValid(s) && Enabled(s, w)
    ensures ClaimFileStep(s, After(s, w), key)
  {
    hide CanOwn, CompletionVerified, ClaimAdmitted, PriorAllows, ValidRecord;
    if w.UpdateClaim? {
      var moved := ClaimKey(w.instance, s.connOwners[w.instance].current);
      assert Canonical(s.records, moved.op, moved.instance, s.claims[moved].core);
    }
  }

  /** The same for the claims: each step leaves a claim file, creates it prepared, or moves it along one edge. */
  lemma NoLostClaim(run: seq<World>, k: nat, key: ClaimKey)
    requires SoundRun(run) && k < |run| - 1
    ensures ClaimFileStep(run[k].store, run[k + 1].store, key)
  {
    hide ClaimFileStep, Enabled, After, Next, Valid, Exclusive, AllKnow;
    SoundRunOk(run);
    SoundParts(run[k]);
    NextSound(run[k], run[k + 1]);
    var s, s' := run[k].store, run[k + 1].store;
    if s' == s {
      SameIsClaimFileStep(s, key);
    } else {
      var w :| Enabled(s, w) && s' == After(s, w);
      WriteIsClaimFileStep(s, w, key);
    }
  }

  lemma SameIsClaimFileStep(s: Store, key: ClaimKey)
    ensures ClaimFileStep(s, s, key)
  {
  }

  ghost predicate ClaimWasAt(run: seq<World>, m: nat, key: ClaimKey, phase: ClaimPhase) {
    m < |run| && key in run[m].store.claims && run[m].store.claims[key].phase == phase
  }

  /** A released claim was observed before, and an observed or expired one was prepared. */
  lemma {:induction false} ClaimsInOrder(run: seq<World>, k: nat, key: ClaimKey) returns (m: nat)
    requires IsRun(run) && k < |run| && key in run[k].store.claims && run[k].store.claims[key].phase != Prepared
    ensures m < k && ClaimWasAt(run, m, key, if run[k].store.claims[key].phase == Released then HandoffObserved else Prepared)
    decreases k
  {
    hide Next;
    LegacyRunIsSound(run);
    assert k > 0;
    NoLostClaim(run, k - 1, key);
    if run[k - 1].store.claims[key] == run[k].store.claims[key] {
      m := ClaimsInOrder(run, k - 1, key);
    } else {
      m := k - 1;
    }
  }

  // ----- taking over -----

  /** A target's pointer appears for an operation without predecessor, and moves only to an operation that names the one
   *  before as predecessor, which has completed, been rolled back or expired; an expired one only to the operation that
   *  binds the same one connector again, once the claim has expired. */
  ghost predicate TargetTaken(s: Store, s': Store, f: Fence) {
    && (f in s.owners ==> f in s'.owners)
    && (f !in s.owners && f in s'.owners ==> s'.owners[f].predecessor.None? && s'.owners[f].current in s.records)
    && (f in s.owners && s'.owners[f] != s.owners[f] ==>
          var older, newer := s.owners[f].current, s'.owners[f].current;
          && s'.owners[f].predecessor == Some(older)
          && older in s.records && newer in s.records && Settled(s.records[older].phase)
          && (s.records[older].phase == ExpiredUnclaimed ==> Reissues(s, s.records[older].core, s.records[newer].core)))
  }

  ghost predicate Reissues(s: Store, older: OperationIdentity, newer: OperationIdentity) {
    && older.binding.workload.ConnectorHost? && newer.binding.workload.ConnectorHost?
    && |older.binding.workload.connectors| == 1 && |newer.binding.workload.connectors| == 1
    && var instance := older.binding.workload.connectors[0].instance;
    && newer.binding.workload.connectors[0].instance == instance
    && ClaimKey(instance, older.op) in s.claims && s.claims[ClaimKey(instance, older.op)].phase == ClaimExpired
  }

  lemma WriteTakesTarget(s: Store, w: Write, f: Fence)
    requires RecordsValid(s) && OwnersValid(s) && Enabled(s, w)
    ensures TargetTaken(s, After(s, w), f)
  {
    hide CompletionVerified, ClaimAdmitted, PriorAllows, ValidRecord, Changed;
  }

  /** A connector's pointer appears without predecessor, and moves only to an operation that owns its target, on the same
   *  target and host as the one before, when that one has released the connector and completed or been rolled back, or
   *  when its claim has expired, it has expired, and the new one is its named successor. */
  ghost predicate ConnectorTaken(s: Store, s': Store, i: Token) {
    && (i in s.connOwners ==> i in s'.connOwners)
    && (i !in s.connOwners && i in s'.connOwners ==> s'.connOwners[i].predecessor.None?)
    && (i in s'.connOwners && (i in s.connOwners ==> s'.connOwners[i] != s.connOwners[i]) ==>
          var newer := s'.connOwners[i].current;
          newer in s.records && IsCurrent(s, s.records[newer].core) && Binds(s.records[newer].core, i))
    && (i in s.connOwners && s'.connOwners[i] != s.connOwners[i] ==>
          var older, newer := s.connOwners[i].current, s'.connOwners[i].current;
          && (s'.connOwners[i].predecessor.Some? ==> s'.connOwners[i].predecessor == Some(older))
          && older in s.records && newer in s.records && ClaimKey(i, older) in s.claims
          && s.records[older].core.target == s.records[newer].core.target
          && s.records[older].core.binding.host == s.records[newer].core.binding.host
          && HandsOver(s.claims[ClaimKey(i, older)].phase, s.records[older].phase, s.records[newer].core.predecessor == Some(older)))
  }

  predicate HandsOver(claim: ClaimPhase, older: OperationPhase, named: bool) {
    || (claim == Released && (older == Completed || older == RollbackConverged))
    || (claim == ClaimExpired && older == ExpiredUnclaimed && named)
  }

  lemma WriteTakesConnector(s: Store, w: Write, i: Token)
    requires RecordsValid(s) && OwnersValid(s) && ClaimsValid(s) && Enabled(s, w)
    ensures ConnectorTaken(s, After(s, w), i)
  {
    hide CanOwn, CompletionVerified, ValidRecord, Changed;
    if w.PublishConnectorOwner? && w.claim.instance == i {
      var claim := w.claim;
      BoundIsBinding(s.records[claim.op].core, i);
      if i in s.connOwners {
        var key := ClaimKey(i, s.connOwners[i].current);
        assert Canonical(s.records, key.op, key.instance, s.claims[key].core);
      }
    }
  }

  lemma BoundIsBinding(core: OperationIdentity, i: Token)
    requires core.binding.workload.ConnectorHost? && FindConnector(core.binding.workload.connectors, i).Some?
    ensures Binds(core, i)
  {
    var connectors := core.binding.workload.connectors;
    var k :| 0 <= k < |connectors| && connectors[k].instance == i;
    assert Connectors(core.binding.workload)[k].instance == i;
  }

  /** Each step of each run, from any well-formed files, leaves both kinds of pointer or moves them as said. */
  lemma TakenOverInOrder(run: seq<World>, k: nat, f: Fence, i: Token)
    requires SoundRun(run) && k < |run| - 1
    ensures TargetTaken(run[k].store, run[k + 1].store, f)
    ensures ConnectorTaken(run[k].store, run[k + 1].store, i)
  {
    hide TargetTaken, ConnectorTaken, Enabled, After, Next, Valid, Exclusive, AllKnow;
    SoundRunOk(run);
    SoundParts(run[k]);
    NextSound(run[k], run[k + 1]);
    var s, s' := run[k].store, run[k + 1].store;
    if s' == s {
      SameTaken(s, f, i);
    } else {
      var w :| Enabled(s, w) && s' == After(s, w);
      WriteTakesTarget(s, w, f);
      WriteTakesConnector(s, w, i);
    }
  }

  lemma SameTaken(s: Store, f: Fence, i: Token)
    ensures TargetTaken(s, s, f) && ConnectorTaken(s, s, i)
  {
  }

  // ----- superseded operations -----

  ghost predicate Superseded(s: Store, h: History, op: Token) {
    && op in s.records
    && var f := FenceOf(s.records[op].core);
    && op in TargetHistory(h, f)
    && f in s.owners && s.owners[f].current != op
  }

  /** Everything the deployer keeps about one operation besides its ownership of a connector. */
  ghost predicate FilesKept(s: Store, s': Store, op: Token) {
    && op in s.records && op in s'.records && s'.records[op] == s.records[op]
    && (forall i :: ClaimKey(i, op) in s.claims <==> ClaimKey(i, op) in s'.claims)
    && (forall i :: ClaimKey(i, op) in s.claims ==> s'.claims[ClaimKey(i, op)] == s.claims[ClaimKey(i, op)])
  }

  lemma SupersededKept(s: Store, h: History, w: Write, op: Token)
    requires RecordsValid(s) && ClaimsValid(s) && Enabled(s, w) && Superseded(s, h, op)
    ensures FilesKept(s, After(s, w), op)
  {
    hide CanOwn, CompletionVerified, MatchesParent, ConnectorPredecessor, PriorAllows, ValidRecord;
    match w
    case UpdateClaim(i, _) =>
      var key := ClaimKey(i, s.connOwners[i].current);
      assert Canonical(s.records, key.op, key.instance, s.claims[key].core);
    case _ =>
  }

  lemma SupersededStays(s: Store, h: History, w: Write, op: Token)
    requires RecordsValid(s) && OwnersValid(s) && HistoryCurrent(s, h) && Chained(s, h) && Rooted(s, h) && NoRepeats(h)
    requires Enabled(s, w) && Superseded(s, h, op)
    ensures Superseded(After(s, w), HistoryAfter(s, h, w), op)
  {
    hide CompletionVerified, ClaimAdmitted, PriorAllows, ValidRecord, Chained, Rooted;
    CoresKeptAfter(s, w);
    var f := FenceOf(s.records[op].core);
    HistoryGrows(s, h, w, f);
    if w.PublishOwner? && FenceOf(w.core) == f && s.owners[f].current != w.core.op {
      NewOwnerIsNew(s, h, w.core);
    }
  }

  lemma EvolutionKeepsSuperseded(s: Store, h: History, s': Store, h': History, op: Token)
    requires Ordered(s, h) && Evolves(s, h, s', h') && Superseded(s, h, op)
    ensures FilesKept(s, s', op) && Superseded(s', h', op)
  {
    hide Superseded, Enabled, After, HistoryAfter, RecordsValid, OwnersValid, HistoryCurrent, Chained, UnownedPlanned;
    hide ClaimsValid;
    hide Rooted, NoRepeats, AllSettledBehind, ConnectorsOrdered, TerminalClaims, FilesKept;
    if s' == s && h' == h {
      SameFiles(s, h, op);
    } else {
      var w :| Enabled(s, w) && s' == After(s, w) && h' == HistoryAfter(s, h, w);
      SupersededKept(s, h, w, op);
      SupersededStays(s, h, w, op);
    }
  }

  lemma SameFiles(s: Store, h: History, op: Token)
    requires Superseded(s, h, op)
    ensures FilesKept(s, s, op)
  {
  }

  lemma FilesKeptTransitive(s: Store, t: Store, u: Store, op: Token)
    requires FilesKept(s, t, op) && FilesKept(t, u, op)
    ensures FilesKept(s, u, op)
  {
  }

  /** Once another operation owns the target, the record and all connector claims of the old owner never change. */
  lemma {:induction false} SupersededIsFrozen(run: seq<World>, i: nat, j: nat, op: Token)
    requires RootedRun(run) && i <= j < |run| && Superseded(run[i].store, run[i].history, op)
    ensures FilesKept(run[i].store, run[j].store, op) && Superseded(run[j].store, run[j].history, op)
    decreases j
  {
    hide WorldOk, Ordered, Superseded, FilesKept, Next, Evolves;
    if i == j {
      SameFiles(run[i].store, run[i].history, op);
    } else {
      SupersededIsFrozen(run, i, j - 1, op);
      RunOk(run);
      RunOrdered(run);
      assert Next(run[j - 1], run[j - 1 + 1]);
      NextOk(run[j - 1], run[j]);
      EvolutionKeepsSuperseded(run[j - 1].store, run[j - 1].history, run[j].store, run[j].history, op);
      FilesKeptTransitive(run[i].store, run[j - 1].store, run[j].store, op);
    }
  }

  // ----- lost slots -----

  /** The record was written, but another operation took the place after its predecessor. */
  ghost predicate LostSlot(s: Store, h: History, op: Token) {
    && op in s.records
    && var f := FenceOf(s.records[op].core);
    && op !in TargetHistory(h, f)
    && f in h.targets && f in s.owners
    && (match s.records[op].core.predecessor
        case None => true
        case Some(q) => q in h.targets[f] && s.owners[f].current != q)
  }

  lemma LostSlotStays(s: Store, h: History, w: Write, op: Token)
    requires RecordsValid(s) && OwnersValid(s) && HistoryCurrent(s, h) && Chained(s, h) && Rooted(s, h) && NoRepeats(h)
    requires Enabled(s, w) && LostSlot(s, h, op)
    ensures LostSlot(After(s, w), HistoryAfter(s, h, w), op)
  {
    hide CompletionVerified, ClaimAdmitted, PriorAllows, ValidRecord, Chained, Rooted;
    CoresKeptAfter(s, w);
    var f := FenceOf(s.records[op].core);
    HistoryGrows(s, h, w, f);
    if w.PublishOwner? && FenceOf(w.core) == f && s.owners[f].current != w.core.op {
      NewOwnerIsNew(s, h, w.core);
    }
  }

  lemma EvolutionKeepsLost(s: Store, h: History, s': Store, h': History, op: Token)
    requires Ordered(s, h) && Evolves(s, h, s', h') && LostSlot(s, h, op)
    ensures LostSlot(s', h', op)
  {
    hide LostSlot, Enabled, After, HistoryAfter, RecordsValid, OwnersValid, HistoryCurrent, Chained, UnownedPlanned;
    hide ClaimsValid;
    hide Rooted, NoRepeats, AllSettledBehind, ConnectorsOrdered, TerminalClaims;
    if !(s' == s && h' == h) {
      var w :| Enabled(s, w) && s' == After(s, w) && h' == HistoryAfter(s, h, w);
      LostSlotStays(s, h, w, op);
    }
  }

  lemma LostIsPlanned(s: Store, h: History, op: Token)
    requires Consistent(s, h) && LostSlot(s, h, op)
    ensures op in s.records
    ensures s.records[op] == Initial(s.records[op].core)
    ensures op !in TargetHistory(h, FenceOf(s.records[op].core))
  {
  }

  /** An operation that lost its slot stays `Planned` and never becomes owner. */
  lemma {:induction false} LostSlotNeverOwns(run: seq<World>, i: nat, j: nat, op: Token)
    requires RootedRun(run) && i <= j < |run| && LostSlot(run[i].store, run[i].history, op)
    ensures LostSlot(run[j].store, run[j].history, op)
    ensures op in RecordsAt(run, j) && RecordsAt(run, j)[op] == Initial(RecordsAt(run, j)[op].core)
    ensures op !in OwnersSeen(run[..j + 1], FenceOf(RecordsAt(run, j)[op].core))
    decreases j
  {
    hide LostSlot, Ordered, Next, Evolves, Exclusive, AllKnow, Consistent, OwnersSeen;
    RunOk(run);
    if i < j {
      LostSlotNeverOwns(run, i, j - 1, op);
      RunOrdered(run);
      assert Next(run[j - 1], run[j - 1 + 1]);
      NextOk(run[j - 1], run[j]);
      EvolutionKeepsLost(run[j - 1].store, run[j - 1].history, run[j].store, run[j].history, op);
    }
    LostIsPlanned(run[j].store, run[j].history, op);
    SeenIsHistory(run[..j + 1], FenceOf(RecordsAt(run, j)[op].core));
  }

  // ----- the same, as an observer of the pointer files sees it -----

  lemma PrefixBegins(run: seq<World>, i: nat)
    requires RootedRun(run) && i < |run|
    ensures RootedRun(run[..i + 1]) && run[..i + 1][i] == run[i]
  {
    hide Next, Init;
    var prefix := run[..i + 1];
    forall k | 0 <= k < |prefix| - 1 ensures Next(prefix[k], prefix[k + 1]) {
      assert Next(run[k], run[k + 1]);
    }
  }

  /** Once ownership of a target has moved on, nothing about the operation that owned it changes any more. */
  lemma SupersededNeverChanges(run: seq<World>, i: nat, j: nat, op: Token)
    requires BeginsRooted(run) && i <= j < |run| && op in RecordsAt(run, i)
    requires var f := FenceOf(RecordsAt(run, i)[op].core);
      op in OwnersSeen(run[..i + 1], f) && f in run[i].store.owners && run[i].store.owners[f].current != op
    ensures FilesKept(run[i].store, run[j].store, op)
  {
    hide FilesKept, Next, Init, Dangles;
    RecordedIsRooted(run, i, op);
    PrefixBegins(run, i);
    SeenIsHistory(run[..i + 1], FenceOf(RecordsAt(run, i)[op].core));
    SupersededIsFrozen(run, i, j, op);
  }

  /** A recorded operation that has not owned its target, while the target's pointer names neither it nor the
   *  predecessor it waits for, has lost its slot: it stays planned and never becomes owner. */
  lemma UnownedNeverOwns(run: seq<World>, i: nat, j: nat, op: Token)
    requires BeginsRooted(run) && i <= j < |run| && op in RecordsAt(run, i)
    requires var core := RecordsAt(run, i)[op].core; var f := FenceOf(core);
      && f in run[i].store.owners && op !in OwnersSeen(run[..i + 1], f)
      && (core.predecessor.Some? ==>
            core.predecessor.value in OwnersSeen(run[..i + 1], f) && run[i].store.owners[f].current != core.predecessor.value)
    ensures op in RecordsAt(run, j) && RecordsAt(run, j)[op] == Initial(RecordsAt(run, i)[op].core)
    ensures op !in OwnersSeen(run[..j + 1], FenceOf(RecordsAt(run, i)[op].core))
  {
    hide Next, Init, OwnersSeen, WorldOk, Dangles;
    RecordedIsRooted(run, i, op);
    LegacyRunIsSound(run);
    PrefixBegins(run, i);
    SeenIsHistory(run[..i + 1], FenceOf(RecordsAt(run, i)[op].core));
    RunOk(run);
    WorldCurrent(run[i]);
    hide Consistent, Progressed, Path;
    LostSlotNeverOwns(run, i, j, op);
    var path := RecordFollowsPath(run, i, j, op);
    PathKeepsCore(RecordsAt(run, i)[op], RecordsAt(run, j)[op]);
  }

  lemma PathKeepsCore(before: OperationRecord, after: OperationRecord)
    requires Progressed(before, after)
    ensures after.core == before.core
  {
  }
}
