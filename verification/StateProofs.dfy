/** Every enabled write keeps the store consistent and its ownership ordered. */
module StateProofs {
  import opened Domain
  import opened Records
  import opened StateActions
  import opened StateInvariants

  ghost predicate CoresKept(s: Store, s': Store) {
    forall o :: o in s.records ==> o in s'.records && s'.records[o].core == s.records[o].core
  }

  /** Records are never removed and never change identity. */
  lemma CoresKeptAfter(s: Store, w: Write)
    requires RecordsValid(s) && Enabled(s, w)
    ensures CoresKept(s, After(s, w))
  {
    if w.UpdateRecord? {
      ChangedIsLegal(s.records[w.op], w.change);
    }
  }

  // ----- consistency -----

  lemma RecordsValidAfter(s: Store, w: Write)
    requires RecordsValid(s) && Enabled(s, w)
    ensures RecordsValid(After(s, w))
  {
    if w.UpdateRecord? {
      ChangedIsLegal(s.records[w.op], w.change);
    }
  }

  lemma OwnersValidAfter(s: Store, w: Write)
    requires RecordsValid(s) && OwnersValid(s) && Enabled(s, w)
    ensures OwnersValid(After(s, w))
  {
    match w
    case CreateRecord(core) =>
    case PublishOwner(core) =>
    case UpdateRecord(op, change) => CoresKeptAfter(s, w);
    case _ =>
  }

  lemma HistoryCurrentAfter(s: Store, h: History, w: Write)
    requires HistoryCurrent(s, h) && Enabled(s, w)
    ensures HistoryCurrent(After(s, w), HistoryAfter(s, h, w))
  {
    hide Enabled, TargetHistory;
    if w.PublishOwner? {
      OwnerHistoryCurrent(s, h, w.core);
    } else {
      assert After(s, w).owners == s.owners;
      assert HistoryAfter(s, h, w).targets == h.targets;
    }
  }

  lemma OwnerHistoryCurrent(s: Store, h: History, core: OperationIdentity)
    requires HistoryCurrent(s, h) && Enabled(s, PublishOwner(core))
    ensures HistoryCurrent(After(s, PublishOwner(core)), HistoryAfter(s, h, PublishOwner(core)))
  {
    hide Enabled;
  }

  /** Only the sole owner of a legacy target may have no record. */
  lemma SuccessionRecorded(s: Store, h: History, f: Fence, k: nat)
    requires Chained(s, h) && f in h.targets && k < |h.targets[f]| && |h.targets[f]| > 1
    ensures h.targets[f][k] in s.records
  {
    if k == 0 {
      assert Succeeds(s, h.targets, f, 1);
    } else {
      assert Succeeds(s, h.targets, f, k);
    }
  }

  ghost predicate FencesMatch(s: Store, h: History) {
    forall f, k :: f in h.targets && 0 <= k < |h.targets[f]| && h.targets[f][k] in s.records ==>
      FenceOf(s.records[h.targets[f][k]].core) == f
  }

  lemma ChainedStable(s: Store, s': Store, h: History, h': History)
    requires Chained(s, h) && CoresKept(s, s') && h'.targets == h.targets && FencesMatch(s', h')
    ensures Chained(s', h')
  {
    forall f, k | f in h'.targets && 0 < k < |h'.targets[f]| ensures Succeeds(s', h'.targets, f, k) {
      assert Succeeds(s, h.targets, f, k);
    }
  }

  lemma CreateRecordFences(s: Store, h: History, core: OperationIdentity)
    requires OwnersValid(s) && HistoryCurrent(s, h) && Chained(s, h) && Enabled(s, CreateRecord(core))
    ensures FencesMatch(After(s, CreateRecord(core)), h)
  {
    var s' := After(s, CreateRecord(core));
    forall f, k | f in h.targets && 0 <= k < |h.targets[f]| && h.targets[f][k] in s'.records
      ensures FenceOf(s'.records[h.targets[f][k]].core) == f
    {
      if |h.targets[f]| > 1 {
        SuccessionRecorded(s, h, f, k);
      }
    }
  }

  lemma PublishOwnerChained(s: Store, h: History, core: OperationIdentity)
    requires HistoryCurrent(s, h) && Chained(s, h) && OwnersValid(s) && Enabled(s, PublishOwner(core))
    ensures Chained(After(s, PublishOwner(core)), HistoryAfter(s, h, PublishOwner(core)))
  {
    var s', h' := After(s, PublishOwner(core)), HistoryAfter(s, h, PublishOwner(core));
    forall g, k | g in h'.targets && 0 < k < |h'.targets[g]| ensures Succeeds(s', h'.targets, g, k) {
      if g in h.targets && k < |h.targets[g]| {
        assert Succeeds(s, h.targets, g, k);
      }
    }
  }

  lemma ChainedAfter(s: Store, h: History, w: Write)
    requires RecordsValid(s) && HistoryCurrent(s, h) && Chained(s, h) && OwnersValid(s) && Enabled(s, w)
    ensures Chained(After(s, w), HistoryAfter(s, h, w))
  {
    hide OwnersValid, HistoryCurrent;
    if w.PublishOwner? {
      PublishOwnerChained(s, h, w.core);
    } else {
      if w.CreateRecord? {
        CreateRecordFences(s, h, w.core);
      }
      CoresKeptAfter(s, w);
      ChainedStable(s, After(s, w), h, HistoryAfter(s, h, w));
    }
  }

  /** A history only grows. */
  lemma HistoryGrows(s: Store, h: History, w: Write, f: Fence)
    requires Enabled(s, w)
    ensures TargetHistory(h, f) <= TargetHistory(HistoryAfter(s, h, w), f)
    ensures forall op :: op in TargetHistory(h, f) ==> op in TargetHistory(HistoryAfter(s, h, w), f)
  {
  }

  lemma CurrentInHistory(s: Store, h: History, core: OperationIdentity)
    requires HistoryCurrent(s, h) && IsCurrent(s, core)
    ensures core.op in TargetHistory(h, FenceOf(core))
  {
    var f := FenceOf(core);
    assert h.targets[f][|h.targets[f]| - 1] == core.op;
  }

  lemma UnownedPlannedAfter(s: Store, h: History, w: Write)
    requires UnownedPlanned(s, h) && HistoryCurrent(s, h) && RecordsValid(s) && Enabled(s, w)
    ensures UnownedPlanned(After(s, w), HistoryAfter(s, h, w))
  {
    hide CanOwn, CompletionVerified, ValidRecord, Changed;
    match w
    case PublishOwner(core) =>
      var s', h' := After(s, w), HistoryAfter(s, h, w);
      forall op | op in s'.records && op !in TargetHistory(h', FenceOf(s'.records[op].core))
        ensures s'.records[op] == Initial(s'.records[op].core)
      {
        HistoryGrows(s, h, w, FenceOf(s.records[op].core));
      }
    case UpdateRecord(op, change) =>
      CurrentInHistory(s, h, s.records[op].core);
      CoresKeptAfter(s, w);
    case _ =>
  }

  /** A canonical claim identity stays canonical when records are added or change phase. */
  lemma ClaimsValidStable(s: Store, s': Store)
    requires ClaimsValid(s) && CoresKept(s, s')
    requires s'.connOwners == s.connOwners && s'.claims == s.claims
    ensures ClaimsValid(s')
  {
    forall i | i in s'.connOwners ensures Canonical(s'.records, s'.connOwners[i].current, i, s'.connOwners[i].identity) {
      assert Canonical(s.records, s.connOwners[i].current, i, s.connOwners[i].identity);
    }
    forall key | key in s'.claims ensures Canonical(s'.records, key.op, key.instance, s'.claims[key].core) {
      assert Canonical(s.records, key.op, key.instance, s.claims[key].core);
    }
  }

  lemma ClaimsValidAfter(s: Store, w: Write)
    requires RecordsValid(s) && ClaimsValid(s) && Enabled(s, w)
    ensures ClaimsValid(After(s, w))
  {
    hide RecordsValid, CanOwn, CompletionVerified, MatchesParent, ConnectorPredecessor;
    match w
    case PublishConnectorOwner(claim) =>
    case CreateClaim(claim) =>
    case UpdateClaim(instance, change) =>
      var key := ClaimKey(instance, s.connOwners[instance].current);
      assert Canonical(s.records, key.op, key.instance, s.claims[key].core);
    case _ =>
      CoresKeptAfter(s, w);
      ClaimsValidStable(s, After(s, w));
  }

  lemma WriteConsistent(s: Store, h: History, w: Write)
    requires Consistent(s, h) && Enabled(s, w)
    ensures Consistent(After(s, w), HistoryAfter(s, h, w))
  {
    hide RecordsValid, OwnersValid, HistoryCurrent, Chained, UnownedPlanned, ClaimsValid, Enabled, After, HistoryAfter;
    RecordsValidAfter(s, w);
    OwnersValidAfter(s, w);
    HistoryCurrentAfter(s, h, w);
    ChainedAfter(s, h, w);
    UnownedPlannedAfter(s, h, w);
    ClaimsValidAfter(s, w);
  }

  // ----- order -----

  /** A connector host settles only after its predecessor was recorded at the same target, since its claims name it. */
  lemma SettledHostFollows(s: Store, core: OperationIdentity)
    requires RecordsValid(s) && ClaimsValid(s) && TerminalClaims(s)
    requires core.op in s.records && s.records[core.op].core == core && core.binding.workload.ConnectorHost?
    requires core.predecessor.Some? && Settled(s.records[core.op].phase)
    ensures core.predecessor.value in s.records && FenceOf(s.records[core.predecessor.value].core) == FenceOf(core)
  {
    hide MatchesParent;
    var i := core.binding.workload.connectors[0].instance;
    assert Connectors(core.binding.workload)[0].instance == i;
    assert Binds(core, i);
    assert AfterCompletion(s.records[core.op].phase) ==> ReleasedFor(s, core.op, i);
    var key := ClaimKey(i, core.op);
    assert Canonical(s.records, key.op, key.instance, s.claims[key].core);
  }

  /** What the proofs below use of the first owner of a target. */
  ghost predicate FirstAt(s: Store, h: History, core: OperationIdentity, f: Fence) {
    && f in h.targets && |h.targets[f]| > 0 && h.targets[f][0] == core.op
    && FenceOf(core) == f && core.predecessor != Some(core.op)
    && (core.op in s.records ==> s.records[core.op].core == core)
  }

  /** A connector host that waits for a predecessor recorded nowhere at its target has no successor. */
  lemma StalledIsAlone(s: Store, h: History, core: OperationIdentity)
    requires RecordsValid(s) && ClaimsValid(s) && TerminalClaims(s) && HistoryCurrent(s, h) && Chained(s, h)
    requires AllSettledBehind(s, h)
    requires FirstAt(s, h, core, FenceOf(core)) && RootedAt(s, core, FenceOf(core))
    requires core.binding.workload.ConnectorHost? && core.predecessor.Some?
    ensures s.owners[FenceOf(core)].current == core.op
    ensures core.op in s.records ==> !Settled(s.records[core.op].phase)
  {
    hide RecordsValid, ClaimsValid, TerminalClaims, ReissueOf;
    var f := FenceOf(core);
    if |h.targets[f]| > 1 {
      assert Succeeds(s, h.targets, f, 1);
      assert SettledBehind(s, h.targets, f, 1);
    }
    if core.op in s.records && Settled(s.records[core.op].phase) {
      SettledHostFollows(s, core);
    }
  }

  lemma RootedAtStays(s: Store, h: History, w: Write, core: OperationIdentity, f: Fence)
    requires RecordsValid(s) && ClaimsValid(s) && TerminalClaims(s) && HistoryCurrent(s, h) && Chained(s, h)
    requires AllSettledBehind(s, h)
    requires FirstAt(s, h, core, f) && RootedAt(s, core, f) && Enabled(s, w)
    ensures RootedAt(After(s, w), core, f)
  {
    CoresKeptAfter(s, w);
    hide RecordsValid, ClaimsValid, TerminalClaims, HistoryCurrent, Chained, AllSettledBehind, ReissueOf, ExpiredClaimOf;
    hide CompletionVerified, ClaimAdmitted, PriorAllows, ValidIdentity, ValidRecord, Changed;
    if core.predecessor.Some? {
      var d := core.predecessor.value;
      match w
      case CreateRecord(next) =>
        if core.binding.workload.ConnectorHost? {
          StalledIsAlone(s, h, core);
        }
      case PublishOwner(next) =>
        if d !in s.records && core.binding.workload.NodeWorkload? {
          PublishKeepsNamed(s, next, d, f);
        }
      case _ =>
    }
  }

  lemma PublishKeepsNamed(s: Store, next: OperationIdentity, op: Token, f: Fence)
    requires Enabled(s, PublishOwner(next)) && op !in s.records && NamedApart(s, op, f)
    ensures NamedApart(After(s, PublishOwner(next)), op, f)
  {
    hide ReissueOf, ExpiredClaimOf, Settled;
    var g :| g in s.owners && g != f && s.owners[g].current == op;
    var s' := After(s, PublishOwner(next));
    assert FenceOf(next) != g;
    assert g in s'.owners && s'.owners[g] == s.owners[g];
  }

  lemma RootedAfter(s: Store, h: History, w: Write)
    requires Consistent(s, h) && Rooted(s, h) && AllSettledBehind(s, h) && TerminalClaims(s) && Enabled(s, w)
    ensures Rooted(After(s, w), HistoryAfter(s, h, w))
  {
    hide Consistent, AllSettledBehind, TerminalClaims, Enabled, After, HistoryAfter, RootedAt;
    var s', h' := After(s, w), HistoryAfter(s, h, w);
    forall f | f in h'.targets && |h'.targets[f]| > 0 && h'.targets[f][0] in s'.records
      ensures RootedAt(s', s'.records[h'.targets[f][0]].core, f)
    {
      FirstStaysRooted(s, h, w, f);
    }
    forall f | f in s'.owners && s'.owners[f].current !in s'.records && Adoptable(s'.owners[f])
      ensures RootedAt(s', s'.owners[f].identity, f)
    {
      PointerStaysRooted(s, h, w, f);
    }
  }

  lemma FirstStaysRooted(s: Store, h: History, w: Write, f: Fence)
    requires Consistent(s, h) && Rooted(s, h) && AllSettledBehind(s, h) && TerminalClaims(s) && Enabled(s, w)
    requires var s', h' := After(s, w), HistoryAfter(s, h, w);
      f in h'.targets && |h'.targets[f]| > 0 && h'.targets[f][0] in s'.records
    ensures var s', h' := After(s, w), HistoryAfter(s, h, w); RootedAt(s', s'.records[h'.targets[f][0]].core, f)
  {
    hide AllSettledBehind, TerminalClaims, CompletionVerified, ClaimAdmitted, PriorAllows, RootedAt, UnownedPlanned;
    hide ClaimsValid, Changed;
    hide Rooted, OwnersValid, Chained, CanOwn, ValidIdentity, RecordsValid;
    if f !in h.targets {
      assert w.PublishOwner?;
      FirstOfAll(s, h, w.core);
    } else {
      var core := FirstCore(s, h, w, f);
      RootedAtStays(s, h, w, core, f);
    }
  }

  /** The first owner of a target that had none names no predecessor. */
  lemma FirstOfAll(s: Store, h: History, core: OperationIdentity)
    requires HistoryCurrent(s, h) && Enabled(s, PublishOwner(core)) && FenceOf(core) !in h.targets
    ensures core.predecessor.None? && RootedAt(After(s, PublishOwner(core)), core, FenceOf(core))
  {
  }

  /** The first owner, as it is recorded or as the pointer that is adopted names it. */
  lemma FirstCore(s: Store, h: History, w: Write, f: Fence) returns (core: OperationIdentity)
    requires Consistent(s, h) && Rooted(s, h) && Enabled(s, w)
    requires f in h.targets && |h.targets[f]| > 0 && h.targets[f][0] in After(s, w).records
    ensures FirstAt(s, h, core, f) && RootedAt(s, core, f)
    ensures After(s, w).records[core.op].core == core
  {
    hide CompletionVerified, ClaimAdmitted, PriorAllows, RootedAt, UnownedPlanned, ClaimsValid, ReissueOf;
    hide ExpiredClaimOf, ValidPhase, Changed;
    CoresKeptAfter(s, w);
    var first := h.targets[f][0];
    if first in s.records {
      core := s.records[first].core;
    } else {
      core := s.owners[f].identity;
      AdoptedFirst(s, h, w, f);
    }
  }

  lemma AdoptedFirst(s: Store, h: History, w: Write, f: Fence)
    requires OwnersValid(s) && HistoryCurrent(s, h) && Chained(s, h) && Rooted(s, h) && Enabled(s, w)
    requires f in h.targets && |h.targets[f]| > 0
    requires h.targets[f][0] !in s.records && h.targets[f][0] in After(s, w).records
    ensures var core := s.owners[f].identity;
      FirstAt(s, h, core, f) && RootedAt(s, core, f) && After(s, w).records[core.op].core == core
  {
    hide RootedAt, ReissueOf, ExpiredClaimOf, Settled, CompletionVerified, ClaimAdmitted, PriorAllows, Changed;
    if |h.targets[f]| > 1 {
      SuccessionRecorded(s, h, f, 0);
    }
    assert w.CreateRecord? && w.core.op == h.targets[f][0];
    assert FenceOf(w.core) == f;
    assert s.owners[f] == OwnershipOf(w.core);
  }

  lemma PointerStaysRooted(s: Store, h: History, w: Write, f: Fence)
    requires Consistent(s, h) && Rooted(s, h) && AllSettledBehind(s, h) && TerminalClaims(s) && Enabled(s, w)
    requires var s' := After(s, w); f in s'.owners && s'.owners[f].current !in s'.records && Adoptable(s'.owners[f])
    ensures RootedAt(After(s, w), After(s, w).owners[f].identity, f)
  {
    hide AllSettledBehind, TerminalClaims, CompletionVerified, ClaimAdmitted, PriorAllows, RootedAt, UnownedPlanned;
    hide ClaimsValid, Changed, CanOwn;
    CoresKeptAfter(s, w);
    assert w.PublishOwner? ==> FenceOf(w.core) != f;
    assert s.owners[f] == After(s, w).owners[f] && s.owners[f].current !in s.records;
    UnrecordedIsFirst(s, h, f);
    RootedAtStays(s, h, w, s.owners[f].identity, f);
  }

  lemma UnrecordedIsFirst(s: Store, h: History, f: Fence)
    requires OwnersValid(s) && HistoryCurrent(s, h) && Chained(s, h)
    requires f in s.owners && s.owners[f].current !in s.records && Adoptable(s.owners[f])
    ensures FirstAt(s, h, s.owners[f].identity, f)
  {
    if |h.targets[f]| > 1 {
      SuccessionRecorded(s, h, f, |h.targets[f]| - 1);
    }
  }

  /** An operation that becomes owner has not owned before: its predecessor is the last owner, and each
   *  earlier owner named the one before it. */
  lemma NewOwnerIsNew(s: Store, h: History, core: OperationIdentity)
    requires HistoryCurrent(s, h) && Chained(s, h) && Rooted(s, h) && Enabled(s, PublishOwner(core))
    requires FenceOf(core) in h.targets && s.owners[FenceOf(core)].current != core.op
    requires NoRepeat(h.targets[FenceOf(core)])
    ensures core.op !in h.targets[FenceOf(core)]
  {
    hide ReissueOf, ExpiredClaimOf;
    var f := FenceOf(core);
    var chain := h.targets[f];
    assert FenceOf(s.records[chain[|chain| - 1]].core) == f;
    assert s.records[core.op].core == core;
    forall k | 0 <= k < |chain| ensures chain[k] != core.op {
      if k > 0 {
        assert Succeeds(s, h.targets, f, k);
      }
    }
  }

  lemma NoRepeatsAfter(s: Store, h: History, w: Write)
    requires HistoryCurrent(s, h) && Chained(s, h) && Rooted(s, h) && NoRepeats(h) && Enabled(s, w)
    ensures NoRepeats(HistoryAfter(s, h, w))
  {
    if w.PublishOwner? {
      var f := FenceOf(w.core);
      if f in h.targets && s.owners[f].current != w.core.op {
        NewOwnerIsNew(s, h, w.core);
      }
    }
  }

  /** A record is written only while its operation owns the target, so never once it has been succeeded. */
  lemma SucceededUnwritten(s: Store, h: History, w: Write, f: Fence, k: nat)
    requires HistoryCurrent(s, h) && RecordsValid(s) && Chained(s, h) && NoRepeats(h) && Enabled(s, w)
    requires f in h.targets && 0 < k < |h.targets[f]|
    ensures h.targets[f][k - 1] in s.records && h.targets[f][k - 1] in After(s, w).records
    ensures After(s, w).records[h.targets[f][k - 1]] == s.records[h.targets[f][k - 1]]
  {
    hide CanOwn, CompletionVerified;
    assert Succeeds(s, h.targets, f, k);
  }

  lemma SettledAfter(s: Store, h: History, w: Write)
    requires RecordsValid(s) && OwnersValid(s) && HistoryCurrent(s, h) && Chained(s, h) && NoRepeats(h)
    requires AllSettledBehind(s, h) && Enabled(s, w)
    ensures AllSettledBehind(After(s, w), HistoryAfter(s, h, w))
  {
    hide RecordsValid, OwnersValid, Chained, NoRepeats, SettledBehind, After, Enabled;
    CoresKeptAfter(s, w);
    var s', h' := After(s, w), HistoryAfter(s, h, w);
    forall f, k | f in h'.targets && 0 < k < |h'.targets[f]| ensures SettledBehind(s', h'.targets, f, k) {
      if f in h.targets && k < |h.targets[f]| {
        SucceededUnwritten(s, h, w, f, k);
        SuccessionUntouched(s, h, w, f, k);
      } else {
        NewestSettled(s, h, w.core);
      }
    }
  }

  lemma SuccessionUntouched(s: Store, h: History, w: Write, f: Fence, k: nat)
    requires f in h.targets && 0 < k < |h.targets[f]| && SettledBehind(s, h.targets, f, k)
    requires Enabled(s, w) && CoresKept(s, After(s, w))
    requires h.targets[f][k - 1] in After(s, w).records
    requires After(s, w).records[h.targets[f][k - 1]] == s.records[h.targets[f][k - 1]]
    ensures f in HistoryAfter(s, h, w).targets && k < |HistoryAfter(s, h, w).targets[f]|
    ensures SettledBehind(After(s, w), HistoryAfter(s, h, w).targets, f, k)
  {
    HistoryGrows(s, h, w, f);
  }

  lemma NewestSettled(s: Store, h: History, core: OperationIdentity)
    requires OwnersValid(s) && HistoryCurrent(s, h) && Enabled(s, PublishOwner(core))
    requires var f := FenceOf(core); f in h.targets && s.owners[f].current != core.op
    ensures var h' := HistoryAfter(s, h, PublishOwner(core));
      SettledBehind(After(s, PublishOwner(core)), h'.targets, FenceOf(core), |h.targets[FenceOf(core)]|)
  {
  }

  lemma IndexOfExtend(chain: seq<Token>, op: Token, x: Token)
    requires x in chain
    ensures IndexOf(chain + [op], x) == IndexOf(chain, x)
  {
    if chain[0] != x {
      assert (chain + [op])[1..] == chain[1..] + [op];
      IndexOfExtend(chain[1..], op, x);
    }
  }

  lemma IncreasingExtend(sub: seq<Token>, chain: seq<Token>, op: Token)
    requires Increasing(sub, chain)
    ensures Increasing(sub, chain + [op])
  {
    forall k | 0 <= k < |sub| ensures sub[k] in chain + [op] && IndexOf(chain + [op], sub[k]) == IndexOf(chain, sub[k]) {
      assert sub[k] in chain;
      IndexOfExtend(chain, op, sub[k]);
    }
  }

  lemma IncreasingAppend(sub: seq<Token>, chain: seq<Token>, op: Token)
    requires Increasing(sub, chain) && NoRepeat(chain)
    requires |chain| > 0 && chain[|chain| - 1] == op
    requires |sub| > 0 && sub[|sub| - 1] != op
    ensures Increasing(sub + [op], chain)
  {
    assert IndexOf(chain, op) == |chain| - 1;
    forall k | 0 <= k < |sub| ensures IndexOf(chain, sub[k]) < |chain| - 1 {
      assert sub[|sub| - 1] in chain;
      assert IndexOf(chain, sub[|sub| - 1]) < |chain| - 1;
      assert k < |sub| - 1 ==> IndexOf(chain, sub[k]) < IndexOf(chain, sub[|sub| - 1]);
    }
  }

  lemma BindersAppend(records: map<Token, OperationRecord>, owners: seq<Token>, i: Token, f: Fence, op: Token)
    requires BindersOf(records, owners, i, f) && op in records && Binds(records[op].core, i)
    requires FenceOf(records[op].core) == f
    ensures BindersOf(records, owners + [op], i, f)
  {
  }

  lemma SoleOwner(records: map<Token, OperationRecord>, op: Token, i: Token, chain: seq<Token>)
    requires |chain| > 0 && chain[|chain| - 1] == op
    requires op in records && Binds(records[op].core, i)
    ensures Increasing([op], chain) && BindersOf(records, [op], i, FenceOf(records[op].core))
  {
  }

  lemma ConnectorOrderedStable(s: Store, s': Store, h: History, h': History, i: Token)
    requires ConnectorOrdered(s, h, i) && CoresKept(s, s')
    requires i in s'.connOwners && s'.connOwners[i] == s.connOwners[i]
    requires ConnectorHistory(h', i) == ConnectorHistory(h, i)
    requires var f := FenceOf(s.records[s.connOwners[i].current].core);
      Increasing(ConnectorHistory(h, i), TargetHistory(h', f))
    ensures ConnectorOrdered(s', h', i)
  {
    hide IndexOf;
  }

  lemma OtherConnectorOrdered(s: Store, h: History, w: Write, i: Token)
    requires ConnectorOrdered(s, h, i) && Enabled(s, w) && CoresKept(s, After(s, w))
    requires w.PublishConnectorOwner? ==> i != w.claim.instance
    ensures ConnectorOrdered(After(s, w), HistoryAfter(s, h, w), i)
  {
    var h' := HistoryAfter(s, h, w);
    var f := FenceOf(s.records[s.connOwners[i].current].core);
    ExtendedChainKeepsOrder(s, h, w, ConnectorHistory(h, i), f);
    ConnectorOrderedStable(s, After(s, w), h, h', i);
  }

  lemma ExtendedChainKeepsOrder(s: Store, h: History, w: Write, sub: seq<Token>, f: Fence)
    requires Increasing(sub, TargetHistory(h, f))
    ensures Increasing(sub, TargetHistory(HistoryAfter(s, h, w), f))
  {
    var h' := HistoryAfter(s, h, w);
    if TargetHistory(h', f) != TargetHistory(h, f) {
      IncreasingExtend(sub, TargetHistory(h, f), w.core.op);
    }
  }

  lemma MatchedIsBound(claim: ClaimIdentity, parent: OperationIdentity)
    requires MatchesParent(claim, parent)
    ensures Binds(parent, claim.instance)
  {
    var connectors := parent.binding.workload.connectors;
    assert FindConnector(connectors, claim.instance).Some?;
    var k :| 0 <= k < |connectors| && connectors[k].instance == claim.instance;
    assert Connectors(parent.binding.workload)[k].instance == claim.instance;
  }

  /** A connector changes owner only within one target and host. */
  lemma ConnectorStaysOnTarget(s: Store, claim: ClaimIdentity)
    requires ClaimsValid(s) && RecordsValid(s) && Enabled(s, PublishConnectorOwner(claim))
    requires claim.instance in s.connOwners
    ensures s.connOwners[claim.instance].current in s.records
    ensures FenceOf(s.records[s.connOwners[claim.instance].current].core) == FenceOf(s.records[claim.op].core)
    ensures s.connOwners[claim.instance].current != claim.op
  {
    var i := claim.instance;
    var current := s.connOwners[i];
    assert Canonical(s.records, current.current, i, current.identity);
    var key := ClaimKey(i, current.current);
    assert Canonical(s.records, key.op, key.instance, s.claims[key].core);
    assert MatchesParent(s.claims[key].core, s.records[key.op].core);
  }

  /** The claiming operation is the newest owner of its target and may follow the connector's owner. */
  ghost predicate MayFollow(s: Store, h: History, claim: ClaimIdentity) {
    && claim.op in s.records
    && Binds(s.records[claim.op].core, claim.instance)
    && var chain := TargetHistory(h, FenceOf(s.records[claim.op].core));
    && NoRepeat(chain) && |chain| > 0 && chain[|chain| - 1] == claim.op
    && (claim.instance in s.connOwners ==>
          && s.connOwners[claim.instance].current != claim.op
          && s.connOwners[claim.instance].current in s.records
          && FenceOf(s.records[s.connOwners[claim.instance].current].core) == FenceOf(s.records[claim.op].core))
  }

  lemma ClaimantMayFollow(s: Store, h: History, claim: ClaimIdentity)
    requires ClaimsValid(s) && HistoryCurrent(s, h) && RecordsValid(s) && NoRepeats(h)
    requires Enabled(s, PublishConnectorOwner(claim))
    ensures MayFollow(s, h, claim)
  {
    hide NoRepeat, Binds, IndexOf, ClaimsValid, MatchesParent, ConnectorPredecessor;
    MatchedIsBound(claim, s.records[claim.op].core);
    if claim.instance in s.connOwners {
      ConnectorStaysOnTarget(s, claim);
    }
  }

  /** The newest owner of the target becomes, or follows, the owner of a connector it binds. */
  lemma ConnectorOwnerAppended(s: Store, h: History, claim: ClaimIdentity)
    requires Enabled(s, PublishConnectorOwner(claim))
    requires ConnectorsOrdered(s, h) && MayFollow(s, h, claim)
    ensures ConnectorOrdered(After(s, PublishConnectorOwner(claim)), HistoryAfter(s, h, PublishConnectorOwner(claim)), claim.instance)
  {
    hide Enabled, Binds, NoRepeat, Increasing, BindersOf;
    var h' := HistoryAfter(s, h, PublishConnectorOwner(claim));
    var chain := TargetHistory(h, FenceOf(s.records[claim.op].core));
    var owners := ConnectorHistory(h, claim.instance);
    assert ConnectorHistory(h', claim.instance) == owners + [claim.op];
    if claim.instance !in s.connOwners {
      assert owners + [claim.op] == [claim.op];
      SoleOwner(s.records, claim.op, claim.instance, chain);
    } else {
      assert ConnectorOrdered(s, h, claim.instance);
      BindersAppend(s.records, owners, claim.instance, FenceOf(s.records[claim.op].core), claim.op);
      IncreasingAppend(owners, chain, claim.op);
    }
  }

  lemma ClaimsStayInHistory(s: Store, h: History, w: Write)
    requires ConnectorsOrdered(s, h) && Enabled(s, w)
    ensures forall key :: key in After(s, w).claims ==> key.op in ConnectorHistory(HistoryAfter(s, h, w), key.instance)
    ensures HistoryAfter(s, h, w).connectors.Keys == After(s, w).connOwners.Keys
  {
    hide Binds, Increasing, CanOwn, CompletionVerified, MatchesParent;
    if w.CreateClaim? {
      assert ConnectorOrdered(s, h, w.claim.instance);
      assert w.claim.op in ConnectorHistory(h, w.claim.instance);
    }
  }

  lemma ConnectorsOrderedAfter(s: Store, h: History, w: Write)
    requires RecordsValid(s) && ClaimsValid(s) && HistoryCurrent(s, h) && NoRepeats(h)
    requires ConnectorsOrdered(s, h) && Enabled(s, w)
    ensures ConnectorsOrdered(After(s, w), HistoryAfter(s, h, w))
  {
    hide ConnectorOrdered, RecordsValid, ClaimsValid, HistoryCurrent, NoRepeats, ConnectorHistory, MayFollow, CanOwn;
    hide ClaimAdmitted;
    CoresKeptAfter(s, w);
    ClaimsStayInHistory(s, h, w);
    forall i | i in After(s, w).connOwners ensures ConnectorOrdered(After(s, w), HistoryAfter(s, h, w), i) {
      if w.PublishConnectorOwner? && i == w.claim.instance {
        ClaimantMayFollow(s, h, w.claim);
        ConnectorOwnerAppended(s, h, w.claim);
      } else {
        OtherConnectorOrdered(s, h, w, i);
      }
    }
  }

  /** No write changes a claim that was released or gave up. */
  lemma SettledClaimsKept(s: Store, w: Write)
    requires Enabled(s, w)
    ensures forall key :: key in s.claims && (s.claims[key].phase == Released || s.claims[key].phase == ClaimExpired) ==>
      key in After(s, w).claims && After(s, w).claims[key] == s.claims[key]
  {
  }

  lemma VerifiedIsReleased(s: Store, core: OperationIdentity, i: Token)
    requires CompletionVerified(s, core) && Binds(core, i)
    ensures ReleasedFor(s, core.op, i)
  {
    var connectors := Connectors(core.binding.workload);
    var k :| 0 <= k < |connectors| && connectors[k].instance == i;
    assert ConnectorDone(s, core.op, connectors[k].instance);
  }

  lemma ReleasedStays(s: Store, w: Write, op: Token, i: Token)
    requires Enabled(s, w) && ReleasedFor(s, op, i)
    ensures ReleasedFor(After(s, w), op, i)
  {
  }

  lemma CompletionReleases(s: Store, w: Write, op: Token, i: Token)
    requires RecordsValid(s) && TerminalClaims(s) && Enabled(s, w)
    requires var s' := After(s, w); op in s'.records && AfterCompletion(s'.records[op].phase) && Binds(s'.records[op].core, i)
    ensures ReleasedFor(After(s, w), op, i)
  {
    hide Binds, ReleasedFor, CanOwn, CompletionVerified;
    if op in s.records && AfterCompletion(s.records[op].phase) {
      CoresKeptAfter(s, w);
      ReleasedStays(s, w, op, i);
    } else {
      ChangedIsLegal(s.records[op], w.change);
      VerifiedIsReleased(s, s.records[op].core, i);
      ReleasedStays(s, w, op, i);
    }
  }

  lemma TerminalAfter(s: Store, w: Write)
    requires RecordsValid(s) && TerminalClaims(s) && Enabled(s, w)
    ensures TerminalClaims(After(s, w))
  {
    hide ReleasedFor, CanOwn, CompletionVerified;
    var s' := After(s, w);
    forall op, i | op in s'.records && AfterCompletion(s'.records[op].phase) && Binds(s'.records[op].core, i)
      ensures ReleasedFor(s', op, i)
    {
      CompletionReleases(s, w, op, i);
    }
    if w.UpdateRecord? {
      ChangedIsLegal(s.records[w.op], w.change);
    }
    SettledClaimsKept(s, w);
  }

  lemma WriteOrdered(s: Store, h: History, w: Write)
    requires Ordered(s, h) && Enabled(s, w)
    ensures Ordered(After(s, w), HistoryAfter(s, h, w))
  {
    hide RecordsValid, OwnersValid, HistoryCurrent, Chained, UnownedPlanned, ClaimsValid, Enabled, After, HistoryAfter;
    hide Rooted, NoRepeats, AllSettledBehind, ConnectorsOrdered, TerminalClaims;
    WriteConsistent(s, h, w);
    RootedAfter(s, h, w);
    NoRepeatsAfter(s, h, w);
    SettledAfter(s, h, w);
    ConnectorsOrderedAfter(s, h, w);
    TerminalAfter(s, w);
  }
}
