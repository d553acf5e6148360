/** Calls that may be made again: no connector is stranded, and exact replay repairs both crash windows.
 */
module Recovery {
  import opened Domain
  import opened Records
  import opened StateActions
  import opened StateInvariants
  import opened StateProofs
  import opened Calls

  // ----- no connector is stranded -----

  /** The connector was never owned, or its latest owner ran on this operation's target and host. */
  ghost predicate OwnedHere(s: Store, core: OperationIdentity, i: Token) {
    i in s.connOwners ==>
      s.connOwners[i].current in s.records && FenceOf(s.records[s.connOwners[i].current].core) == FenceOf(core)
  }

  /** The operation names no predecessor, or one that is recorded on the same target and host. */
  ghost predicate PredecessorHere(s: Store, core: OperationIdentity) {
    core.predecessor.Some? ==>
      core.predecessor.value in s.records && FenceOf(s.records[core.predecessor.value].core) == FenceOf(core)
  }

  lemma PreparedMatches(core: OperationIdentity, i: Token, predecessor: Option<Token>)
    requires ValidIdentity(core) && Binds(core, i) && predecessor != Some(core.op)
    ensures PreparedClaim(core, i, predecessor).Ok?
    ensures var claim := PreparedClaim(core, i, predecessor).value;
      claim.op == core.op && claim.instance == i && claim.predecessor == predecessor && MatchesParent(claim, core)
  {
    var k :| 0 <= k < |Connectors(core.binding.workload)| && Connectors(core.binding.workload)[k].instance == i;
    assert core.binding.workload.connectors[k].instance == i;
  }

  lemma CanonicalUnique(records: map<Token, OperationRecord>, op: Token, i: Token, c: ClaimIdentity, d: ClaimIdentity)
    requires Canonical(records, op, i, c) && Canonical(records, op, i, d)
    ensures c == d
  {
  }

  /** The target's newest owner is last in its chain, right behind the operation it names as predecessor. */
  ghost predicate Newest(s: Store, h: History, core: OperationIdentity, chain: seq<Token>) {
    && chain == TargetHistory(h, FenceOf(core))
    && |chain| > 0 && chain[|chain| - 1] == core.op
    && NoRepeat(chain)
    && (core.predecessor.None? ==> |chain| == 1)
    && (core.predecessor.Some? ==> |chain| > 1 && core.predecessor.value == chain[|chain| - 2])
    && (forall a, b :: 0 <= a && b == a + 1 < |chain| ==> SettledPair(s, FenceOf(core), chain[a], chain[b]))
  }

  ghost predicate SettledPair(s: Store, f: Fence, older: Token, newer: Token) {
    && older in s.records && newer in s.records
    && FenceOf(s.records[older].core) == f
    && Settled(s.records[older].phase)
    && (s.records[older].phase == ExpiredUnclaimed ==> ReissueOf(s.records[older].core, s.records[newer].core))
  }

  lemma CurrentIsNewest(s: Store, h: History, core: OperationIdentity)
    requires OwnersValid(s) && HistoryCurrent(s, h) && Chained(s, h) && Rooted(s, h) && NoRepeats(h)
    requires AllSettledBehind(s, h)
    requires core.op in s.records && s.records[core.op].core == core && IsCurrent(s, core) && PredecessorHere(s, core)
    ensures Newest(s, h, core, TargetHistory(h, FenceOf(core)))
  {
    hide Settled, ReissueOf, NoRepeat;
    var f := FenceOf(core);
    var chain := h.targets[f];
    if |chain| > 1 {
      assert Succeeds(s, h.targets, f, |chain| - 1);
    } else {
      assert chain[0] == core.op && RootedAt(s, core, f);
    }
    forall a, b | 0 <= a && b == a + 1 < |chain| ensures SettledPair(s, f, chain[a], chain[b]) {
      assert Succeeds(s, h.targets, f, b);
      assert SettledBehind(s, h.targets, f, b);
    }
  }

  lemma PredecessorReadable(s: Store, h: History, core: OperationIdentity, i: Token)
    requires Newest(s, h, core, TargetHistory(h, FenceOf(core))) && core.predecessor != Some(core.op)
    ensures ConnectorPredecessor(s.records, core, i).Ok?
    ensures ConnectorPredecessor(s.records, core, i).value != Some(core.op)
    ensures ConnectorPredecessor(s.records, core, i).value.Some? <==>
      core.predecessor.Some? && core.predecessor.value in s.records && Binds(s.records[core.predecessor.value].core, i)
    ensures ConnectorPredecessor(s.records, core, i).value.Some? ==> ConnectorPredecessor(s.records, core, i).value == core.predecessor
  {
    hide Settled, ReissueOf, NoRepeat, Binds;
    var chain := TargetHistory(h, FenceOf(core));
    if core.predecessor.Some? {
      assert SettledPair(s, FenceOf(core), chain[|chain| - 2], chain[|chain| - 1]);
    }
  }

  /** Among the operations that claimed a connector, its current owner is the newest in the chain. */
  lemma OwnerIsLatestClaimant(s: Store, h: History, i: Token, x: Token, chain: seq<Token>, a: nat, b: nat)
    requires ConnectorOrdered(s, h, i) && i in s.connOwners && x in ConnectorHistory(h, i)
    requires chain == TargetHistory(h, FenceOf(s.records[s.connOwners[i].current].core)) && NoRepeat(chain)
    requires a < |chain| && chain[a] == x && b < |chain| && chain[b] == s.connOwners[i].current
    ensures a <= b
  {
    hide BindersOf;
    var owners := ConnectorHistory(h, i);
    var k :| 0 <= k < |owners| && owners[k] == x;
    FoundAt(chain, a);
    FoundAt(chain, b);
    if k < |owners| - 1 {
      assert IndexOf(chain, owners[k]) < IndexOf(chain, owners[|owners| - 1]);
    }
  }

  lemma FoundAt(chain: seq<Token>, k: nat)
    requires NoRepeat(chain) && k < |chain|
    ensures IndexOf(chain, chain[k]) == k
  {
  }

  /** How a settled operation left a connector it binds. */
  ghost predicate LeftBehind(s: Store, x: Token, i: Token) {
    && x in s.records
    && ClaimKey(i, x) in s.claims
    && Canonical(s.records, x, i, s.claims[ClaimKey(i, x)].core)
    && (s.records[x].phase == Completed || s.records[x].phase == RollbackConverged ==> s.claims[ClaimKey(i, x)].phase == Released)
    && (s.records[x].phase == ExpiredUnclaimed ==>
          s.claims[ClaimKey(i, x)].phase == ClaimExpired && SoleConnector(s.records[x].core) && SoleInstance(s.records[x].core) == i)
  }

  lemma SettledLeaves(s: Store, x: Token, i: Token)
    requires TerminalClaims(s) && ClaimsValid(s)
    requires x in s.records && Settled(s.records[x].phase) && Binds(s.records[x].core, i)
    ensures LeftBehind(s, x, i)
  {
    hide Canonical;
    if AfterCompletion(s.records[x].phase) {
      assert ReleasedFor(s, x, i);
    }
    var key := ClaimKey(i, x);
    assert key in s.claims;
    assert Canonical(s.records, key.op, key.instance, s.claims[key].core);
  }

  /** The connector's owner, when it is an older operation of this target, has left the connector behind. */
  lemma OwnerLeft(s: Store, h: History, core: OperationIdentity, i: Token)
    requires Newest(s, h, core, TargetHistory(h, FenceOf(core)))
    requires TerminalClaims(s) && ClaimsValid(s) && ConnectorsOrdered(s, h)
    requires i in s.connOwners && OwnedHere(s, core, i) && s.connOwners[i].current != core.op
    ensures LeftBehind(s, s.connOwners[i].current, i) && Settled(s.records[s.connOwners[i].current].phase)
    ensures s.records[s.connOwners[i].current].phase == ExpiredUnclaimed ==> core.predecessor == Some(s.connOwners[i].current)
    ensures core.predecessor.Some? && core.predecessor.value in s.records
    ensures Binds(s.records[core.predecessor.value].core, i) ==>
      core.predecessor.value == s.connOwners[i].current
  {
    hide NoRepeat, Settled, SoleConnector, LeftBehind, ClaimsValid, TerminalClaims, Binds, Increasing;
    var f, y := FenceOf(core), s.connOwners[i].current;
    var chain := TargetHistory(h, f);
    assert ConnectorOrdered(s, h, i);
    var k := PlaceOf(s, h, core, i);
    SettledLeaves(s, y, i);
    var last := |chain| - 1;
    if core.predecessor.Some? && core.predecessor.value in s.records && Binds(s.records[core.predecessor.value].core, i) {
      ClaimantNotAfter(s, h, core, i, last - 1, k);
    }
    if s.records[y].phase == ExpiredUnclaimed && k + 1 < last {
      assert SettledPair(s, f, chain[k], chain[k + 1]);
      ReissueBinds(s, y, chain[k + 1], i);
      ClaimantNotAfter(s, h, core, i, k + 1, k);
    }
  }

  /** Where the connector's owner stands among the target's owners. */
  lemma PlaceOf(s: Store, h: History, core: OperationIdentity, i: Token) returns (k: nat)
    requires Newest(s, h, core, TargetHistory(h, FenceOf(core))) && i in s.connOwners
    requires ConnectorOrdered(s, h, i) && OwnedHere(s, core, i) && s.connOwners[i].current != core.op
    ensures var chain := TargetHistory(h, FenceOf(core));
      k < |chain| - 1 && chain[k] == s.connOwners[i].current && Settled(s.records[chain[k]].phase) && Binds(s.records[chain[k]].core, i)
      && SettledPair(s, FenceOf(core), chain[k], chain[k + 1])
  {
    hide NoRepeat, Binds, Settled, ReissueOf;
    var chain := TargetHistory(h, FenceOf(core));
    var owners := ConnectorHistory(h, i);
    assert owners[|owners| - 1] in chain;
    k :| 0 <= k < |chain| && chain[k] == s.connOwners[i].current;
    assert SettledPair(s, FenceOf(core), chain[k], chain[k + 1]);
  }

  /** A settled owner of the target that binds the connector does not come after the connector's owner. */
  lemma ClaimantNotAfter(s: Store, h: History, core: OperationIdentity, i: Token, a: nat, b: nat)
    requires Newest(s, h, core, TargetHistory(h, FenceOf(core)))
    requires TerminalClaims(s) && ClaimsValid(s) && ConnectorsOrdered(s, h)
    requires i in s.connOwners && OwnedHere(s, core, i)
    requires var chain := TargetHistory(h, FenceOf(core));
      && a < |chain| - 1 && b < |chain| && chain[b] == s.connOwners[i].current
      && chain[a] in s.records && Binds(s.records[chain[a]].core, i)
    ensures a <= b
  {
    hide NoRepeat, Settled, SoleConnector, Canonical, Increasing, BindersOf, ClaimsValid, TerminalClaims, Binds;
    var chain := TargetHistory(h, FenceOf(core));
    assert SettledPair(s, FenceOf(core), chain[a], chain[a + 1]);
    SettledLeaves(s, chain[a], i);
    assert ClaimKey(i, chain[a]) in s.claims;
    assert ConnectorOrdered(s, h, i);
    OwnerIsLatestClaimant(s, h, i, chain[a], chain, a, b);
  }

  lemma ReissueBinds(s: Store, older: Token, newer: Token, i: Token)
    requires older in s.records && newer in s.records && LeftBehind(s, older, i)
    requires s.records[older].phase == ExpiredUnclaimed && ReissueOf(s.records[older].core, s.records[newer].core)
    ensures Binds(s.records[newer].core, i)
  {
    assert Connectors(s.records[newer].core.binding.workload)[0].instance == i;
  }

  /** The claim an operation prepares for one of its connectors. */
  ghost predicate Prepares(s: Store, core: OperationIdentity, i: Token, claim: ClaimIdentity) {
    && ConnectorPredecessor(s.records, core, i).Ok?
    && PreparedClaim(core, i, ConnectorPredecessor(s.records, core, i).value) == Ok(claim)
  }

  lemma CurrentPrepares(s: Store, h: History, core: OperationIdentity, i: Token) returns (claim: ClaimIdentity)
    requires RecordsValid(s) && Newest(s, h, core, TargetHistory(h, FenceOf(core)))
    requires core.op in s.records && s.records[core.op].core == core && IsCurrent(s, core) && Binds(core, i)
    ensures Prepares(s, core, i, claim) && ClaimAdmitted(s, claim) && Canonical(s.records, core.op, i, claim)
    ensures claim.predecessor != Some(core.op)
  {
    hide Newest, ConnectorPredecessor, MatchesParent, Binds, PreparedClaim;
    PredecessorReadable(s, h, core, i);
    PreparedMatches(core, i, ConnectorPredecessor(s.records, core, i).value);
    claim := PreparedClaim(core, i, ConnectorPredecessor(s.records, core, i).value).value;
  }

  lemma LeftBehindOpens(s: Store, core: OperationIdentity, i: Token, claim: ClaimIdentity)
    requires ClaimAdmitted(s, claim) && claim.op == core.op && claim.instance == i && s.records[core.op].core == core
    requires i in s.connOwners && OwnedHere(s, core, i) && s.connOwners[i].current != core.op
    requires s.connOwners[i] == ConnectorOwnershipOf(s.connOwners[i].identity)
    requires Canonical(s.records, s.connOwners[i].current, i, s.connOwners[i].identity)
    requires RecordsValid(s)
    requires LeftBehind(s, s.connOwners[i].current, i) && Settled(s.records[s.connOwners[i].current].phase)
    requires s.records[s.connOwners[i].current].phase == ExpiredUnclaimed ==> core.predecessor == Some(s.connOwners[i].current)
    requires claim.predecessor.Some? ==> claim.predecessor.value == s.connOwners[i].current
    ensures Enabled(s, PublishConnectorOwner(claim))
  {
    hide ClaimAdmitted, SoleConnector, ValidRecord, ConnectorPredecessor;
    var y := s.connOwners[i].current;
    CanonicalUnique(s.records, y, i, s.connOwners[i].identity, s.claims[ClaimKey(i, y)].core);
  }

  /** No claim at all is admitted while the predecessor is not recorded on the same target and host. */
  lemma PredecessorNeeded(s: Store, core: OperationIdentity, i: Token, claim: ClaimIdentity)
    requires core.op in s.records && s.records[core.op].core == core && claim.op == core.op && claim.instance == i
    ensures ConnectorPredecessor(s.records, core, i).Ok? <==> PredecessorHere(s, core)
    ensures ConnectorAllowed(s, claim, core.binding.host) ==> PredecessorHere(s, core)
  {
    hide MatchesParent, PriorAllows, IsCurrent, Binds;
  }

  /** The one claim an operation can make for a connector, if its predecessor lets it prepare one, succeeds exactly
   *  when the connector was never owned elsewhere. */
  lemma ConnectorClaimable(s: Store, h: History, core: OperationIdentity, i: Token) returns (claim: ClaimIdentity)
    requires Ordered(s, h) && core.op in s.records && s.records[core.op].core == core && IsCurrent(s, core)
    requires Binds(core, i)
    requires PredecessorHere(s, core)
    ensures Prepares(s, core, i, claim)
    ensures ConnectorAllowed(s, claim, core.binding.host) <==> OwnedHere(s, core, i)
    ensures !ForeignClaim(s, claim)
  {
    hide Settled, TerminalClaims, ConnectorsOrdered, NoRepeats, AllSettledBehind, Rooted, Chained, UnownedPlanned;
    hide HistoryCurrent;
    hide OwnersValid, Newest, Prepares, Enabled, LeftBehind, MatchesParent, ConnectorPredecessor, Binds, ValidRecord;
    CurrentIsNewest(s, h, core);
    claim := CurrentPrepares(s, h, core, i);
    NotForeign(s, claim, core.op, i);
    if OwnedHere(s, core, i) {
      OpenHere(s, h, core, i, claim);
    } else {
      ClosedElsewhere(s, core, i, claim);
    }
  }

  /** Whoever owns a target can claim every connector it binds, whether the connector is new, carried over from its
   *  predecessor, reintroduced after a gap or left by an expired bootstrap, if and only if the connector's latest owner
   *  ran on the same target and host, and so did the operation's predecessor, as it always did unless the operation was
   *  adopted from a legacy pointer. */
  lemma NoConnectorStranded(s: Store, h: History, core: OperationIdentity, i: Token)
    requires Ordered(s, h) && core.op in s.records && s.records[core.op].core == core && IsCurrent(s, core)
    requires Binds(core, i)
    ensures (exists claim: ClaimIdentity :: claim.op == core.op && claim.instance == i && ConnectorAllowed(s, claim, core.binding.host))
      <==> OwnedHere(s, core, i) && PredecessorHere(s, core)
    ensures core.op in TargetHistory(h, FenceOf(core))
    ensures core.op != TargetHistory(h, FenceOf(core))[0] ==> PredecessorHere(s, core)
  {
    hide Ordered, ConnectorAllowed, OwnedHere, PredecessorHere, Prepares, Binds, IsCurrent;
    if PredecessorHere(s, core) {
      var claim := ConnectorClaimable(s, h, core, i);
      PreparedIs(s, core, i, claim);
      forall other: ClaimIdentity | other.op == core.op && other.instance == i && ConnectorAllowed(s, other, core.binding.host)
        ensures other == claim
      {
        OnlyPrepared(s, core, i, other, claim);
      }
    } else {
      forall other: ClaimIdentity | other.op == core.op && other.instance == i ensures !ConnectorAllowed(s, other, core.binding.host) {
        PredecessorNeeded(s, core, i, other);
      }
    }
    LaterOwnersFollow(s, h, core);
  }

  lemma PreparedIs(s: Store, core: OperationIdentity, i: Token, claim: ClaimIdentity)
    requires Prepares(s, core, i, claim)
    ensures claim.op == core.op && claim.instance == i
  {
  }

  lemma OnlyPrepared(s: Store, core: OperationIdentity, i: Token, other: ClaimIdentity, claim: ClaimIdentity)
    requires core.op in s.records && s.records[core.op].core == core && Prepares(s, core, i, claim)
    requires other.op == core.op && other.instance == i && ConnectorAllowed(s, other, core.binding.host)
    ensures other == claim
  {
    hide PriorAllows, IsCurrent, ConnectorPredecessor;
  }

  lemma LaterOwnersFollow(s: Store, h: History, core: OperationIdentity)
    requires Ordered(s, h) && core.op in s.records && s.records[core.op].core == core && IsCurrent(s, core)
    ensures core.op in TargetHistory(h, FenceOf(core))
    ensures core.op != TargetHistory(h, FenceOf(core))[0] ==> PredecessorHere(s, core)
  {
    hide ClaimsValid, UnownedPlanned, Rooted, NoRepeats, AllSettledBehind, ConnectorsOrdered, TerminalClaims, RecordsValid;
    var chain := h.targets[FenceOf(core)];
    assert chain[|chain| - 1] == core.op;
    if |chain| > 1 {
      assert Succeeds(s, h.targets, FenceOf(core), |chain| - 1);
    }
  }

  lemma NotForeign(s: Store, claim: ClaimIdentity, op: Token, i: Token)
    requires ClaimsValid(s) && Canonical(s.records, op, i, claim)
    ensures !ForeignClaim(s, claim)
  {
    hide MatchesParent, ConnectorPredecessor;
    var key := ClaimKey(i, op);
    if key in s.claims {
      assert Canonical(s.records, key.op, key.instance, s.claims[key].core);
      CanonicalUnique(s.records, op, i, claim, s.claims[key].core);
    }
  }

  lemma OpenHere(s: Store, h: History, core: OperationIdentity, i: Token, claim: ClaimIdentity)
    requires RecordsValid(s) && ClaimsValid(s) && TerminalClaims(s) && ConnectorsOrdered(s, h)
    requires Newest(s, h, core, TargetHistory(h, FenceOf(core)))
    requires core.op in s.records && s.records[core.op].core == core
    requires Prepares(s, core, i, claim) && ClaimAdmitted(s, claim) && Canonical(s.records, core.op, i, claim)
    requires claim.predecessor != Some(core.op)
    requires OwnedHere(s, core, i)
    ensures ConnectorAllowed(s, claim, core.binding.host)
  {
    hide Settled, TerminalClaims, ConnectorsOrdered, Newest, LeftBehind, MatchesParent, ConnectorPredecessor, Binds;
    hide RecordsValid;
    NotOwnPredecessor(s, core.op);
    PredecessorReadable(s, h, core, i);
    if i !in s.connOwners {
      FirstOwnerNamesNone(s, h, core, i, claim);
    } else if s.connOwners[i].current == core.op {
      CanonicalUnique(s.records, core.op, i, claim, s.connOwners[i].identity);
    } else {
      OwnerLeft(s, h, core, i);
      LeftBehindOpens(s, core, i, claim);
    }
  }

  lemma NotOwnPredecessor(s: Store, op: Token)
    requires RecordsValid(s) && op in s.records
    ensures s.records[op].core.predecessor != Some(op)
  {
  }

  /** A connector nobody owned cannot have been bound by the predecessor, which would have claimed it. */
  lemma FirstOwnerNamesNone(s: Store, h: History, core: OperationIdentity, i: Token, claim: ClaimIdentity)
    requires ClaimsValid(s) && TerminalClaims(s) && ConnectorsOrdered(s, h)
    requires Newest(s, h, core, TargetHistory(h, FenceOf(core))) && core.predecessor != Some(core.op)
    requires Canonical(s.records, core.op, i, claim) && s.records[core.op].core == core
    ensures claim.predecessor.Some? ==> i in s.connOwners
  {
    hide Settled, ReissueOf, MatchesParent, Binds, SoleConnector, NoRepeat;
    PredecessorReadable(s, h, core, i);
    var chain := TargetHistory(h, FenceOf(core));
    if core.predecessor.Some? && Binds(s.records[core.predecessor.value].core, i) {
      assert SettledPair(s, FenceOf(core), chain[|chain| - 2], chain[|chain| - 1]);
      SettledLeaves(s, core.predecessor.value, i);
      var key := ClaimKey(i, core.predecessor.value);
      assert key.op in ConnectorHistory(h, key.instance);
    }
  }

  lemma ClosedElsewhere(s: Store, core: OperationIdentity, i: Token, claim: ClaimIdentity)
    requires RecordsValid(s) && ClaimsValid(s) && Canonical(s.records, core.op, i, claim)
    requires s.records[core.op].core == core
    requires !OwnedHere(s, core, i)
    ensures !ConnectorAllowed(s, claim, core.binding.host)
  {
    hide MatchesParent, ConnectorPredecessor, ClaimsValid;
    if Enabled(s, PublishConnectorOwner(claim)) {
      ConnectorStaysOnTarget(s, claim);
    }
    OwnerCanonical(s, i);
  }

  lemma OwnerCanonical(s: Store, i: Token)
    requires ClaimsValid(s)
    ensures i in s.connOwners ==> Canonical(s.records, s.connOwners[i].current, i, s.connOwners[i].identity)
  {
  }
}
