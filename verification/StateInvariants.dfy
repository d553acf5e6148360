/** What every write keeps.
 *
 * `Consistent` holds from any store of legacy pointers; `Ordered` needs in addition that no node service can be
 * adopted from a pointer whose predecessor is still free to own its target (`Dangles`).
 */
module StateInvariants {
  import opened Domain
  import opened Records
  import opened StateActions

  // ----- target ownership -----

  ghost predicate RecordsValid(s: Store) {
    forall op :: op in s.records ==> s.records[op].core.op == op && ValidRecord(s.records[op])
  }

  ghost predicate OwnersValid(s: Store) {
    && (forall f :: f in s.owners ==>
          && Fence(s.owners[f].target, s.owners[f].host) == f
          && (s.owners[f].current in s.records ==> s.owners[f] == OwnershipOf(s.records[s.owners[f].current].core)))
    && (forall f, g :: f in s.owners && g in s.owners && s.owners[f].current == s.owners[g].current ==> f == g)
  }

  ghost predicate HistoryCurrent(s: Store, h: History) {
    && h.targets.Keys == s.owners.Keys
    && (forall f :: f in h.targets ==> |h.targets[f]| > 0 && h.targets[f][|h.targets[f]| - 1] == s.owners[f].current)
  }

  /** The `k`-th owner of a target names the one before it as its predecessor. */
  ghost predicate Succeeds(s: Store, targets: map<Fence, seq<Token>>, f: Fence, k: nat)
    requires f in targets && 0 < k < |targets[f]|
  {
    var older, newer := targets[f][k - 1], targets[f][k];
    && older in s.records && newer in s.records
    && FenceOf(s.records[older].core) == f
    && FenceOf(s.records[newer].core) == f
    && s.records[newer].core.predecessor == Some(older)
  }

  ghost predicate Chained(s: Store, h: History) {
    && (forall f, k :: f in h.targets && 0 < k < |h.targets[f]| ==> Succeeds(s, h.targets, f, k))
    && (forall f, k :: f in h.targets && 0 <= k < |h.targets[f]| && h.targets[f][k] in s.records ==>
          FenceOf(s.records[h.targets[f][k]].core) == f)
  }

  ghost predicate UnownedPlanned(s: Store, h: History) {
    forall op :: op in s.records && op !in TargetHistory(h, FenceOf(s.records[op].core)) ==>
      s.records[op] == Initial(s.records[op].core)
  }

  // ----- connector claims -----

  /** The only identity a claim of this operation on this connector can have. */
  ghost predicate Canonical(records: map<Token, OperationRecord>, op: Token, instance: Token, claim: ClaimIdentity) {
    && op in records
    && claim.op == op && claim.instance == instance
    && MatchesParent(claim, records[op].core)
    && ConnectorPredecessor(records, records[op].core, instance) == Ok(claim.predecessor)
  }

  ghost predicate ClaimsValid(s: Store) {
    && (forall i :: i in s.connOwners ==>
          && s.connOwners[i] == ConnectorOwnershipOf(s.connOwners[i].identity)
          && Canonical(s.records, s.connOwners[i].current, i, s.connOwners[i].identity))
    && (forall key :: key in s.claims ==> Canonical(s.records, key.op, key.instance, s.claims[key].core))
  }

  ghost predicate Consistent(s: Store, h: History) {
    && RecordsValid(s)
    && OwnersValid(s)
    && HistoryCurrent(s, h)
    && Chained(s, h)
    && UnownedPlanned(s, h)
    && ClaimsValid(s)
  }

  // ----- ordered ownership -----

  /** A legacy pointer that a claim can adopt as it stands: it is the one that some valid operation publishes. */
  predicate Adoptable(owner: TargetOwnership) {
    ValidIdentity(owner.identity) && owner == OwnershipOf(owner.identity)
  }

  ghost predicate NamedApart(s: Store, op: Token, f: Fence) {
    exists g :: g in s.owners && g != f && s.owners[g].current == op
  }

  /** The predecessor of a target's first owner owns no place in that target's chain: it is not recorded there, and as
   *  long as a node service waits for it, it has a record or a pointer elsewhere.  A connector host cannot settle
   *  without the record of its predecessor, so there nothing more is needed. */
  ghost predicate RootedAt(s: Store, core: OperationIdentity, f: Fence) {
    core.predecessor.Some? ==>
      && (core.predecessor.value in s.records ==> FenceOf(s.records[core.predecessor.value].core) != f)
      && (core.binding.workload.NodeWorkload? ==>
            core.predecessor.value in s.records || NamedApart(s, core.predecessor.value, f))
  }

  ghost predicate Rooted(s: Store, h: History) {
    && (forall f :: f in h.targets && |h.targets[f]| > 0 && h.targets[f][0] in s.records ==>
          RootedAt(s, s.records[h.targets[f][0]].core, f))
    && (forall f :: f in s.owners && s.owners[f].current !in s.records && Adoptable(s.owners[f]) ==>
          RootedAt(s, s.owners[f].identity, f))
  }

  /** A node service may be adopted from this pointer, and no pointer names the predecessor that it names. */
  ghost predicate Dangles(s: Store, f: Fence) {
    && f in s.owners && Adoptable(s.owners[f])
    && s.owners[f].identity.binding.workload.NodeWorkload?
    && s.owners[f].predecessor.Some?
    && forall g :: g in s.owners ==> s.owners[g].current != s.owners[f].predecessor.value
  }

  /** The owner that the `k`-th one succeeded has settled, and if it expired it was reissued. */
  ghost predicate SettledBehind(s: Store, targets: map<Fence, seq<Token>>, f: Fence, k: nat)
    requires f in targets && 0 < k < |targets[f]|
  {
    var older, newer := targets[f][k - 1], targets[f][k];
    && older in s.records && newer in s.records
    && Settled(s.records[older].phase)
    && (s.records[older].phase == ExpiredUnclaimed ==> ReissueOf(s.records[older].core, s.records[newer].core))
  }

  ghost predicate AllSettledBehind(s: Store, h: History) {
    forall f, k :: f in h.targets && 0 < k < |h.targets[f]| ==> SettledBehind(s, h.targets, f, k)
  }

  ghost predicate NoRepeat(chain: seq<Token>) {
    forall a, b :: 0 <= a < b < |chain| ==> chain[a] != chain[b]
  }

  ghost predicate NoRepeats(h: History) {
    forall f :: f in h.targets ==> NoRepeat(h.targets[f])
  }

  /** Where an operation first stands in a chain. */
  function IndexOf(chain: seq<Token>, op: Token): (k: nat)
    ensures k <= |chain|
    ensures op in chain ==> k < |chain| && chain[k] == op
  {
    if chain == [] || chain[0] == op then 0 else 1 + IndexOf(chain[1..], op)
  }

  /** `sub` lists some members of `chain`, in the order of `chain`. */
  ghost predicate Increasing(sub: seq<Token>, chain: seq<Token>) {
    && (forall k :: 0 <= k < |sub| ==> sub[k] in chain)
    && (forall k, l :: 0 <= k < l < |sub| ==> IndexOf(chain, sub[k]) < IndexOf(chain, sub[l]))
  }

  /** Operations of one target that bind the connector. */
  ghost predicate BindersOf(records: map<Token, OperationRecord>, owners: seq<Token>, i: Token, f: Fence) {
    forall op :: op in owners ==> op in records && Binds(records[op].core, i) && FenceOf(records[op].core) == f
  }

  /** The owners of one connector: operations of a single target that bind it, in the order they owned the target. */
  ghost predicate ConnectorOrdered(s: Store, h: History, i: Token) {
    var owners := ConnectorHistory(h, i);
    && |owners| > 0
    && i in s.connOwners && owners[|owners| - 1] == s.connOwners[i].current
    && s.connOwners[i].current in s.records
    && var f := FenceOf(s.records[s.connOwners[i].current].core);
    && BindersOf(s.records, owners, i, f)
    && Increasing(owners, TargetHistory(h, f))
  }

  ghost predicate ConnectorsOrdered(s: Store, h: History) {
    && h.connectors.Keys == s.connOwners.Keys
    && (forall i :: i in s.connOwners ==> ConnectorOrdered(s, h, i))
    && (forall key :: key in s.claims ==> key.op in ConnectorHistory(h, key.instance))
  }

  ghost predicate ReleasedFor(s: Store, op: Token, instance: Token) {
    ClaimKey(instance, op) in s.claims && s.claims[ClaimKey(instance, op)].phase == Released
  }

  /** A completed operation released every connector it binds; an expired one gave up its only one. */
  ghost predicate TerminalClaims(s: Store) {
    forall op :: op in s.records ==>
      && (AfterCompletion(s.records[op].phase) ==>
            forall i :: Binds(s.records[op].core, i) ==> ReleasedFor(s, op, i))
      && (s.records[op].phase == ExpiredUnclaimed ==>
            && SoleConnector(s.records[op].core)
            && var key := ClaimKey(SoleInstance(s.records[op].core), op);
            && key in s.claims && s.claims[key].phase == ClaimExpired)
  }

  ghost predicate Ordered(s: Store, h: History) {
    && Consistent(s, h)
    && Rooted(s, h)
    && NoRepeats(h)
    && AllSettledBehind(s, h)
    && ConnectorsOrdered(s, h)
    && TerminalClaims(s)
  }
}
