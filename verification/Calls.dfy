/** What each call of the store does when no other process interferes, stated in terms of the writes.
 *
 * `StateStore` proves the imperative calls against these outcomes and `SoloRuns` proves that the
 * step-by-step processes reach the same ones.
 */
module Calls {
  import opened Domain
  import opened Records
  import opened StateActions

  /** Every pointer that names the operation is the pointer this claim would publish. */
  ghost predicate ProjectionsAgree(s: Store, core: OperationIdentity) {
    forall g :: g in s.owners && s.owners[g].current == core.op ==> g == FenceOf(core) && s.owners[g] == OwnershipOf(core)
  }

  ghost predicate ClaimAllowed(s: Store, core: OperationIdentity) {
    && ValidIdentity(core)
    && (if core.op in s.records then s.records[core.op].core == core
        else |s.owners| <= MAX_STATE_ROOT_ENTRIES && ProjectionsAgree(s, core))
    && CanOwn(s, core)
  }

  /** The record a claim leaves and returns: the one already there, whatever its phase, or a new one. */
  function ClaimedRecord(s: Store, core: OperationIdentity): OperationRecord {
    if core.op in s.records then s.records[core.op] else Initial(core)
  }

  function ClaimAfter(s: Store, core: OperationIdentity): Store {
    s.(records := s.records[core.op := ClaimedRecord(s, core)], owners := s.owners[FenceOf(core) := OwnershipOf(core)])
  }

  /** The expiry that an earlier, interrupted call already recorded. */
  predicate ExpiryRecorded(s: Store, op: Token, change: Change) {
    && change.Expire?
    && op in s.records
    && IsCurrent(s, s.records[op].core)
    && ClaimKey(change.instance, op) in s.claims
    && s.claims[ClaimKey(change.instance, op)].phase == ClaimExpired
    && s.records[op].phase == ExpiredUnclaimed
  }

  /** The connector is this operation's already, or may become its. */
  predicate ConnectorOpen(s: Store, claim: ClaimIdentity) {
    || Enabled(s, PublishConnectorOwner(claim))
    || (&& ClaimAdmitted(s, claim)
        && claim.instance in s.connOwners
        && s.connOwners[claim.instance] == ConnectorOwnershipOf(claim))
  }

  predicate ConnectorAllowed(s: Store, claim: ClaimIdentity, proof: Host) {
    && claim.predecessor != Some(claim.op)
    && claim.op in s.records && s.records[claim.op].core.binding.host == proof
    && ConnectorOpen(s, claim)
  }

  /** A claim file of this operation that does not say what this claim says. */
  predicate ForeignClaim(s: Store, claim: ClaimIdentity) {
    ClaimKey(claim.instance, claim.op) in s.claims && s.claims[ClaimKey(claim.instance, claim.op)].core != claim
  }

  function HeldClaim(s: Store, claim: ClaimIdentity): ConnectorClaim {
    var key := ClaimKey(claim.instance, claim.op);
    if key in s.claims then s.claims[key] else ConnectorClaim(claim, Prepared)
  }

  function ConnectorAfter(s: Store, claim: ClaimIdentity): Store {
    s.(connOwners := s.connOwners[claim.instance := ConnectorOwnershipOf(claim)],
       claims := s.claims[ClaimKey(claim.instance, claim.op) := HeldClaim(s, claim)])
  }

  /** The connector's pointer and claim agree, and their operation owns its target. */
  predicate CurrentConnector(s: Store, instance: Token) {
    && instance in s.connOwners
    && var owner := s.connOwners[instance];
    && var key := ClaimKey(instance, owner.current);
    && owner.instance == instance
    && key in s.claims
    && s.claims[key].core == owner.identity
    && s.claims[key].core.op in s.records
    && IsCurrent(s, s.records[s.claims[key].core.op].core)
  }

  function CurrentClaim(s: Store, instance: Token): ConnectorClaim
    requires CurrentConnector(s, instance)
  {
    s.claims[ClaimKey(instance, s.connOwners[instance].current)]
  }

  /** The claim change that an earlier, interrupted call already made. */
  predicate ChangeRecorded(s: Store, instance: Token, change: ClaimChange) {
    CurrentConnector(s, instance) && CurrentClaim(s, instance).phase == ClaimTarget(change)
  }

  // ----- the outcomes are made of the writes -----

  /** A claim is at most two writes, the record first; each is enabled when it is made. */
  lemma ClaimIsWrites(s: Store, core: OperationIdentity)
    requires ClaimAllowed(s, core)
    requires forall op :: op in s.records ==> s.records[op].core.op == op
    ensures core.op in s.records ==>
      Enabled(s, PublishOwner(core)) && ClaimAfter(s, core) == After(s, PublishOwner(core))
    ensures core.op !in s.records ==>
      && Enabled(s, CreateRecord(core))
      && Enabled(After(s, CreateRecord(core)), PublishOwner(core))
      && ClaimAfter(s, core) == After(After(s, CreateRecord(core)), PublishOwner(core))
  {
    if core.op in s.records {
      assert s.records[core.op := s.records[core.op]] == s.records;
    } else {
      var t := After(s, CreateRecord(core));
      assert forall q :: q in s.records ==> t.records[q] == s.records[q];
      assert CanOwn(t, core);
    }
  }

  /** A connector claim is at most two writes, the pointer first. */
  lemma ConnectorIsWrites(s: Store, claim: ClaimIdentity, proof: Host)
    requires ConnectorAllowed(s, claim, proof) && !ForeignClaim(s, claim)
    ensures Enabled(s, PublishConnectorOwner(claim)) || s.connOwners[claim.instance] == ConnectorOwnershipOf(claim)
    ensures var t := if Enabled(s, PublishConnectorOwner(claim)) then After(s, PublishConnectorOwner(claim)) else s;
      if ClaimKey(claim.instance, claim.op) in s.claims then ConnectorAfter(s, claim) == t
      else Enabled(t, CreateClaim(claim)) && ConnectorAfter(s, claim) == After(t, CreateClaim(claim))
  {
    hide PriorAllows, MatchesParent, ConnectorPredecessor;
    var key := ClaimKey(claim.instance, claim.op);
    if key in s.claims {
      assert s.claims[key := s.claims[key]] == s.claims;
    }
    if !Enabled(s, PublishConnectorOwner(claim)) {
      assert s.connOwners[claim.instance := ConnectorOwnershipOf(claim)] == s.connOwners;
    }
  }
}
