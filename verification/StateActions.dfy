/** The durable store and the single-file writes that may ever be made to it.
 *
 * The store is four families of files.  Each write replaces one file atomically; `Enabled` says
 * when a write is allowed in terms of the files as they are at that moment, and `After` is its
 * effect.  Whether the calls, which read and lock the files one at a time, only ever make enabled
 * writes is shown in StepProofs.
 */
module StateActions {
  import opened Domain
  import opened Records

  const MAX_STATE_ROOT_ENTRIES := 4096

  datatype ClaimKey = ClaimKey(instance: Token, op: Token)

  datatype Store = Store(
    records: map<Token, OperationRecord>,
    owners: map<Fence, TargetOwnership>,
    connOwners: map<Token, ConnectorOwnership>,
    claims: map<ClaimKey, ConnectorClaim>)

  /** The owners each pointer file has named, oldest first.  No call reads this: it is the record of
   *  a run that the ownership theorems speak about. */
  datatype History = History(targets: map<Fence, seq<Token>>, connectors: map<Token, seq<Token>>)

  // ----- what the calls check -----

  function FindConnector(connectors: seq<BoundConnector>, instance: Token): (r: Option<BoundConnector>)
    ensures r.Some? <==> exists k :: 0 <= k < |connectors| && connectors[k].instance == instance
    ensures r.Some? ==> r.value in connectors && r.value.instance == instance
  {
    if connectors == [] then None
    else if connectors[0].instance == instance then Some(connectors[0])
    else
      var rest := FindConnector(connectors[1..], instance);
      assert forall k :: 0 < k < |connectors| ==> connectors[k] == connectors[1..][k - 1];
      assert rest.Some? ==> exists k :: 0 <= k < |connectors[1..]| && connectors[1..][k].instance == instance;
      rest
  }

  predicate MatchesParent(claim: ClaimIdentity, parent: OperationIdentity) {
    && claim.manifest == parent.manifest
    && claim.target == parent.target
    && parent.binding.workload.ConnectorHost?
    && var bound := FindConnector(parent.binding.workload.connectors, claim.instance);
    && bound.Some?
    && claim.artifact == parent.artifact
    && claim.artifact.digest == parent.binding.workload.connectorDigest
    && claim.adapter == bound.value.adapter
    && claim.handoff == bound.value.handoff
  }

  /** `ConnectorClaim::prepared`, the claim an operation makes for one connector it binds. */
  function PreparedClaim(parent: OperationIdentity, instance: Token, predecessor: Option<Token>): Result<ClaimIdentity> {
    if parent.binding.workload.NodeWorkload? then Err(Contract)
    else
      var bound := FindConnector(parent.binding.workload.connectors, instance);
      if bound.None? || predecessor == Some(parent.op) then Err(Contract)
      else Ok(ClaimIdentity(parent.op, parent.manifest, parent.target, instance, parent.artifact,
                            bound.value.adapter, bound.value.handoff, predecessor))
  }

  /** The predecessor a connector claim must name, or an error when the predecessor record is unusable. */
  function ConnectorPredecessor(records: map<Token, OperationRecord>, parent: OperationIdentity,
                                instance: Token): Result<Option<Token>> {
    if parent.predecessor.None? then Ok(None)
    else if parent.predecessor.value !in records then Err(Missing)
    else
      PredecessorIn(records[parent.predecessor.value].core, parent, instance)
  }

  function PredecessorIn(predecessor: OperationIdentity, parent: OperationIdentity,
                         instance: Token): Result<Option<Token>> {
    if predecessor.target != parent.target || predecessor.binding.host != parent.binding.host then Err(Conflict)
    else Ok(if Binds(predecessor, instance) then parent.predecessor else None)
  }

  predicate SoleConnector(core: OperationIdentity) {
    core.binding.workload.ConnectorHost? && |core.binding.workload.connectors| == 1
  }

  function SoleInstance(core: OperationIdentity): Token
    requires SoleConnector(core)
  {
    core.binding.workload.connectors[0].instance
  }

  /** A successor of an expired bootstrap must rebind exactly its one connector. */
  predicate ReissueOf(predecessor: OperationIdentity, successor: OperationIdentity) {
    SoleConnector(predecessor) && SoleConnector(successor) && SoleInstance(predecessor) == SoleInstance(successor)
  }

  predicate ExpiredClaimOf(claim: ConnectorClaim, predecessor: OperationIdentity) {
    claim.phase == ClaimExpired && claim.core.op == predecessor.op && claim.core.target == predecessor.target
  }

  /** `validate_owner_transition`: the pointer may move to, or stay at, this operation. */
  predicate CanOwn(s: Store, core: OperationIdentity) {
    var f := FenceOf(core);
    if f !in s.owners then core.predecessor.None?
    else
      var current := s.owners[f];
      if current.current == core.op then current == OwnershipOf(core)
      else
        && current.target == core.target
        && current.host == core.binding.host
        && core.predecessor == Some(current.current)
        && current.current in s.records
        && var prior := s.records[current.current];
        && prior.core == current.identity
        && Settled(prior.phase)
        && (prior.phase == ExpiredUnclaimed ==>
              && ReissueOf(prior.core, core)
              && var key := ClaimKey(SoleInstance(prior.core), prior.core.op);
              && key in s.claims
              && ExpiredClaimOf(s.claims[key], prior.core))
  }

  predicate NamedElsewhere(s: Store, core: OperationIdentity) {
    exists g :: g in s.owners && g != FenceOf(core) && s.owners[g].current == core.op
  }

  predicate IsCurrent(s: Store, core: OperationIdentity) {
    && FenceOf(core) in s.owners
    && s.owners[FenceOf(core)].current == core.op
    && s.owners[FenceOf(core)].identity == core
  }

  predicate ConnectorDone(s: Store, op: Token, instance: Token) {
    && instance in s.connOwners
    && s.connOwners[instance].current == op
    && ClaimKey(instance, op) in s.claims
    && s.claims[ClaimKey(instance, op)].core == s.connOwners[instance].identity
    && s.claims[ClaimKey(instance, op)].phase == Released
  }

  /** `verify_connector_completion`. */
  predicate CompletionVerified(s: Store, core: OperationIdentity) {
    forall k :: 0 <= k < |Connectors(core.binding.workload)| ==>
      ConnectorDone(s, core.op, Connectors(core.binding.workload)[k].instance)
  }

  /** What `claim_connector` requires of the record of the connector's previous owner. */
  predicate PriorAllows(prior: ConnectorClaim, priorParent: OperationRecord, current: ConnectorOwnership,
                        parent: OperationIdentity) {
    && prior.core == current.identity
    && prior.core.target == parent.target
    && priorParent.core.binding.host == parent.binding.host
    && (|| (prior.phase == Released && (priorParent.phase == Completed || priorParent.phase == RollbackConverged))
        || (prior.phase == ClaimExpired && priorParent.phase == ExpiredUnclaimed
            && parent.predecessor == Some(priorParent.core.op)))
  }

  datatype ClaimChange = Observe | Release | ExpireClaim

  function ClaimTarget(change: ClaimChange): ClaimPhase {
    match change
    case Observe => HandoffObserved
    case Release => Released
    case ExpireClaim => ClaimExpired
  }

  /** The phase a claim change leaves behind; a change already made is accepted again. */
  function ClaimChanged(phase: ClaimPhase, change: ClaimChange): Result<ClaimPhase> {
    if phase == ClaimTarget(change) then Ok(phase)
    else match change
      case Observe => if phase != Prepared then Err(Contract) else Ok(HandoffObserved)
      case Release => if phase != HandoffObserved then Err(Contract) else Ok(Released)
      case ExpireClaim => if phase != Prepared then Err(Contract) else Ok(ClaimExpired)
  }

  /** The phase graph of a claim, independently of the requests: only an observed handoff is released, and only a
   *  prepared claim is observed or expires. */
  predicate ClaimEdge(before: ClaimPhase, after: ClaimPhase) {
    || (before == Prepared && after == HandoffObserved)
    || (before == HandoffObserved && after == Released)
    || (before == Prepared && after == ClaimExpired)
  }

  /** A request moves a claim exactly along an edge, or finds it where it would leave it. */
  lemma ClaimChangedIsEdge(before: ClaimPhase, after: ClaimPhase)
    ensures ClaimEdge(before, after) <==> before != after && exists change :: ClaimChanged(before, change) == Ok(after)
  {
    if ClaimEdge(before, after) {
      var change := if after == HandoffObserved then Observe else if after == Released then Release else ExpireClaim;
      assert ClaimChanged(before, change) == Ok(after);
    }
  }

  // ----- the writes -----

  datatype Write =
    | CreateRecord(core: OperationIdentity)
    | PublishOwner(core: OperationIdentity)
    | UpdateRecord(op: Token, change: Change)
    | PublishConnectorOwner(claim: ClaimIdentity)
    | CreateClaim(claim: ClaimIdentity)
    | UpdateClaim(instance: Token, claimChange: ClaimChange)

  /** The parent of a claim, checked against it while the target lock is held. */
  predicate ClaimAdmitted(s: Store, claim: ClaimIdentity) {
    && claim.op in s.records
    && var parent := s.records[claim.op].core;
    && MatchesParent(claim, parent)
    && IsCurrent(s, parent)
    && ConnectorPredecessor(s.records, parent, claim.instance) == Ok(claim.predecessor)
  }

  predicate Enabled(s: Store, w: Write) {
    match w
    case CreateRecord(core) =>
      ValidIdentity(core) && core.op !in s.records && !NamedElsewhere(s, core) && CanOwn(s, core)
    case PublishOwner(core) =>
      core.op in s.records && s.records[core.op].core == core && CanOwn(s, core)
    case UpdateRecord(op, change) =>
      && op in s.records
      && var r := s.records[op];
      && IsCurrent(s, r.core)
      && Changed(r, change).Ok?
      && ValidRecord(Changed(r, change).value)
      && (change.Expire? ==>
            && ClaimKey(change.instance, op) in s.claims
            && s.claims[ClaimKey(change.instance, op)].phase == ClaimExpired)
      && (Changed(r, change).value.phase == Completed ==> CompletionVerified(s, r.core))
    case PublishConnectorOwner(claim) =>
      && ClaimAdmitted(s, claim)
      && (if claim.instance !in s.connOwners then claim.predecessor.None?
          else
            var current := s.connOwners[claim.instance];
            && current.current != claim.op
            && current.instance == claim.instance
            && (claim.predecessor.Some? ==> claim.predecessor.value == current.current)
            && ClaimKey(claim.instance, current.current) in s.claims
            && var prior := s.claims[ClaimKey(claim.instance, current.current)];
            && prior.core.op in s.records
            && PriorAllows(prior, s.records[prior.core.op], current, s.records[claim.op].core))
    case CreateClaim(claim) =>
      && ClaimAdmitted(s, claim)
      && claim.instance in s.connOwners
      && s.connOwners[claim.instance] == ConnectorOwnershipOf(claim)
      && ClaimKey(claim.instance, claim.op) !in s.claims
    case UpdateClaim(instance, change) =>
      && instance in s.connOwners
      && var owner := s.connOwners[instance];
      && var key := ClaimKey(instance, owner.current);
      && owner.instance == instance
      && key in s.claims
      && s.claims[key].core == owner.identity
      && s.claims[key].core.op in s.records
      && IsCurrent(s, s.records[s.claims[key].core.op].core)
      && s.claims[key].phase != ClaimTarget(change)
      && ClaimChanged(s.claims[key].phase, change).Ok?
  }

  function After(s: Store, w: Write): Store
    requires Enabled(s, w)
  {
    match w
    case CreateRecord(core) => s.(records := s.records[core.op := Initial(core)])
    case PublishOwner(core) => s.(owners := s.owners[FenceOf(core) := OwnershipOf(core)])
    case UpdateRecord(op, change) => s.(records := s.records[op := Changed(s.records[op], change).value])
    case PublishConnectorOwner(claim) => s.(connOwners := s.connOwners[claim.instance := ConnectorOwnershipOf(claim)])
    case CreateClaim(claim) =>
      s.(claims := s.claims[ClaimKey(claim.instance, claim.op) := ConnectorClaim(claim, Prepared)])
    case UpdateClaim(instance, change) =>
      var key := ClaimKey(instance, s.connOwners[instance].current);
      s.(claims := s.claims[key := s.claims[key].(phase := ClaimTarget(change))])
  }

  function TargetHistory(h: History, f: Fence): seq<Token> {
    if f in h.targets then h.targets[f] else []
  }

  function ConnectorHistory(h: History, instance: Token): seq<Token> {
    if instance in h.connectors then h.connectors[instance] else []
  }

  function HistoryAfter(s: Store, h: History, w: Write): History {
    match w
    case PublishOwner(core) =>
      var f := FenceOf(core);
      if f in s.owners && s.owners[f].current == core.op then h
      else h.(targets := h.targets[f := TargetHistory(h, f) + [core.op]])
    case PublishConnectorOwner(claim) =>
      h.(connectors := h.connectors[claim.instance := ConnectorHistory(h, claim.instance) + [claim.op]])
    case _ => h
  }
}
