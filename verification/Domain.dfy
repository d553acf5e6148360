/** The values that the deployer keeps in its state files.
 *
 * Identifiers are opaque ordered tokens.  A SHA-256 digest of a tuple is modelled by the
 * tuple itself, which is what an injective digest amounts to: two digests are equal exactly
 * when the digested fields are.
 */
module Domain {
  type Token = nat

  datatype Option<+T> = None | Some(value: T)

  datatype Error = Conflict | Locked | Missing | Contract

  datatype Result<+T> = Ok(value: T) | Err(error: Error)

  datatype Artifact = Artifact(version: Token, digest: Token)

  datatype Host = Host(tenant: Token, hostId: Token, owner: Token, credential: Token)

  /** The target-ownership fence: a digest of the target and its host tuple. */
  datatype Fence = Fence(target: Token, host: Host)

  datatype NodeService = Node | AgentControl | RealtimeGateway | OpaquePushBroker

  datatype AdapterKind = Codex | OpenclawAcp | Eino | Rig | ClaudeCode | CustomAcp | HermesAcp

  datatype BoundConnector = BoundConnector(instance: Token, adapter: AdapterKind, handoff: Token)

  datatype Workload =
    | NodeWorkload(origin: Token, serverDigest: Token, services: seq<NodeService>)
    | ConnectorHost(connectorDigest: Token, connectors: seq<BoundConnector>)

  datatype OperationBinding = OperationBinding(target: Token, host: Host, artifact: Artifact, workload: Workload)

  /** The immutable part of an operation record, the tuple that `operation_identity_digest` hashes. */
  datatype OperationIdentity = OperationIdentity(
    op: Token,
    manifest: Token,
    artifact: Artifact,
    binding: OperationBinding,
    target: Token,
    predecessor: Option<Token>)

  datatype OperationPhase =
    | Planned
    | Claimed
    | HostBound
    | ArtifactsVerified
    | MaterialPrepared
    | ConfigsWritten
    | MigrationApplied
    | ServicesConverged
    | ReadinessVerified
    | Completed
    | ExpiredUnclaimed
    | FailedRecoverable
    | RollbackFenced
    | RollbackConverged
    | RollbackBlocked

  datatype OperationRecord = OperationRecord(
    core: OperationIdentity,
    phase: OperationPhase,
    lastProven: OperationPhase,
    failure: Option<Token>)

  datatype TargetOwnership = TargetOwnership(
    target: Token,
    host: Host,
    current: Token,
    predecessor: Option<Token>,
    identity: OperationIdentity)

  datatype ClaimPhase = Prepared | HandoffObserved | Released | ClaimExpired

  /** The immutable part of a connector claim, the tuple that `connector_claim_identity_digest` hashes. */
  datatype ClaimIdentity = ClaimIdentity(
    op: Token,
    manifest: Token,
    target: Token,
    instance: Token,
    artifact: Artifact,
    adapter: AdapterKind,
    handoff: Token,
    predecessor: Option<Token>)

  datatype ConnectorClaim = ConnectorClaim(core: ClaimIdentity, phase: ClaimPhase)

  datatype ConnectorOwnership = ConnectorOwnership(
    instance: Token,
    current: Token,
    predecessor: Option<Token>,
    identity: ClaimIdentity)

  function FenceOf(core: OperationIdentity): Fence {
    Fence(core.target, core.binding.host)
  }

  function OwnershipOf(core: OperationIdentity): TargetOwnership {
    TargetOwnership(core.target, core.binding.host, core.op, core.predecessor, core)
  }

  function ConnectorOwnershipOf(claim: ClaimIdentity): ConnectorOwnership {
    ConnectorOwnership(claim.instance, claim.op, claim.predecessor, claim)
  }

  /** The connectors a workload binds; a node workload binds none. */
  function Connectors(workload: Workload): seq<BoundConnector> {
    match workload
    case NodeWorkload(_, _, _) => []
    case ConnectorHost(_, connectors) => connectors
  }

  predicate Binds(core: OperationIdentity, instance: Token) {
    exists k :: 0 <= k < |Connectors(core.binding.workload)| && Connectors(core.binding.workload)[k].instance == instance
  }
}
