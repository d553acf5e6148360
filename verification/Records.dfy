/** Operation records: the legal phase graph, the record validator and the transitions.
 */
module Records {
  import opened Domain

  function ServiceRank(service: NodeService): nat {
    match service
    case Node => 0
    case AgentControl => 1
    case RealtimeGateway => 2
    case OpaquePushBroker => 3
  }

  /** The order in which a node's services are brought up: the node itself, then agent control, the realtime gateway and
   *  the push broker. */
  predicate ComesBefore(a: NodeService, b: NodeService) {
    match a
    case Node => !b.Node?
    case AgentControl => b.RealtimeGateway? || b.OpaquePushBroker?
    case RealtimeGateway => b.OpaquePushBroker?
    case OpaquePushBroker => false
  }

  lemma RanksInOrder(a: NodeService, b: NodeService)
    ensures ServiceRank(a) < ServiceRank(b) <==> ComesBefore(a, b)
    ensures ServiceRank(a) == ServiceRank(b) ==> a == b
  {
  }

  function NextPhase(phase: OperationPhase, workload: Workload): Option<OperationPhase> {
    match phase
    case Planned => Some(Claimed)
    case Claimed => Some(HostBound)
    case HostBound => Some(ArtifactsVerified)
    case ArtifactsVerified => Some(MaterialPrepared)
    case MaterialPrepared => Some(ConfigsWritten)
    case ConfigsWritten => Some(if workload.NodeWorkload? then MigrationApplied else ServicesConverged)
    case MigrationApplied => Some(ServicesConverged)
    case ServicesConverged => Some(ReadinessVerified)
    case ReadinessVerified => Some(Completed)
    case _ => None
  }

  predicate ForwardNonterminal(phase: OperationPhase, workload: Workload) {
    match phase
    case Planned | Claimed | HostBound | ArtifactsVerified | MaterialPrepared
       | ConfigsWritten | ServicesConverged | ReadinessVerified => true
    case MigrationApplied => workload.NodeWorkload?
    case _ => false
  }

  predicate ServicesAscend(services: seq<NodeService>) {
    forall a, b :: 0 <= a < b < |services| ==> ServiceRank(services[a]) < ServiceRank(services[b])
  }

  predicate ConnectorsAscend(connectors: seq<BoundConnector>) {
    forall a, b :: 0 <= a < b < |connectors| ==> connectors[a].instance < connectors[b].instance
  }

  predicate ValidWorkload(workload: Workload, artifact: Artifact) {
    match workload
    case NodeWorkload(_, serverDigest, services) =>
      && serverDigest == artifact.digest
      && services != []
      && Node in services
      && ServicesAscend(services)
    case ConnectorHost(connectorDigest, connectors) =>
      && connectorDigest == artifact.digest
      && connectors != []
      && ConnectorsAscend(connectors)
  }

  predicate ValidIdentity(core: OperationIdentity) {
    && core.artifact == core.binding.artifact
    && core.predecessor != Some(core.op)
    && core.binding.target == core.target
    && ValidWorkload(core.binding.workload, core.binding.artifact)
  }

  predicate ValidPhase(r: OperationRecord) {
    var workload := r.core.binding.workload;
    match r.phase
    case FailedRecoverable => ForwardNonterminal(r.lastProven, workload) && r.failure.Some?
    case RollbackFenced | RollbackConverged | RollbackBlocked => r.lastProven == Completed && r.failure.None?
    case ExpiredUnclaimed =>
      && workload.ConnectorHost? && |workload.connectors| == 1
      && r.lastProven == ExpiredUnclaimed && r.failure.None?
    case phase =>
      && phase == r.lastProven && r.failure.None?
      && !(phase == MigrationApplied && workload.ConnectorHost?)
  }

  predicate ValidRecord(r: OperationRecord) {
    ValidIdentity(r.core) && ValidPhase(r)
  }

  function Initial(core: OperationIdentity): OperationRecord {
    OperationRecord(core, Planned, Planned, None)
  }

  /** One request to change the phase of a stored operation. */
  datatype Change =
    | Advance(to: OperationPhase)
    | Fail(evidence: Token)
    | Resume
    | Expire(instance: Token)
    | FenceRollback
    | FinishRollback(outcome: OperationPhase)

  function Changed(r: OperationRecord, change: Change): Result<OperationRecord> {
    match change
    case Advance(to) =>
      if r.phase == FailedRecoverable || NextPhase(r.phase, r.core.binding.workload) != Some(to) then Err(Contract)
      else Ok(r.(phase := to, lastProven := to))
    case Fail(evidence) =>
      if r.phase in {Completed, ExpiredUnclaimed, RollbackFenced, RollbackConverged, RollbackBlocked, FailedRecoverable}
      then Err(Contract)
      else Ok(r.(phase := FailedRecoverable, lastProven := r.phase, failure := Some(evidence)))
    case Resume =>
      if r.phase != FailedRecoverable then Err(Contract)
      else Ok(r.(phase := r.lastProven, failure := None))
    case Expire(instance) =>
      if r.core.binding.workload.NodeWorkload? then Err(Contract)
      else if
        || r.phase != ArtifactsVerified || r.lastProven != ArtifactsVerified || r.failure.Some?
        || |r.core.binding.workload.connectors| != 1
        || r.core.binding.workload.connectors[0].instance != instance
      then Err(Contract)
      else Ok(r.(phase := ExpiredUnclaimed, lastProven := ExpiredUnclaimed))
    case FenceRollback =>
      if r.phase != Completed then Err(Contract) else Ok(r.(phase := RollbackFenced))
    case FinishRollback(outcome) =>
      if r.phase != RollbackFenced || outcome !in {RollbackConverged, RollbackBlocked} then Err(Contract)
      else Ok(r.(phase := outcome))
  }

  /** How far a proven phase is along the forward path; the terminal expiry sits after `ArtifactsVerified`. */
  function ProvenRank(phase: OperationPhase): nat {
    match phase
    case Planned => 0
    case Claimed => 1
    case HostBound => 2
    case ArtifactsVerified => 3
    case ExpiredUnclaimed => 4
    case MaterialPrepared => 4
    case ConfigsWritten => 5
    case MigrationApplied => 6
    case ServicesConverged => 7
    case ReadinessVerified => 8
    case _ => 9
  }

  predicate Settled(phase: OperationPhase) {
    phase == Completed || phase == RollbackConverged || phase == ExpiredUnclaimed
  }

  predicate AfterCompletion(phase: OperationPhase) {
    phase == Completed || phase == RollbackFenced || phase == RollbackConverged || phase == RollbackBlocked
  }

  /** The forward path of each kind of workload, phase by phase. */
  const NODE_PATH := [Planned, Claimed, HostBound, ArtifactsVerified, MaterialPrepared, ConfigsWritten, MigrationApplied,
                      ServicesConverged, ReadinessVerified, Completed]
  const CONNECTOR_PATH := [Planned, Claimed, HostBound, ArtifactsVerified, MaterialPrepared, ConfigsWritten,
                           ServicesConverged, ReadinessVerified, Completed]

  function ForwardPath(workload: Workload): seq<OperationPhase> {
    if workload.NodeWorkload? then NODE_PATH else CONNECTOR_PATH
  }

  predicate ComesNext(workload: Workload, phase: OperationPhase, next: OperationPhase) {
    var path := ForwardPath(workload);
    exists i :: 0 <= i < |path| - 1 && path[i] == phase && path[i + 1] == next
  }

  predicate ShortOfEnd(workload: Workload, phase: OperationPhase) {
    phase in ForwardPath(workload) && phase != Completed
  }

  /** The phase graph written as a relation between stored records, independently of the requests: a step along the
   *  forward path, a recoverable failure short of its end, its resumption, the no-effect expiry, or a rollback step. */
  predicate LegalEdge(before: OperationRecord, after: OperationRecord) {
    && before.core == after.core
    && (
      || (ComesNext(before.core.binding.workload, before.phase, after.phase)
          && after.lastProven == after.phase && after.failure.None?)
      || (ShortOfEnd(before.core.binding.workload, before.phase)
          && after.phase == FailedRecoverable && after.lastProven == before.phase && after.failure.Some?)
      || (before.phase == FailedRecoverable
          && after.phase == before.lastProven == after.lastProven && after.failure.None?)
      || (before.phase == ArtifactsVerified && after.phase == ExpiredUnclaimed == after.lastProven && after.failure.None?)
      || (before.phase == Completed && after.phase == RollbackFenced
          && after.lastProven == before.lastProven && after.failure.None?)
      || (before.phase == RollbackFenced && after.phase in {RollbackConverged, RollbackBlocked}
          && after.lastProven == before.lastProven && after.failure.None?))
  }

  /** The step that the code computes is the next one of the path. */
  lemma NextIsOnPath(workload: Workload, phase: OperationPhase, next: OperationPhase)
    requires !(phase == MigrationApplied && workload.ConnectorHost?)
    ensures NextPhase(phase, workload) == Some(next) <==> ComesNext(workload, phase, next)
  {
    var path := ForwardPath(workload);
    if NextPhase(phase, workload) == Some(next) {
      var i := if workload.ConnectorHost? && ProvenRank(phase) > 6 then ProvenRank(phase) - 1 else ProvenRank(phase);
      assert path[i] == phase && path[i + 1] == next;
    }
  }

  lemma ForwardIsShortOfEnd(workload: Workload, phase: OperationPhase)
    ensures ForwardNonterminal(phase, workload) <==> ShortOfEnd(workload, phase)
  {
    var path := ForwardPath(workload);
    if ForwardNonterminal(phase, workload) {
      var i := if workload.ConnectorHost? && ProvenRank(phase) > 6 then ProvenRank(phase) - 1 else ProvenRank(phase);
      assert path[i] == phase;
    }
  }

  /** Every accepted request follows an edge of the graph, keeps the record valid, never moves the
   *  proven phase back and never returns an operation to `Planned` except to resume it there. */
  lemma ChangedIsLegal(r: OperationRecord, change: Change)
    requires ValidRecord(r)
    requires Changed(r, change).Ok?
    ensures var after := Changed(r, change).value;
      && LegalEdge(r, after)
      && ValidRecord(after)
      && ProvenRank(r.lastProven) <= ProvenRank(after.lastProven)
      && (after.phase == Planned ==> r.phase == FailedRecoverable && r.lastProven == Planned)
      && (r.core.binding.workload.ConnectorHost? ==> after.phase != MigrationApplied && after.lastProven != MigrationApplied)
  {
    var after := Changed(r, change).value;
    match change
    case Advance(to) => NextIsOnPath(r.core.binding.workload, r.phase, to);
    case Fail(_) => ForwardIsShortOfEnd(r.core.binding.workload, r.phase);
    case Resume =>
    case Expire(_) =>
    case FenceRollback =>
    case FinishRollback(_) =>
  }

  /** The other direction: every edge between valid records is one request away. */
  lemma LegalIsChanged(before: OperationRecord, after: OperationRecord) returns (change: Change)
    requires ValidRecord(before) && ValidRecord(after) && LegalEdge(before, after)
    ensures Changed(before, change) == Ok(after)
  {
    NextIsOnPath(before.core.binding.workload, before.phase, after.phase);
    ForwardIsShortOfEnd(before.core.binding.workload, before.phase);
    hide ComesNext, ShortOfEnd;
    if NextPhase(before.phase, before.core.binding.workload) == Some(after.phase) && after.failure.None? {
      change := Advance(after.phase);
    } else if after.phase == FailedRecoverable {
      change := Fail(after.failure.value);
    } else if before.phase == FailedRecoverable {
      change := Resume;
    } else if after.phase == ExpiredUnclaimed {
      change := Expire(before.core.binding.workload.connectors[0].instance);
    } else if after.phase == RollbackFenced {
      change := FenceRollback;
    } else {
      change := FinishRollback(after.phase);
    }
  }

  // ----- validity -----

  /** The record that a list of requests makes of a new one, if each of them is accepted. */
  function Made(core: OperationIdentity, changes: seq<Change>): Result<OperationRecord> {
    if changes == [] then Ok(Initial(core))
    else
      var before := Made(core, changes[..|changes| - 1]);
      if before.Err? then before else Changed(before.value, changes[|changes| - 1])
  }

  lemma MadeThen(core: OperationIdentity, changes: seq<Change>, change: Change)
    requires Made(core, changes).Ok?
    ensures Made(core, changes + [change]) == Changed(Made(core, changes).value, change)
  {
    assert (changes + [change])[..|changes|] == changes;
  }

  lemma {:induction false} MadeIsValid(core: OperationIdentity, changes: seq<Change>)
    requires ValidIdentity(core) && Made(core, changes).Ok?
    ensures ValidRecord(Made(core, changes).value) && Made(core, changes).value.core == core
    decreases |changes|
  {
    hide ValidIdentity, ComesNext, ShortOfEnd;
    if changes != [] {
      MadeIsValid(core, changes[..|changes| - 1]);
      ChangedIsLegal(Made(core, changes[..|changes| - 1]).value, changes[|changes| - 1]);
    }
  }

  lemma {:induction false} MadeForward(core: OperationIdentity, i: nat) returns (changes: seq<Change>)
    requires i < |ForwardPath(core.binding.workload)|
    ensures var phase := ForwardPath(core.binding.workload)[i];
      Made(core, changes) == Ok(OperationRecord(core, phase, phase, None))
    decreases i
  {
    if i == 0 {
      changes := [];
    } else {
      var before := MadeForward(core, i - 1);
      var change := Change.Advance(ForwardPath(core.binding.workload)[i]);
      MadeThen(core, before, change);
      changes := before + [change];
    }
  }

  /** Along the path to the proven phase, and then the requests that lead off it. */
  lemma ValidIsMade(r: OperationRecord) returns (changes: seq<Change>)
    requires ValidRecord(r)
    ensures Made(r.core, changes) == Ok(r)
  {
    hide ValidIdentity;
    var workload := r.core.binding.workload;
    var rank := if r.phase == ExpiredUnclaimed then 3 else ProvenRank(r.lastProven);
    var i := if workload.ConnectorHost? && rank > 6 then rank - 1 else rank;
    changes := MadeForward(r.core, i);
    if r.phase == FailedRecoverable {
      MadeThen(r.core, changes, Change.Fail(r.failure.value));
      changes := changes + [Change.Fail(r.failure.value)];
    } else if r.phase == ExpiredUnclaimed {
      MadeThen(r.core, changes, Expire(workload.connectors[0].instance));
      changes := changes + [Expire(workload.connectors[0].instance)];
    } else if r.phase != r.lastProven {
      MadeThen(r.core, changes, FenceRollback);
      changes := changes + [FenceRollback];
      if r.phase != RollbackFenced {
        MadeThen(r.core, changes, Change.FinishRollback(r.phase));
        changes := changes + [Change.FinishRollback(r.phase)];
      }
    }
  }

  /** The check of a stored record accepts exactly what the requests can make of a new one. */
  lemma ValidIffMade(r: OperationRecord)
    requires ValidIdentity(r.core)
    ensures ValidRecord(r) <==> exists changes :: Made(r.core, changes) == Ok(r)
  {
    hide ValidIdentity, ValidPhase;
    if ValidRecord(r) {
      var changes := ValidIsMade(r);
    }
    if changes :| Made(r.core, changes) == Ok(r) {
      MadeIsValid(r.core, changes);
    }
  }

  /** The record a caller holds in memory while one call changes it in place. */
  class LiveOperation {
    var record: OperationRecord

    constructor (r: OperationRecord)
      ensures record == r
    {
      record := r;
    }

    method Advance(phase: OperationPhase) returns (r: Result<()>)
      modifies this
      ensures r.Ok? <==> Changed(old(record), Change.Advance(phase)).Ok?
      ensures r.Ok? ==> Ok(record) == Changed(old(record), Change.Advance(phase))
      ensures ValidRecord(old(record)) ==> (r.Ok? <==> ComesNext(old(record).core.binding.workload, old(record).phase, phase))
      ensures r.Ok? ==> record == OperationRecord(old(record).core, phase, phase, old(record).failure)
      ensures r.Err? ==> record == old(record) && r.error == Contract
    {
      if ValidRecord(record) {
        NextIsOnPath(record.core.binding.workload, record.phase, phase);
      }
      if record.phase == FailedRecoverable {
        return Err(Contract);
      }
      if NextPhase(record.phase, record.core.binding.workload) != Some(phase) {
        return Err(Contract);
      }
      record := record.(phase := phase);
      record := record.(lastProven := phase);
      return Ok(());
    }

    method Fail(evidence: Token) returns (r: Result<()>)
      modifies this
      ensures r.Ok? <==> Changed(old(record), Change.Fail(evidence)).Ok?
      ensures r.Ok? ==> Ok(record) == Changed(old(record), Change.Fail(evidence))
      ensures ValidRecord(old(record)) ==> (r.Ok? <==> ShortOfEnd(old(record).core.binding.workload, old(record).phase))
      ensures r.Err? ==> record == old(record) && r.error == Contract
    {
      ForwardIsShortOfEnd(record.core.binding.workload, record.phase);
      if record.phase in {Completed, ExpiredUnclaimed, RollbackFenced, RollbackConverged, RollbackBlocked, FailedRecoverable} {
        return Err(Contract);
      }
      record := record.(lastProven := record.phase);
      record := record.(phase := FailedRecoverable);
      record := record.(failure := Some(evidence));
      return Ok(());
    }

    method Resume() returns (r: Result<()>)
      modifies this
      ensures r.Ok? <==> Changed(old(record), Change.Resume).Ok?
      ensures r.Ok? ==> Ok(record) == Changed(old(record), Change.Resume)
      ensures r.Err? ==> record == old(record) && r.error == Contract
    {
      if record.phase != FailedRecoverable {
        return Err(Contract);
      }
      record := record.(phase := record.lastProven);
      record := record.(failure := None);
      return Ok(());
    }

    method ExpireUnclaimed(instance: Token) returns (r: Result<()>)
      modifies this
      ensures r.Ok? <==> Changed(old(record), Expire(instance)).Ok?
      ensures r.Ok? ==> Ok(record) == Changed(old(record), Expire(instance))
      ensures r.Err? ==> record == old(record) && r.error == Contract
    {
      if record.core.binding.workload.NodeWorkload? {
        return Err(Contract);
      }
      var connectors := record.core.binding.workload.connectors;
      if record.phase != ArtifactsVerified || record.lastProven != ArtifactsVerified || record.failure.Some?
        || |connectors| != 1 || connectors[0].instance != instance {
        return Err(Contract);
      }
      record := record.(phase := ExpiredUnclaimed);
      record := record.(lastProven := ExpiredUnclaimed);
      return Ok(());
    }

    method RollbackServiceOnly(phase: OperationPhase) returns (r: Result<()>)
      modifies this
      ensures r.Ok? <==> phase == RollbackFenced && Changed(old(record), FenceRollback).Ok?
      ensures r.Ok? ==> Ok(record) == Changed(old(record), FenceRollback)
      ensures r.Err? ==> record == old(record) && r.error == Contract
    {
      if record.phase != Completed {
        return Err(Contract);
      }
      if phase != RollbackFenced {
        return Err(Contract);
      }
      record := record.(phase := phase);
      return Ok(());
    }

    method FinishRollback(phase: OperationPhase) returns (r: Result<()>)
      modifies this
      ensures r.Ok? <==> Changed(old(record), Change.FinishRollback(phase)).Ok?
      ensures r.Ok? ==> Ok(record) == Changed(old(record), Change.FinishRollback(phase))
      ensures r.Err? ==> record == old(record) && r.error == Contract
    {
      if record.phase != RollbackFenced || phase !in {RollbackConverged, RollbackBlocked} {
        return Err(Contract);
      }
      record := record.(phase := phase);
      return Ok(());
    }
  }
}
