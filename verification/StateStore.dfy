/** The store as the deployer's code sees it: an object whose methods read and replace its files.
 *
 * Each method is one call that runs while no other process does, so it finds every lock free.  Its
 * postcondition says exactly when it succeeds, what it then leaves in the files, and what it leaves
 * when it fails.
 */
module StateStore {
  import opened Domain
  import opened Records
  import opened StateActions
  import opened Calls

  /** The arguments of a claim pass the checks that need no file. */
  predicate Claimable(record: OperationRecord, proof: Host) {
    record == Initial(record.core) && ValidIdentity(record.core) && proof == record.core.binding.host
  }

  /** Another identity is recorded under this operation, or a pointer names it that its claim would not publish. */
  ghost predicate ClaimTaken(s: Store, core: OperationIdentity) {
    if core.op in s.records then s.records[core.op].core != core
    else |s.owners| <= MAX_STATE_ROOT_ENTRIES && !ProjectionsAgree(s, core)
  }

  /** What every check demands of a claim of this connector by the parent. */
  ghost predicate ClaimFor(records: map<Token, OperationRecord>, parent: OperationIdentity, instance: Token,
                           claim: ClaimIdentity) {
    && claim.op == parent.op && claim.instance == instance
    && MatchesParent(claim, parent)
    && claim.predecessor != Some(claim.op)
    && ConnectorPredecessor(records, parent, instance) == Ok(claim.predecessor)
  }

  class DeploymentStateStore {
    var records: map<Token, OperationRecord>
    var owners: map<Fence, TargetOwnership>
    var connOwners: map<Token, ConnectorOwnership>
    var claims: map<ClaimKey, ConnectorClaim>

    /** An empty state root. */
    constructor ()
      ensures Valid() && Files() == Store(map[], map[], map[], map[])
    {
      records, owners, connOwners, claims := map[], map[], map[], map[];
    }

    function Files(): Store
      reads this
    {
      Store(records, owners, connOwners, claims)
    }

    /** Every record file is one that reading accepts, and every claim file is named for its claim. */
    ghost predicate Valid()
      reads this
    {
      && (forall op :: op in records ==> records[op].core.op == op && ValidRecord(records[op]))
      && (forall key :: key in claims ==> ClaimKey(claims[key].core.instance, claims[key].core.op) == key)
    }

    // ----- reading -----

    method Read(op: Token) returns (r: Result<OperationRecord>)
      ensures r == if op in records then Ok(records[op]) else Err(Missing)
    {
      if op !in records {
        return Err(Missing);
      }
      return Ok(records[op]);
    }

    method ReadOwner(fence: Fence) returns (r: Result<TargetOwnership>)
      ensures r == if fence in owners then Ok(owners[fence]) else Err(Missing)
    {
      if fence !in owners {
        return Err(Missing);
      }
      return Ok(owners[fence]);
    }

    method ReadConnectorOwner(instance: Token) returns (r: Result<ConnectorOwnership>)
      ensures r == if instance in connOwners then Ok(connOwners[instance]) else Err(Missing)
    {
      if instance !in connOwners {
        return Err(Missing);
      }
      return Ok(connOwners[instance]);
    }

    method ReadClaim(instance: Token, op: Token) returns (r: Result<ConnectorClaim>)
      ensures r == if ClaimKey(instance, op) in claims then Ok(claims[ClaimKey(instance, op)]) else Err(Missing)
    {
      if ClaimKey(instance, op) !in claims {
        return Err(Missing);
      }
      return Ok(claims[ClaimKey(instance, op)]);
    }

    // ----- claiming a target -----

    method Claim(record: OperationRecord, proof: Host) returns (r: Result<OperationRecord>)
      requires Valid()
      modifies this
      ensures Valid()
      ensures r.Ok? <==> record == Initial(record.core) && proof == record.core.binding.host && ClaimAllowed(old(Files()), record.core)
      ensures r.Ok? ==> Files() == ClaimAfter(old(Files()), record.core) && r.value == ClaimedRecord(old(Files()), record.core)
      ensures r.Ok? && record.core.op in old(records) ==> records == old(records)
      ensures r.Ok? && record.core.op !in old(records) ==>
        records == old(records)[record.core.op := OperationRecord(record.core, Planned, Planned, None)]
      ensures r.Ok? ==>
        var core := record.core;
        var owner := TargetOwnership(core.target, core.binding.host, core.op, core.predecessor, core);
        owners == old(owners)[Fence(core.target, core.binding.host) := owner]
      ensures r.Err? ==> Files() == old(Files())
      ensures record != Initial(record.core) || proof != record.core.binding.host ==> r == Err(Contract)
      ensures Claimable(record, proof) && ClaimTaken(old(Files()), record.core) ==> r == Err(Conflict)
    {
      if !ValidRecord(record) {
        return Err(Contract);
      }
      if proof != record.core.binding.host {
        return Err(Contract);
      }
      if record.phase != Planned || record.lastProven != Planned || record.failure.Some? {
        return Err(Contract);
      }
      var ownership := OwnershipOf(record.core);
      var existing := Read(record.core.op);
      if existing.Ok? && existing.value.core != record.core {
        return Err(Conflict);
      }
      var fence := FenceOf(record.core);
      if existing.Err? {
        var reconciled := ReconcileLegacyOwner(record.core);
        if reconciled.Err? {
          return Err(reconciled.error);
        }
      }
      var validated := ValidateOwnerTransition(record.core);
      if validated.Err? {
        return Err(validated.error);
      }
      if existing.Ok? {
        owners := owners[fence := ownership];
        assert records[record.core.op := existing.value] == records;
        return existing;
      }
      records := records[record.core.op := record];
      owners := owners[fence := ownership];
      return Ok(record);
    }

    /** Reads every owner pointer, in whatever order the directory lists them. */
    method ReconcileLegacyOwner(core: OperationIdentity) returns (r: Result<()>)
      requires core.op !in records
      ensures r.Ok? <==> |owners| <= 4096 && ProjectionsAgree(Files(), core)
      ensures r == Err(Contract) ==> |owners| > 4096
      ensures r.Err? && |owners| <= 4096 ==> r.error == Conflict
    {
      var unread := owners.Keys;
      var matching := None;
      var count := 0;
      while unread != {}
        invariant unread <= owners.Keys && count + |unread| == |owners| && count <= MAX_STATE_ROOT_ENTRIES
        invariant matching == None || matching == Some(FenceOf(core))
        invariant matching.Some? ==> matching.value !in unread
        invariant forall g :: g in owners.Keys - unread && owners[g].current == core.op ==>
            g == FenceOf(core) && owners[g] == OwnershipOf(core)
      {
        var path :| path in unread;
        unread := unread - {path};
        count := count + 1;
        if count > MAX_STATE_ROOT_ENTRIES {
          return Err(Contract);
        }
        var current := owners[path];
        if current.current != core.op {
          continue;
        }
        var repeated := matching.Some?;
        matching := Some(path);
        if repeated || path != FenceOf(core) || current != OwnershipOf(core) {
          return Err(Conflict);
        }
      }
      return Ok(());
    }

    method ValidateOwnerTransition(core: OperationIdentity) returns (r: Result<()>)
      requires Valid()
      ensures r.Ok? <==> CanOwn(Files(), core)
      ensures r == Err(Missing) ==> core.predecessor.Some? && FenceOf(core) in owners
    {
      var owner := ReadOwner(FenceOf(core));
      match owner {
        case Ok(current) =>
          if current.current == core.op {
            if current != OwnershipOf(core) {
              return Err(Conflict);
            }
          } else {
            if current.target != core.target || current.host != core.binding.host || core.predecessor != Some(current.current) {
              return Err(Conflict);
            }
            var read := Read(current.current);
            if read.Err? {
              return Err(read.error);
            }
            var predecessor := read.value;
            if predecessor.core != current.identity {
              return Err(Conflict);
            }
            if predecessor.phase == ExpiredUnclaimed {
              var reissued := ValidateExpiredUnclaimedSuccessor(predecessor.core, core);
              return reissued;
            } else if predecessor.phase != Completed && predecessor.phase != RollbackConverged {
              return Err(Conflict);
            }
          }
        case Err(_) =>
          if core.predecessor.Some? {
            return Err(Conflict);
          }
      }
      return Ok(());
    }

    method ValidateExpiredUnclaimedSuccessor(predecessor: OperationIdentity, successor: OperationIdentity)
      returns (r: Result<()>)
      ensures r.Ok? <==>
        && ReissueOf(predecessor, successor)
        && ClaimKey(SoleInstance(predecessor), predecessor.op) in claims
        && ExpiredClaimOf(claims[ClaimKey(SoleInstance(predecessor), predecessor.op)], predecessor)
    {
      if predecessor.binding.workload.NodeWorkload? || successor.binding.workload.NodeWorkload? {
        return Err(Conflict);
      }
      var prior, next := predecessor.binding.workload.connectors, successor.binding.workload.connectors;
      if |prior| != 1 || |next| != 1 || prior[0].instance != next[0].instance {
        return Err(Conflict);
      }
      var claim := ReadClaim(prior[0].instance, predecessor.op);
      if claim.Err? {
        return Err(claim.error);
      }
      if claim.value.phase != ClaimExpired || claim.value.core.op != predecessor.op || claim.value.core.target != predecessor.target {
        return Err(Conflict);
      }
      return Ok(());
    }

    // ----- changing a record -----

    method LockCurrent(op: Token) returns (r: Result<OperationRecord>)
      requires Valid()
      ensures r.Ok? <==> op in records && IsCurrent(Files(), records[op].core)
      ensures r.Ok? ==> r.value == records[op]
      ensures r.Err? && op !in records ==> r.error == Missing
    {
      var current := Read(op);
      if current.Err? {
        return current;
      }
      var owner := ReadOwner(FenceOf(current.value.core));
      if owner.Err? {
        return Err(owner.error);
      }
      if owner.value.current != current.value.core.op || owner.value.identity != current.value.core {
        return Err(Conflict);
      }
      return current;
    }

    method VerifyConnectorCompletion(core: OperationIdentity) returns (r: Result<()>)
      ensures r.Ok? <==> CompletionVerified(Files(), core)
    {
      var connectors := Connectors(core.binding.workload);
      var k := 0;
      while k < |connectors|
        invariant 0 <= k <= |connectors|
        invariant forall j :: 0 <= j < k ==> ConnectorDone(Files(), core.op, connectors[j].instance)
      {
        var owner := ReadConnectorOwner(connectors[k].instance);
        if owner.Err? {
          return Err(owner.error);
        }
        var claim := ReadClaim(connectors[k].instance, owner.value.current);
        if claim.Err? {
          return Err(claim.error);
        }
        if owner.value.current != core.op || claim.value.core != owner.value.identity || claim.value.phase != Released {
          return Err(Conflict);
        }
        k := k + 1;
      }
      return Ok(());
    }

    method PersistRecord(record: OperationRecord) returns (r: Result<OperationRecord>)
      requires Valid()
      modifies `records
      ensures Valid()
      ensures r.Ok? <==> ValidRecord(record) && (record.phase == Completed ==> CompletionVerified(old(Files()), record.core))
      ensures r.Ok? ==> records == old(records)[record.core.op := record] && r.value == record
      ensures r.Err? ==> records == old(records)
    {
      if !ValidRecord(record) {
        return Err(Contract);
      }
      if record.phase == Completed {
        var verified := VerifyConnectorCompletion(record.core);
        if verified.Err? {
          return Err(verified.error);
        }
      }
      records := records[record.core.op := record];
      return Ok(record);
    }

    method Advance(op: Token, phase: OperationPhase) returns (r: Result<OperationRecord>)
      requires Valid()
      modifies this
      ensures Valid()
      ensures r.Ok? <==> Enabled(old(Files()), UpdateRecord(op, Change.Advance(phase)))
      ensures r.Ok? ==> Files() == After(old(Files()), UpdateRecord(op, Change.Advance(phase))) && r.value == records[op]
      ensures r.Ok? <==>
        && op in old(records) && IsCurrent(old(Files()), old(records)[op].core)
        && ComesNext(old(records)[op].core.binding.workload, old(records)[op].phase, phase)
        && (phase == Completed ==> CompletionVerified(old(Files()), old(records)[op].core))
      ensures r.Ok? ==> records == old(records)[op := old(records)[op].(phase := phase, lastProven := phase)]
      ensures r.Err? ==> Files() == old(Files())
    {
      r := LockCurrent(op);
      if r.Err? {
        return;
      }
      var live := new LiveOperation(r.value);
      var changed := live.Advance(phase);
      if changed.Err? {
        return Err(changed.error);
      }
      r := PersistRecord(live.record);
    }

    method Fail(op: Token, evidence: Token) returns (r: Result<OperationRecord>)
      requires Valid()
      modifies this
      ensures Valid()
      ensures r.Ok? <==> Enabled(old(Files()), UpdateRecord(op, Change.Fail(evidence)))
      ensures r.Ok? ==> Files() == After(old(Files()), UpdateRecord(op, Change.Fail(evidence))) && r.value == records[op]
      ensures r.Ok? <==>
        && op in old(records) && IsCurrent(old(Files()), old(records)[op].core)
        && ShortOfEnd(old(records)[op].core.binding.workload, old(records)[op].phase)
      ensures r.Ok? ==>
        var was := old(records)[op];
        records == old(records)[op := OperationRecord(was.core, FailedRecoverable, was.phase, Some(evidence))]
      ensures r.Err? ==> Files() == old(Files())
    {
      r := LockCurrent(op);
      if r.Err? {
        return;
      }
      var live := new LiveOperation(r.value);
      var changed := live.Fail(evidence);
      if changed.Err? {
        return Err(changed.error);
      }
      r := PersistRecord(live.record);
    }

    method Resume(op: Token) returns (r: Result<OperationRecord>)
      requires Valid()
      modifies this
      ensures Valid()
      ensures r.Ok? <==> Enabled(old(Files()), UpdateRecord(op, Change.Resume))
      ensures r.Ok? ==> Files() == After(old(Files()), UpdateRecord(op, Change.Resume)) && r.value == records[op]
      ensures r.Ok? <==>
        && op in old(records) && IsCurrent(old(Files()), old(records)[op].core)
        && old(records)[op].phase == FailedRecoverable
      ensures r.Ok? ==>
        var was := old(records)[op];
        records == old(records)[op := OperationRecord(was.core, was.lastProven, was.lastProven, None)]
      ensures r.Err? ==> Files() == old(Files())
    {
      r := LockCurrent(op);
      if r.Err? {
        return;
      }
      var live := new LiveOperation(r.value);
      var changed := live.Resume();
      if changed.Err? {
        return Err(changed.error);
      }
      r := PersistRecord(live.record);
    }

    method ExpireUnclaimedOperation(op: Token, instance: Token) returns (r: Result<OperationRecord>)
      requires Valid()
      modifies this
      ensures Valid()
      ensures r.Ok? <==> Enabled(old(Files()), UpdateRecord(op, Expire(instance))) || ExpiryRecorded(old(Files()), op, Expire(instance))
      ensures r.Ok? && !ExpiryRecorded(old(Files()), op, Expire(instance)) ==>
        Files() == After(old(Files()), UpdateRecord(op, Expire(instance)))
      ensures r.Ok? ==> op in records && r.value == records[op] && r.value.phase == ExpiredUnclaimed
      ensures r.Ok? <==>
        && op in old(records) && IsCurrent(old(Files()), old(records)[op].core)
        && ClaimKey(instance, op) in old(claims) && old(claims)[ClaimKey(instance, op)].phase == ClaimExpired
        && (old(records)[op].phase == ExpiredUnclaimed
            || (old(records)[op].phase == ArtifactsVerified
                && SoleConnector(old(records)[op].core) && SoleInstance(old(records)[op].core) == instance))
      ensures r.Ok? ==>
        records == old(records)[op := OperationRecord(old(records)[op].core, ExpiredUnclaimed, ExpiredUnclaimed, None)]
      ensures r.Err? || ExpiryRecorded(old(Files()), op, Expire(instance)) ==> Files() == old(Files())
    {
      r := LockCurrent(op);
      if r.Err? {
        return;
      }
      var claim := ReadClaim(instance, op);
      if claim.Err? {
        return Err(claim.error);
      }
      if claim.value.phase != ClaimExpired {
        return Err(Conflict);
      }
      if r.value.phase == ExpiredUnclaimed {
        return;
      }
      var live := new LiveOperation(r.value);
      var changed := live.ExpireUnclaimed(instance);
      if changed.Err? {
        return Err(changed.error);
      }
      r := PersistRecord(live.record);
    }

    method RollbackFence(op: Token) returns (r: Result<OperationRecord>)
      requires Valid()
      modifies this
      ensures Valid()
      ensures r.Ok? <==> Enabled(old(Files()), UpdateRecord(op, FenceRollback))
      ensures r.Ok? ==> Files() == After(old(Files()), UpdateRecord(op, FenceRollback)) && r.value == records[op]
      ensures r.Ok? <==>
        op in old(records) && IsCurrent(old(Files()), old(records)[op].core) && old(records)[op].phase == Completed
      ensures r.Ok? ==>
        records == old(records)[op := OperationRecord(old(records)[op].core, RollbackFenced, Completed, None)]
      ensures r.Err? ==> Files() == old(Files())
    {
      r := LockCurrent(op);
      if r.Err? {
        return;
      }
      var live := new LiveOperation(r.value);
      var changed := live.RollbackServiceOnly(RollbackFenced);
      if changed.Err? {
        return Err(changed.error);
      }
      r := PersistRecord(live.record);
    }

    method FinishRollback(op: Token, outcome: OperationPhase) returns (r: Result<OperationRecord>)
      requires Valid()
      modifies this
      ensures Valid()
      ensures r.Ok? <==> Enabled(old(Files()), UpdateRecord(op, Change.FinishRollback(outcome)))
      ensures r.Ok? ==> Files() == After(old(Files()), UpdateRecord(op, Change.FinishRollback(outcome))) && r.value == records[op]
      ensures r.Ok? <==>
        && op in old(records) && IsCurrent(old(Files()), old(records)[op].core)
        && old(records)[op].phase == RollbackFenced && (outcome == RollbackConverged || outcome == RollbackBlocked)
      ensures r.Ok? ==> records == old(records)[op := OperationRecord(old(records)[op].core, outcome, Completed, None)]
      ensures r.Err? ==> Files() == old(Files())
    {
      r := LockCurrent(op);
      if r.Err? {
        return;
      }
      var live := new LiveOperation(r.value);
      var changed := live.FinishRollback(outcome);
      if changed.Err? {
        return Err(changed.error);
      }
      r := PersistRecord(live.record);
    }

    // ----- connector claims -----

    /** `prepare_connector_claim`: finds the one claim that the parent can make for this connector, if there is one. */
    method PrepareConnectorClaim(parent: OperationIdentity, instance: Token) returns (r: Result<ClaimIdentity>)
      requires Valid()
      ensures r.Ok? <==>
        && ConnectorPredecessor(records, parent, instance).Ok?
        && PreparedClaim(parent, instance, ConnectorPredecessor(records, parent, instance).value).Ok?
      ensures r.Ok? ==> r == PreparedClaim(parent, instance, ConnectorPredecessor(records, parent, instance).value)
      ensures ValidIdentity(parent) ==> forall claim :: ClaimFor(records, parent, instance, claim) <==> r == Ok(claim)
    {
      var predecessor := ConnectorPredecessorForParent(parent, instance);
      if predecessor.Err? {
        return Err(predecessor.error);
      }
      return PreparedClaim(parent, instance, predecessor.value);
    }

    method ConnectorPredecessorForParent(parent: OperationIdentity, instance: Token) returns (r: Result<Option<Token>>)
      ensures r == ConnectorPredecessor(records, parent, instance)
    {
      if parent.predecessor.None? {
        return Ok(None);
      }
      var predecessor := Read(parent.predecessor.value);
      if predecessor.Err? {
        return Err(predecessor.error);
      }
      var bound := predecessor.value.core;
      if bound.target != parent.target || bound.binding.host != parent.binding.host {
        return Err(Conflict);
      }
      if Binds(bound, instance) {
        return Ok(parent.predecessor);
      }
      return Ok(None);
    }

    method ClaimConnector(claim: ClaimIdentity, proof: Host) returns (r: Result<ConnectorClaim>)
      requires Valid()
      modifies `connOwners, `claims
      ensures Valid()
      ensures r.Ok? <==> ConnectorAllowed(old(Files()), claim, proof) && !ForeignClaim(old(Files()), claim)
      ensures r.Ok? ==> Files() == ConnectorAfter(old(Files()), claim) && r.value == HeldClaim(old(Files()), claim)
      ensures r.Ok? ==>
        && connOwners == old(connOwners)[claim.instance :=
             ConnectorOwnership(claim.instance, claim.op, claim.predecessor, claim)]
        && claims == if ClaimKey(claim.instance, claim.op) in old(claims) then old(claims)
                     else old(claims)[ClaimKey(claim.instance, claim.op) := ConnectorClaim(claim, Prepared)]
      ensures r.Err? && !ConnectorAllowed(old(Files()), claim, proof) ==> Files() == old(Files())
      ensures r.Err? && ConnectorAllowed(old(Files()), claim, proof) ==>
        && claims == old(claims) && r.error == Conflict
        && connOwners == old(connOwners)[claim.instance := ConnectorOwnershipOf(claim)]
    {
      if claim.predecessor == Some(claim.op) {
        return Err(Contract);
      }
      var read := Read(claim.op);
      if read.Err? {
        return Err(read.error);
      }
      var parent := read.value.core;
      if proof != parent.binding.host || !MatchesParent(claim, parent) {
        return Err(Conflict);
      }
      var current := VerifyCurrentOwner(parent);
      if current.Err? {
        return Err(current.error);
      }
      var expected := ConnectorPredecessorForParent(parent, claim.instance);
      if expected.Err? {
        return Err(expected.error);
      }
      if claim.predecessor != expected.value {
        return Err(Conflict);
      }
      var published := PublishConnector(claim, parent);
      if published.Err? {
        return Err(published.error);
      }
      r := ConvergeConnectorClaim(claim);
      if r.Ok? && ClaimKey(claim.instance, claim.op) in old(claims) {
        assert old(claims)[ClaimKey(claim.instance, claim.op) := r.value] == old(claims);
      }
    }

    /** Moves the connector's owner pointer to this claim, unless it names it already. */
    method PublishConnector(claim: ClaimIdentity, parent: OperationIdentity) returns (r: Result<()>)
      requires Valid() && ClaimAdmitted(Files(), claim) && records[claim.op].core == parent
      modifies `connOwners
      ensures r.Ok? <==> ConnectorOpen(old(Files()), claim)
      ensures connOwners == if r.Ok? then old(connOwners)[claim.instance := ConnectorOwnershipOf(claim)] else old(connOwners)
    {
      var connectorOwner := ConnectorOwnershipOf(claim);
      var owner := ReadConnectorOwner(claim.instance);
      match owner {
        case Ok(current) =>
          if current.current == claim.op {
            if current != connectorOwner {
              return Err(Conflict);
            }
            assert connOwners[claim.instance := connectorOwner] == connOwners;
          } else {
            if current.instance != claim.instance {
              return Err(Conflict);
            }
            if claim.predecessor.Some? && claim.predecessor.value != current.current {
              return Err(Conflict);
            }
            var prior := ReadClaim(claim.instance, current.current);
            if prior.Err? {
              return Err(prior.error);
            }
            var priorParent := Read(prior.value.core.op);
            if priorParent.Err? {
              return Err(priorParent.error);
            }
            if
              || prior.value.core != current.identity
              || prior.value.core.target != parent.target
              || priorParent.value.core.binding.host != parent.binding.host
            {
              return Err(Conflict);
            }
            if !(prior.value.phase == Released && priorParent.value.phase in {Completed, RollbackConverged})
              && !(&& prior.value.phase == ClaimExpired && priorParent.value.phase == ExpiredUnclaimed
                   && parent.predecessor == Some(priorParent.value.core.op))
            {
              return Err(Conflict);
            }
            connOwners := connOwners[claim.instance := connectorOwner];
          }
        case Err(_) =>
          if claim.predecessor.Some? {
            return Err(Conflict);
          }
          connOwners := connOwners[claim.instance := connectorOwner];
      }
      return Ok(());
    }

    method ConvergeConnectorClaim(claim: ClaimIdentity) returns (r: Result<ConnectorClaim>)
      modifies `claims
      ensures r.Ok? <==> !ForeignClaim(old(Files()), claim)
      ensures r.Ok? ==> r.value == HeldClaim(old(Files()), claim)
      ensures r.Ok? ==> claims == old(claims)[ClaimKey(claim.instance, claim.op) := r.value]
      ensures r.Err? ==> claims == old(claims) && r.error == Conflict
    {
      var existing := ReadClaim(claim.instance, claim.op);
      if existing.Ok? {
        if existing.value.core != claim {
          return Err(Conflict);
        }
        assert claims[ClaimKey(claim.instance, claim.op) := existing.value] == claims;
        return existing;
      }
      claims := claims[ClaimKey(claim.instance, claim.op) := ConnectorClaim(claim, Prepared)];
      return Ok(ConnectorClaim(claim, Prepared));
    }

    method VerifyCurrentOwner(core: OperationIdentity) returns (r: Result<()>)
      ensures r.Ok? <==> IsCurrent(Files(), core)
    {
      var owner := ReadOwner(FenceOf(core));
      if owner.Err? {
        return Err(owner.error);
      }
      if owner.value.current != core.op || owner.value.identity != core {
        return Err(Conflict);
      }
      return Ok(());
    }

    /** The current owner of a connector and its claim, when that operation also owns its target. */
    method LockCurrentConnector(instance: Token) returns (r: Result<(ConnectorOwnership, ConnectorClaim)>)
      requires Valid()
      ensures r.Ok? <==> CurrentConnector(Files(), instance)
      ensures r.Ok? ==> r.value == (connOwners[instance], CurrentClaim(Files(), instance))
    {
      var owner := ReadConnectorOwner(instance);
      if owner.Err? {
        return Err(owner.error);
      }
      var claim := ReadClaim(instance, owner.value.current);
      if claim.Err? {
        return Err(claim.error);
      }
      var parent := Read(claim.value.core.op);
      if parent.Err? {
        return Err(parent.error);
      }
      var current := VerifyCurrentOwner(parent.value.core);
      if current.Err? {
        return Err(current.error);
      }
      if owner.value.instance != instance || claim.value.core != owner.value.identity || claim.value.core.op != parent.value.core.op {
        return Err(Conflict);
      }
      return Ok((owner.value, claim.value));
    }

    method PersistConnectorClaim(owner: ConnectorOwnership, claim: ConnectorClaim) returns (r: Result<ConnectorClaim>)
      modifies `claims
      ensures r == if claim.core == owner.identity then Ok(claim) else Err(Conflict)
      ensures claims == if r.Ok? then old(claims)[ClaimKey(claim.core.instance, claim.core.op) := claim] else old(claims)
    {
      if claim.core != owner.identity {
        return Err(Conflict);
      }
      claims := claims[ClaimKey(claim.core.instance, claim.core.op) := claim];
      return Ok(claim);
    }

    method ObserveConnectorHandoff(instance: Token) returns (r: Result<ConnectorClaim>)
      requires Valid()
      modifies `claims
      ensures Valid()
      ensures r.Ok? <==> Enabled(old(Files()), UpdateClaim(instance, Observe)) || ChangeRecorded(old(Files()), instance, Observe)
      ensures Files() == if Enabled(old(Files()), UpdateClaim(instance, Observe))
        then After(old(Files()), UpdateClaim(instance, Observe)) else old(Files())
      ensures r.Ok? ==> ChangeRecorded(Files(), instance, Observe) && r.value == CurrentClaim(Files(), instance)
      ensures CurrentConnector(old(Files()), instance) ==>
        var was := CurrentClaim(old(Files()), instance);
        && (was.phase == Prepared ==>
              && r == Ok(ConnectorClaim(was.core, HandoffObserved))
              && claims == old(claims)[ClaimKey(instance, connOwners[instance].current) := r.value])
        && (was.phase == HandoffObserved ==> r == Ok(was) && claims == old(claims))
        && (was.phase != Prepared && was.phase != HandoffObserved ==> r == Err(Contract) && claims == old(claims))
      ensures !CurrentConnector(old(Files()), instance) ==> r.Err? && claims == old(claims)
    {
      var locked := LockCurrentConnector(instance);
      if locked.Err? {
        return Err(locked.error);
      }
      var owner, claim := locked.value.0, locked.value.1;
      if claim.phase == HandoffObserved {
        return Ok(claim);
      }
      if claim.phase != Prepared {
        return Err(Contract);
      }
      r := PersistConnectorClaim(owner, claim.(phase := HandoffObserved));
    }

    method ReleaseConnectorClaim(instance: Token) returns (r: Result<ConnectorClaim>)
      requires Valid()
      modifies `claims
      ensures Valid()
      ensures r.Ok? <==> Enabled(old(Files()), UpdateClaim(instance, Release)) || ChangeRecorded(old(Files()), instance, Release)
      ensures Files() == if Enabled(old(Files()), UpdateClaim(instance, Release))
        then After(old(Files()), UpdateClaim(instance, Release)) else old(Files())
      ensures r.Ok? ==> ChangeRecorded(Files(), instance, Release) && r.value == CurrentClaim(Files(), instance)
      ensures CurrentConnector(old(Files()), instance) ==>
        var was := CurrentClaim(old(Files()), instance);
        && (was.phase == HandoffObserved ==>
              && r == Ok(ConnectorClaim(was.core, Released))
              && claims == old(claims)[ClaimKey(instance, connOwners[instance].current) := r.value])
        && (was.phase == Released ==> r == Ok(was) && claims == old(claims))
        && (was.phase != HandoffObserved && was.phase != Released ==> r == Err(Contract) && claims == old(claims))
      ensures !CurrentConnector(old(Files()), instance) ==> r.Err? && claims == old(claims)
    {
      var locked := LockCurrentConnector(instance);
      if locked.Err? {
        return Err(locked.error);
      }
      var owner, claim := locked.value.0, locked.value.1;
      if claim.phase == Released {
        return Ok(claim);
      }
      if claim.phase != HandoffObserved {
        return Err(Contract);
      }
      r := PersistConnectorClaim(owner, claim.(phase := Released));
    }

    method ExpireUnclaimedConnectorClaim(instance: Token) returns (r: Result<ConnectorClaim>)
      requires Valid()
      modifies `claims
      ensures Valid()
      ensures r.Ok? <==> Enabled(old(Files()), UpdateClaim(instance, ExpireClaim)) || ChangeRecorded(old(Files()), instance, ExpireClaim)
      ensures Files() == if Enabled(old(Files()), UpdateClaim(instance, ExpireClaim))
        then After(old(Files()), UpdateClaim(instance, ExpireClaim)) else old(Files())
      ensures r.Ok? ==> ChangeRecorded(Files(), instance, ExpireClaim) && r.value == CurrentClaim(Files(), instance)
      ensures CurrentConnector(old(Files()), instance) ==>
        var was := CurrentClaim(old(Files()), instance);
        && (was.phase == Prepared ==>
              && r == Ok(ConnectorClaim(was.core, ClaimExpired))
              && claims == old(claims)[ClaimKey(instance, connOwners[instance].current) := r.value])
        && (was.phase == ClaimExpired ==> r == Ok(was) && claims == old(claims))
        && (was.phase != Prepared && was.phase != ClaimExpired ==> r == Err(Contract) && claims == old(claims))
      ensures !CurrentConnector(old(Files()), instance) ==> r.Err? && claims == old(claims)
    {
      var locked := LockCurrentConnector(instance);
      if locked.Err? {
        return Err(locked.error);
      }
      var owner, claim := locked.value.0, locked.value.1;
      if claim.phase == ClaimExpired {
        return Ok(claim);
      }
      if claim.phase != Prepared {
        return Err(Contract);
      }
      r := PersistConnectorClaim(owner, claim.(phase := ClaimExpired));
    }
  }
}
