/** What a validated manifest leads to: one planned operation per target, and the offline plan.
 */
module Planning {
  import opened Domain
  import opened Records
  import opened Sorting
  import opened Manifests

  // ----- operations -----

  function BoundOf(b: Binding): BoundConnector {
    BoundConnector(b.instance, b.adapter, b.handoff)
  }

  function BoundAll(bindings: seq<Binding>): (bound: seq<BoundConnector>)
    ensures |bound| == |bindings|
    ensures forall k :: 0 <= k < |bindings| ==> bound[k] == BoundOf(bindings[k])
  {
    seq(|bindings|, k requires 0 <= k < |bindings| => BoundOf(bindings[k]))
  }

  /** `binding_from_manifest`. */
  function BindingOf(m: Manifest, t: Target): OperationBinding {
    match t
    case NodeTarget(id, origin, services, host) =>
      OperationBinding(id, host, m.server, NodeWorkload(origin, m.server.digest, Sorted(services, RANK)))
    case ConnectorTarget(id, host, connectors) =>
      OperationBinding(id, host, m.connector, ConnectorHost(m.connector.digest, Sorted(BoundAll(connectors), BOUND_INSTANCE)))
  }

  function FindTarget(targets: seq<Target>, id: Token): (r: Option<Target>)
    ensures r.Some? ==> r.value in targets && r.value.id == id
    ensures r.None? ==> forall t :: t in targets ==> t.id != id
  {
    if targets == [] then None
    else if targets[0].id == id then Some(targets[0])
    else FindTarget(targets[1..], id)
  }

  /** `OperationRecord::planned`, which validates the record it built. */
  function Planned(m: Manifest, target: Token, op: Token, predecessor: Option<Token>): Result<OperationRecord> {
    if predecessor == Some(op) then Err(Contract)
    else
      var found := FindTarget(m.targets, target);
      if found.None? then Err(Contract)
      else
        var binding := BindingOf(m, found.value);
        var record := Initial(OperationIdentity(op, m.digest, binding.artifact, binding, target, predecessor));
        if ValidRecord(record) then Ok(record) else Err(Contract)
  }

  /** What an operation on this target binds, in the manifest's own fields. */
  ghost predicate BindsTarget(m: Manifest, t: Target, b: OperationBinding) {
    && b.target == t.id && b.host == t.host
    && match t
       case NodeTarget(_, origin, services, _) =>
         && b.artifact == m.server && b.workload.NodeWorkload?
         && b.workload.origin == origin && b.workload.serverDigest == m.server.digest
         && multiset(b.workload.services) == multiset(services)
         && (forall i, j :: 0 <= i < j < |b.workload.services| ==> ComesBefore(b.workload.services[i], b.workload.services[j]))
       case ConnectorTarget(_, _, connectors) =>
         && b.artifact == m.connector && b.workload.ConnectorHost? && b.workload.connectorDigest == m.connector.digest
         && (forall c :: c in b.workload.connectors <==> Lists(connectors, c))
         && ConnectorsAscend(b.workload.connectors)
  }

  /** The target lists the connector with this adapter and handoff. */
  ghost predicate Lists(connectors: seq<Binding>, c: BoundConnector) {
    exists l :: l in connectors && l.instance == c.instance && l.adapter == c.adapter && l.handoff == c.handoff
  }

  /** `record_matches_manifest`: the record is of this manifest, succeeds another operation if any, and binds the target
   *  of its name. */
  ghost predicate MatchesManifest(m: Manifest, record: OperationRecord) {
    var core := record.core;
    && ValidManifest(m) && core.predecessor != Some(core.op)
    && core.manifest == m.digest && core.artifact == core.binding.artifact
    && exists t :: t in m.targets && t.id == core.target && BindsTarget(m, t, core.binding)
  }

  lemma BoundDiffer(bindings: seq<Binding>)
    requires KeysDiffer(bindings, INSTANCE)
    ensures KeysDiffer(BoundAll(bindings), BOUND_INSTANCE)
  {
    forall a, b | 0 <= a < b < |bindings| ensures BOUND_INSTANCE(BoundAll(bindings)[a]) != BOUND_INSTANCE(BoundAll(bindings)[b]) {
      assert INSTANCE(bindings[a]) != INSTANCE(bindings[b]);
    }
  }

  lemma SortedSize<T>(xs: seq<T>, key: T -> nat)
    ensures |Sorted(xs, key)| == |xs|
    ensures forall x :: x in xs ==> x in Sorted(xs, key)
  {
    SortedKeeps(xs, key);
    assert |Sorted(xs, key)| == |multiset(Sorted(xs, key))| == |xs|;
    forall x | x in xs ensures x in Sorted(xs, key) {
      assert x in multiset(xs);
      assert x in multiset(Sorted(xs, key));
    }
  }

  /** Sorting the duplicate-free services or connectors of a target gives the strict order a valid record demands. */
  lemma BindingIsValid(m: Manifest, t: Target)
    requires TargetOk(m.schema, t)
    ensures ValidWorkload(BindingOf(m, t).workload, BindingOf(m, t).artifact)
  {
    match t
    case NodeTarget(_, _, services, _) =>
      ServicesDiffer(services);
      SortedStrictly(services, RANK);
      SortedSize(services, RANK);
      var sorted := Sorted(services, RANK);
      forall a, b | 0 <= a < b < |sorted| ensures ServiceRank(sorted[a]) < ServiceRank(sorted[b]) {
        assert RANK(sorted[a]) < RANK(sorted[b]);
      }
    case ConnectorTarget(_, _, connectors) =>
      InstancesDiffer(connectors);
      BoundDiffer(connectors);
      SortedStrictly(BoundAll(connectors), BOUND_INSTANCE);
      SortedSize(BoundAll(connectors), BOUND_INSTANCE);
      var sorted := Sorted(BoundAll(connectors), BOUND_INSTANCE);
      forall a, b | 0 <= a < b < |sorted| ensures sorted[a].instance < sorted[b].instance {
        assert BOUND_INSTANCE(sorted[a]) < BOUND_INSTANCE(sorted[b]);
      }
  }

  lemma FoundOk(m: Manifest, t: Target)
    requires ValidManifest(m) && t in m.targets
    ensures TargetOk(m.schema, t)
  {
    var k :| 0 <= k < |m.targets| && m.targets[k] == t;
  }

  /** The binding that is computed is the one that the manifest's fields describe, and the only one. */
  lemma BindingIsTarget(m: Manifest, t: Target, b: OperationBinding)
    requires TargetOk(m.schema, t)
    ensures BindsTarget(m, t, b) <==> b == BindingOf(m, t)
  {
    BindingFits(m, t);
    if BindsTarget(m, t, b) {
      match t
      case NodeTarget(_, _, services, _) =>
        InOrderAscends(b.workload.services);
        InOrderAscends(BindingOf(m, t).workload.services);
        StrictlyDetermined(b.workload.services, BindingOf(m, t).workload.services, RANK);
      case ConnectorTarget(_, _, connectors) =>
        BoundAscend(b.workload.connectors);
        BoundAscend(BindingOf(m, t).workload.connectors);
        StrictlyDeterminedByMembers(b.workload.connectors, BindingOf(m, t).workload.connectors, BOUND_INSTANCE);
    }
  }

  lemma BindingFits(m: Manifest, t: Target)
    requires TargetOk(m.schema, t)
    ensures BindsTarget(m, t, BindingOf(m, t))
  {
    BindingIsValid(m, t);
    match t
    case NodeTarget(_, _, services, _) =>
      SortedKeeps(services, RANK);
      InOrderAscends(Sorted(services, RANK));
    case ConnectorTarget(_, _, connectors) =>
      SortedKeeps(BoundAll(connectors), BOUND_INSTANCE);
      var sorted := Sorted(BoundAll(connectors), BOUND_INSTANCE);
      forall c ensures c in sorted <==> Lists(connectors, c) {
        assert c in sorted <==> c in multiset(sorted) <==> c in multiset(BoundAll(connectors)) <==> c in BoundAll(connectors);
        BoundLists(connectors, c);
      }
  }

  lemma BoundLists(connectors: seq<Binding>, c: BoundConnector)
    ensures c in BoundAll(connectors) <==> Lists(connectors, c)
  {
    var bound := BoundAll(connectors);
    if c in bound {
      var k :| 0 <= k < |bound| && bound[k] == c;
      assert connectors[k] in connectors;
    }
    if l :| l in connectors && l.instance == c.instance && l.adapter == c.adapter && l.handoff == c.handoff {
      var k :| 0 <= k < |connectors| && connectors[k] == l;
      assert bound[k] == c;
    }
  }

  lemma InOrderAscends(services: seq<NodeService>)
    ensures StrictlyAscending(services, RANK) <==>
      forall i, j :: 0 <= i < j < |services| ==> ComesBefore(services[i], services[j])
    ensures StrictlyAscending(services, RANK) <==> ServicesAscend(services)
  {
    forall i, j | 0 <= i < j < |services|
      ensures RANK(services[i]) < RANK(services[j]) <==> ComesBefore(services[i], services[j])
      ensures RANK(services[i]) < RANK(services[j]) <==> ServiceRank(services[i]) < ServiceRank(services[j])
    {
      RanksInOrder(services[i], services[j]);
    }
  }

  lemma BoundAscend(connectors: seq<BoundConnector>)
    ensures StrictlyAscending(connectors, BOUND_INSTANCE) <==> ConnectorsAscend(connectors)
  {
    forall i, j | 0 <= i < j < |connectors|
      ensures BOUND_INSTANCE(connectors[i]) < BOUND_INSTANCE(connectors[j]) <==> connectors[i].instance < connectors[j].instance
    {
    }
  }

  /** A validated manifest plans an operation for exactly the targets it names, as long as the operation is not its own
   *  predecessor; what it plans is a valid record in its initial state. */
  lemma PlannedIsAccepted(m: Manifest, target: Token, op: Token, predecessor: Option<Token>)
    requires ValidManifest(m)
    ensures Planned(m, target, op, predecessor).Ok? <==>
      predecessor != Some(op) && exists t :: t in m.targets && t.id == target
    ensures Planned(m, target, op, predecessor).Ok? ==>
      var record := Planned(m, target, op, predecessor).value;
      && ValidRecord(record) && record == Initial(record.core)
      && record.core.op == op && record.core.target == target && record.core.predecessor == predecessor
  {
    var found := FindTarget(m.targets, target);
    if found.Some? {
      FoundOk(m, found.value);
      BindingIsValid(m, found.value);
      hide ValidWorkload, ValidManifest, BindingOf;
      BindingNames(m, found.value);
    }
  }

  lemma BindingNames(m: Manifest, t: Target)
    ensures BindingOf(m, t).target == t.id
  {
  }

  /** The operation that is planned binds what the manifest's fields say, and a record is of the manifest exactly when it
   *  has the identity planned for it. */
  lemma PlannedIsMatched(m: Manifest, record: OperationRecord)
    requires ValidManifest(m)
    ensures var planned := Planned(m, record.core.target, record.core.op, record.core.predecessor);
      MatchesManifest(m, record) <==> planned.Ok? && planned.value.core == record.core
  {
    var core := record.core;
    PlannedIsAccepted(m, core.target, core.op, core.predecessor);
    var found := FindTarget(m.targets, core.target);
    if found.Some? {
      FoundOk(m, found.value);
      BindingIsTarget(m, found.value, core.binding);
      forall t | t in m.targets && t.id == core.target ensures t == found.value {
        OneOfName(m, t, found.value);
      }
    }
  }

  lemma OneOfName(m: Manifest, t: Target, u: Target)
    requires ValidManifest(m) && t in m.targets && u in m.targets && t.id == u.id
    ensures t == u
  {
    var j :| 0 <= j < |m.targets| && m.targets[j] == t;
    var k :| 0 <= k < |m.targets| && m.targets[k] == u;
    if j < k {
      IdsDiffer(m, k);
    } else if k < j {
      IdsDiffer(m, j);
    }
  }

  /** An identity is valid exactly when some valid manifest plans it. */
  lemma ValidIffPlanned(core: OperationIdentity)
    ensures ValidIdentity(core) <==> exists m :: MatchesManifest(m, Initial(core))
  {
    if ValidIdentity(core) {
      var m := ManifestFor(core);
      assert MatchesManifest(m, Initial(core));
    }
    if m :| MatchesManifest(m, Initial(core)) {
      PlannedIsMatched(m, Initial(core));
      PlannedIsAccepted(m, core.target, core.op, core.predecessor);
    }
  }

  function Unbound(connectors: seq<BoundConnector>): (listed: seq<Binding>)
    ensures |listed| == |connectors|
    ensures forall k :: 0 <= k < |connectors| ==>
      listed[k] == Binding(connectors[k].instance, connectors[k].adapter, connectors[k].handoff, None)
  {
    seq(|connectors|, k requires 0 <= k < |connectors| =>
          Binding(connectors[k].instance, connectors[k].adapter, connectors[k].handoff, None))
  }

  /** The manifest that lists the one target which the identity binds. */
  lemma ManifestFor(core: OperationIdentity) returns (m: Manifest)
    requires ValidIdentity(core)
    ensures MatchesManifest(m, Initial(core))
  {
    var b := core.binding;
    match b.workload
    case NodeWorkload(origin, _, services) =>
      var t := NodeTarget(b.target, origin, services, b.host);
      m := Manifest(1, b.artifact, b.artifact, [t], core.manifest);
      InOrderAscends(services);
      assert t in m.targets && BindsTarget(m, t, b);
    case ConnectorHost(_, connectors) =>
      var t := ConnectorTarget(b.target, b.host, Unbound(connectors));
      m := Manifest(1, b.artifact, b.artifact, [t], core.manifest);
      forall c ensures c in connectors <==> Lists(t.connectors, c) {
        UnboundLists(connectors, c);
      }
      assert t in m.targets && BindsTarget(m, t, b);
  }

  lemma UnboundLists(connectors: seq<BoundConnector>, c: BoundConnector)
    ensures c in connectors <==> Lists(Unbound(connectors), c)
  {
    var listed := Unbound(connectors);
    if c in connectors {
      var k :| 0 <= k < |connectors| && connectors[k] == c;
      assert listed[k] in listed;
    }
    if l :| l in listed && l.instance == c.instance && l.adapter == c.adapter && l.handoff == c.handoff {
      var k :| 0 <= k < |listed| && listed[k] == l;
      assert connectors[k] == c;
    }
  }

  // ----- the offline plan -----

  datatype Action =
    | InspectHostBinding | ClaimOperation | VerifyArtifact | StageArtifact | PrepareMaterial | WriteConfig | PrepareUnit
    | ForwardMigration | ConvergeService | Readback | VerifyReadiness | WriteReceipt | RecordConnectorClaim

  datatype Subject = ForTarget(id: Token) | ForService(id: Token, service: NodeService)
    | ForConnector(id: Token, instance: Token, adapter: AdapterKind)

  datatype PlannedStep = PlannedStep(action: Action, subject: Subject)

  const NODE_BEGIN := [InspectHostBinding, ClaimOperation, VerifyArtifact, StageArtifact, ForwardMigration]
  const SERVICE_ACTIONS := [PrepareMaterial, WriteConfig, PrepareUnit, ConvergeService, Readback, VerifyReadiness]
  const CONNECTOR_BEGIN := [InspectHostBinding, ClaimOperation, VerifyArtifact, StageArtifact]
  const CONNECTOR_ACTIONS := [RecordConnectorClaim] + SERVICE_ACTIONS

  function StepsFor(actions: seq<Action>, subject: Subject): seq<PlannedStep> {
    seq(|actions|, k requires 0 <= k < |actions| => PlannedStep(actions[k], subject))
  }

  function ServiceSteps(id: Token, services: seq<NodeService>): seq<PlannedStep> {
    if services == [] then []
    else ServiceSteps(id, services[..|services| - 1]) + StepsFor(SERVICE_ACTIONS, ForService(id, services[|services| - 1]))
  }

  function ConnectorSteps(id: Token, connectors: seq<Binding>): seq<PlannedStep> {
    if connectors == [] then []
    else
      var last := connectors[|connectors| - 1];
      ConnectorSteps(id, connectors[..|connectors| - 1]) + StepsFor(CONNECTOR_ACTIONS, ForConnector(id, last.instance, last.adapter))
  }

  /** The plan of one target: the target's own steps around those of its services or connectors in canonical order. */
  function TargetSteps(t: Target): seq<PlannedStep> {
    match t
    case NodeTarget(id, _, services, _) =>
      StepsFor(NODE_BEGIN, ForTarget(id)) + ServiceSteps(id, Sorted(services, RANK)) + [PlannedStep(WriteReceipt, ForTarget(id))]
    case ConnectorTarget(id, _, connectors) =>
      StepsFor(CONNECTOR_BEGIN, ForTarget(id)) + ConnectorSteps(id, Sorted(connectors, INSTANCE))
      + [PlannedStep(WriteReceipt, ForTarget(id))]
  }

  // ----- where each step stands -----

  lemma {:induction false} ServiceStepAt(id: Token, services: seq<NodeService>, k: nat, j: nat)
    requires k < |services| && j < 6
    ensures |ServiceSteps(id, services)| == 6 * |services|
    ensures ServiceSteps(id, services)[6 * k + j] == PlannedStep(SERVICE_ACTIONS[j], ForService(id, services[k]))
    decreases |services|
  {
    var init := services[..|services| - 1];
    if init != [] {
      ServiceStepAt(id, init, if k < |init| then k else 0, j);
    } else {
      assert ServiceSteps(id, init) == [];
    }
  }

  lemma {:induction false} ConnectorStepAt(id: Token, connectors: seq<Binding>, k: nat, j: nat)
    requires k < |connectors| && j < 7
    ensures |ConnectorSteps(id, connectors)| == 7 * |connectors|
    ensures ConnectorSteps(id, connectors)[7 * k + j]
         == PlannedStep(CONNECTOR_ACTIONS[j], ForConnector(id, connectors[k].instance, connectors[k].adapter))
    decreases |connectors|
  {
    var init := connectors[..|connectors| - 1];
    if init != [] {
      ConnectorStepAt(id, init, if k < |init| then k else 0, j);
    } else {
      assert ConnectorSteps(id, init) == [];
    }
  }

  /** The six steps that bring up one service or connector stand here, in order. */
  predicate BringsUp(steps: seq<PlannedStep>, at: nat, subject: Subject) {
    && at + 6 <= |steps|
    && steps[at] == PlannedStep(PrepareMaterial, subject)
    && steps[at + 1] == PlannedStep(WriteConfig, subject)
    && steps[at + 2] == PlannedStep(PrepareUnit, subject)
    && steps[at + 3] == PlannedStep(ConvergeService, subject)
    && steps[at + 4] == PlannedStep(Readback, subject)
    && steps[at + 5] == PlannedStep(VerifyReadiness, subject)
  }

  lemma ServiceBroughtUp(id: Token, services: seq<NodeService>, k: nat)
    requires k < |services|
    ensures |ServiceSteps(id, services)| == 6 * |services|
    ensures BringsUp(ServiceSteps(id, services), 6 * k, ForService(id, services[k]))
  {
    hide ServiceSteps;
    ServiceStepAt(id, services, k, 0);
    ServiceStepAt(id, services, k, 1);
    ServiceStepAt(id, services, k, 2);
    ServiceStepAt(id, services, k, 3);
    ServiceStepAt(id, services, k, 4);
    ServiceStepAt(id, services, k, 5);
  }

  lemma ConnectorBroughtUp(id: Token, connectors: seq<Binding>, k: nat)
    requires k < |connectors|
    ensures |ConnectorSteps(id, connectors)| == 7 * |connectors|
    ensures var subject := ForConnector(id, connectors[k].instance, connectors[k].adapter);
      && ConnectorSteps(id, connectors)[7 * k] == PlannedStep(RecordConnectorClaim, subject)
      && BringsUp(ConnectorSteps(id, connectors), 7 * k + 1, subject)
  {
    hide ConnectorSteps;
    ConnectorStepAt(id, connectors, k, 0);
    ConnectorStepAt(id, connectors, k, 1);
    ConnectorStepAt(id, connectors, k, 2);
    ConnectorStepAt(id, connectors, k, 3);
    ConnectorStepAt(id, connectors, k, 4);
    ConnectorStepAt(id, connectors, k, 5);
    ConnectorStepAt(id, connectors, k, 6);
  }

  /** Steps brought up somewhere are brought up where they stand behind others. */
  lemma BringsUpBehind(before: seq<PlannedStep>, steps: seq<PlannedStep>, rest: seq<PlannedStep>, at: nat, subject: Subject)
    requires BringsUp(steps, at, subject)
    ensures BringsUp(before + steps + rest, |before| + at, subject)
  {
  }

  /** Position by position: a node's plan inspects, claims, verifies, stages and migrates, then takes the services in the
   *  order in which they are brought up, six steps each, and ends with the receipt. */
  lemma NodePlanLayout(schema: nat, t: Target) returns (services: seq<NodeService>)
    requires t.NodeTarget? && TargetOk(schema, t)
    ensures multiset(services) == multiset(t.services)
    ensures forall a, b :: 0 <= a < b < |services| ==> ComesBefore(services[a], services[b])
    ensures var steps := TargetSteps(t); var whole := ForTarget(t.id);
      && |steps| == 6 + 6 * |services|
      && steps[..5] == [PlannedStep(InspectHostBinding, whole), PlannedStep(ClaimOperation, whole),
                        PlannedStep(VerifyArtifact, whole), PlannedStep(StageArtifact, whole),
                        PlannedStep(ForwardMigration, whole)]
      && (forall k :: 0 <= k < |services| ==> BringsUp(steps, 5 + 6 * k, ForService(t.id, services[k])))
      && steps[|steps| - 1] == PlannedStep(WriteReceipt, whole)
  {
    services := Sorted(t.services, RANK);
    InServiceOrder(schema, t);
    ServiceBroughtUp(t.id, services, 0);
    NodePlanEnds(t);
    TargetStepsOf(t);
    hide BringsUp, ServiceSteps, Sorted, ComesBefore, TargetOk, TargetSteps;
    forall k | 0 <= k < |services| ensures BringsUp(TargetSteps(t), 5 + 6 * k, ForService(t.id, services[k])) {
      ServiceBroughtUp(t.id, services, k);
      BringsUpBehind(StepsFor(NODE_BEGIN, ForTarget(t.id)), ServiceSteps(t.id, services),
                     [PlannedStep(WriteReceipt, ForTarget(t.id))], 6 * k, ForService(t.id, services[k]));
    }
  }

  lemma InServiceOrder(schema: nat, t: Target)
    requires t.NodeTarget? && TargetOk(schema, t)
    ensures var services := Sorted(t.services, RANK);
      && services != [] && multiset(services) == multiset(t.services)
      && forall a, b :: 0 <= a < b < |services| ==> ComesBefore(services[a], services[b])
  {
    SortedKeeps(t.services, RANK);
    ServicesDiffer(t.services);
    SortedStrictly(t.services, RANK);
    InOrderAscends(Sorted(t.services, RANK));
    SortedSize(t.services, RANK);
  }

  /** A connector host's plan inspects, claims, verifies and stages, then takes the connectors in instance order, seven
   *  steps each beginning with the claim of the connector, and ends with the receipt. */
  lemma ConnectorPlanLayout(schema: nat, t: Target) returns (connectors: seq<Binding>)
    requires t.ConnectorTarget? && TargetOk(schema, t)
    ensures multiset(connectors) == multiset(t.connectors)
    ensures forall a, b :: 0 <= a < b < |connectors| ==> connectors[a].instance < connectors[b].instance
    ensures var steps := TargetSteps(t); var whole := ForTarget(t.id);
      && |steps| == 5 + 7 * |connectors|
      && steps[..4] == [PlannedStep(InspectHostBinding, whole), PlannedStep(ClaimOperation, whole),
                        PlannedStep(VerifyArtifact, whole), PlannedStep(StageArtifact, whole)]
      && (forall k :: 0 <= k < |connectors| ==> Connects(steps, 4 + 7 * k, t.id, connectors[k]))
      && steps[|steps| - 1] == PlannedStep(WriteReceipt, whole)
  {
    connectors := Sorted(t.connectors, INSTANCE);
    InInstanceOrder(schema, t);
    ConnectorBroughtUp(t.id, connectors, 0);
    ConnectorPlanEnds(t);
    TargetStepsOf(t);
    hide BringsUp, ConnectorSteps, Sorted, Connects, TargetOk, TargetSteps;
    forall k | 0 <= k < |connectors| ensures Connects(TargetSteps(t), 4 + 7 * k, t.id, connectors[k]) {
      ConnectsAt(StepsFor(CONNECTOR_BEGIN, ForTarget(t.id)), t.id, connectors, k, [PlannedStep(WriteReceipt, ForTarget(t.id))]);
    }
  }

  lemma TargetStepsOf(t: Target)
    ensures TargetSteps(t) ==
      if t.NodeTarget? then
        StepsFor(NODE_BEGIN, ForTarget(t.id)) + ServiceSteps(t.id, Sorted(t.services, RANK))
        + [PlannedStep(WriteReceipt, ForTarget(t.id))]
      else
        StepsFor(CONNECTOR_BEGIN, ForTarget(t.id)) + ConnectorSteps(t.id, Sorted(t.connectors, INSTANCE))
        + [PlannedStep(WriteReceipt, ForTarget(t.id))]
  {
  }

  lemma NodePlanEnds(t: Target)
    requires t.NodeTarget?
    ensures var steps := TargetSteps(t); var whole := ForTarget(t.id);
      && |steps| == 6 + |ServiceSteps(t.id, Sorted(t.services, RANK))|
      && steps[..5] == [PlannedStep(InspectHostBinding, whole), PlannedStep(ClaimOperation, whole),
                        PlannedStep(VerifyArtifact, whole), PlannedStep(StageArtifact, whole),
                        PlannedStep(ForwardMigration, whole)]
      && steps[|steps| - 1] == PlannedStep(WriteReceipt, whole)
  {
    hide ServiceSteps, Sorted;
  }

  lemma ConnectorPlanEnds(t: Target)
    requires t.ConnectorTarget?
    ensures var steps := TargetSteps(t); var whole := ForTarget(t.id);
      && |steps| == 5 + |ConnectorSteps(t.id, Sorted(t.connectors, INSTANCE))|
      && steps[..4] == [PlannedStep(InspectHostBinding, whole), PlannedStep(ClaimOperation, whole),
                        PlannedStep(VerifyArtifact, whole), PlannedStep(StageArtifact, whole)]
      && steps[|steps| - 1] == PlannedStep(WriteReceipt, whole)
  {
    hide ConnectorSteps, Sorted;
  }

  lemma InInstanceOrder(schema: nat, t: Target)
    requires t.ConnectorTarget? && TargetOk(schema, t)
    ensures var connectors := Sorted(t.connectors, INSTANCE);
      && connectors != [] && multiset(connectors) == multiset(t.connectors)
      && forall a, b :: 0 <= a < b < |connectors| ==> connectors[a].instance < connectors[b].instance
  {
    var connectors := Sorted(t.connectors, INSTANCE);
    SortedKeeps(t.connectors, INSTANCE);
    InstancesDiffer(t.connectors);
    SortedStrictly(t.connectors, INSTANCE);
    SortedSize(t.connectors, INSTANCE);
    forall a, b | 0 <= a < b < |connectors| ensures connectors[a].instance < connectors[b].instance {
      assert INSTANCE(connectors[a]) < INSTANCE(connectors[b]);
    }
  }

  lemma ConnectsAt(begin: seq<PlannedStep>, id: Token, connectors: seq<Binding>, k: nat, rest: seq<PlannedStep>)
    requires k < |connectors|
    ensures Connects(begin + ConnectorSteps(id, connectors) + rest, |begin| + 7 * k, id, connectors[k])
  {
    ConnectorBroughtUp(id, connectors, k);
    hide BringsUp, ConnectorSteps;
    var subject := ForConnector(id, connectors[k].instance, connectors[k].adapter);
    BringsUpBehind(begin, ConnectorSteps(id, connectors), rest, 7 * k + 1, subject);
  }

  /** The seven steps of one connector stand here: its claim is recorded, and then it is brought up. */
  predicate Connects(steps: seq<PlannedStep>, at: nat, id: Token, c: Binding) {
    var subject := ForConnector(id, c.instance, c.adapter);
    at < |steps| && steps[at] == PlannedStep(RecordConnectorClaim, subject) && BringsUp(steps, at + 1, subject)
  }

  method PushAll(steps: seq<PlannedStep>, actions: seq<Action>, subject: Subject) returns (r: seq<PlannedStep>)
    ensures r == steps + StepsFor(actions, subject)
  {
    r := steps;
    for k := 0 to |actions|
      invariant r == steps + StepsFor(actions[..k], subject)
    {
      assert StepsFor(actions[..k + 1], subject) == StepsFor(actions[..k], subject) + [PlannedStep(actions[k], subject)];
      r := r + [PlannedStep(actions[k], subject)];
    }
    assert actions[..|actions|] == actions;
  }

  /** `DeploymentPlan::create`: a list of steps per target. */
  method CreatePlan(m: Manifest) returns (actions: map<Token, seq<PlannedStep>>)
    requires ValidManifest(m)
    ensures forall id :: id in actions <==> exists t :: t in m.targets && t.id == id
    ensures forall t :: t in m.targets ==> t.id in actions && actions[t.id] == TargetSteps(t)
  {
    hide ValidManifest, TargetSteps;
    actions := map[];
    for k := 0 to |m.targets|
      invariant forall id :: id in actions ==> exists j :: 0 <= j < k && m.targets[j].id == id
      invariant forall j :: 0 <= j < k ==> m.targets[j].id in actions && actions[m.targets[j].id] == TargetSteps(m.targets[j])
    {
      var t := m.targets[k];
      var steps := CreateSteps(t);
      IdsDiffer(m, k);
      actions := actions[t.id := steps];
    }
    forall t | t in m.targets ensures t.id in actions && actions[t.id] == TargetSteps(t) {
      var j :| 0 <= j < |m.targets| && m.targets[j] == t;
    }
  }

  lemma IdsDiffer(m: Manifest, k: nat)
    requires ValidManifest(m) && k < |m.targets|
    ensures forall j :: 0 <= j < k ==> m.targets[j].id != m.targets[k].id
  {
    forall j | 0 <= j < k ensures m.targets[j].id != m.targets[k].id {
      assert Apart(m.targets[j], m.targets[k]);
    }
  }

  method CreateSteps(t: Target) returns (steps: seq<PlannedStep>)
    ensures steps == TargetSteps(t)
  {
    match t {
      case NodeTarget(id, _, services, _) =>
        steps := PushAll([], NODE_BEGIN, ForTarget(id));
        var ordered := Sorted(services, RANK);
        ghost var begin := steps;
        for k := 0 to |ordered|
          invariant steps == begin + ServiceSteps(id, ordered[..k])
        {
          assert ordered[..k + 1][..k] == ordered[..k];
          steps := PushAll(steps, SERVICE_ACTIONS, ForService(id, ordered[k]));
        }
        assert ordered[..|ordered|] == ordered;
        steps := steps + [PlannedStep(WriteReceipt, ForTarget(id))];
      case ConnectorTarget(id, _, connectors) =>
        steps := PushAll([], CONNECTOR_BEGIN, ForTarget(id));
        var ordered := Sorted(connectors, INSTANCE);
        ghost var begin := steps;
        for k := 0 to |ordered|
          invariant steps == begin + ConnectorSteps(id, ordered[..k])
        {
          assert ordered[..k + 1][..k] == ordered[..k];
          steps := PushAll(steps, CONNECTOR_ACTIONS, ForConnector(id, ordered[k].instance, ordered[k].adapter));
        }
        assert ordered[..|ordered|] == ordered;
        steps := steps + [PlannedStep(WriteReceipt, ForTarget(id))];
    }
  }

  // ----- the order in the manifest does not matter -----

  /** The same target, with its services or connectors listed in another order. */
  ghost predicate Permuted(t: Target, u: Target) {
    match (t, u)
    case (NodeTarget(i, o, s, h), NodeTarget(j, p, r, g)) => i == j && o == p && h == g && multiset(s) == multiset(r)
    case (ConnectorTarget(i, h, c), ConnectorTarget(j, g, d)) => i == j && h == g && multiset(c) == multiset(d)
    case _ => false
  }

  lemma {:induction false} InsertBound(x: Binding, xs: seq<Binding>)
    ensures Insert(BoundOf(x), BoundAll(xs), BOUND_INSTANCE) == BoundAll(Insert(x, xs, INSTANCE))
    decreases |xs|
  {
    if xs == [] || INSTANCE(x) < INSTANCE(xs[0]) {
      assert BoundAll([x] + xs) == [BoundOf(x)] + BoundAll(xs);
    } else {
      assert BoundAll(xs)[1..] == BoundAll(xs[1..]);
      InsertBound(x, xs[1..]);
      assert BoundAll([xs[0]] + Insert(x, xs[1..], INSTANCE)) == [BoundOf(xs[0])] + BoundAll(Insert(x, xs[1..], INSTANCE));
    }
  }

  /** Binding the connectors and sorting them may be done in either order. */
  lemma {:induction false} SortedBound(xs: seq<Binding>)
    ensures Sorted(BoundAll(xs), BOUND_INSTANCE) == BoundAll(Sorted(xs, INSTANCE))
    decreases |xs|
  {
    if xs != [] {
      var init, last := xs[..|xs| - 1], xs[|xs| - 1];
      SortedBound(init);
      assert BoundAll(xs)[..|xs| - 1] == BoundAll(init);
      InsertBound(last, Sorted(init, INSTANCE));
    }
  }

  /** Neither the plan of a target nor the operation planned for it depends on the order in which the manifest lists
   *  the target's services or connectors. */
  lemma OrderDoesNotMatter(m: Manifest, t: Target, u: Target)
    requires TargetOk(m.schema, t) && Permuted(t, u)
    ensures TargetSteps(t) == TargetSteps(u)
    ensures BindingOf(m, t) == BindingOf(m, u)
  {
    match t
    case NodeTarget(_, _, services, _) => SortedForgetsOrder(services, u.services, RANK);
    case ConnectorTarget(_, _, connectors) =>
      SortedForgetsOrder(connectors, u.connectors, INSTANCE);
      SortedBound(connectors);
      SortedBound(u.connectors);
  }
}
