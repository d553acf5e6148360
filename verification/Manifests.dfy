/** The deployment manifest: its validation, the operations planned from it and the offline plan.
 */
module Manifests {
  import opened Domain
  import opened Records
  import opened Sorting

  /** An agent bundle, and whether its components match the digest it is named by. */
  datatype Bundle = Bundle(digest: Token, intact: bool)

  datatype Binding = Binding(instance: Token, adapter: AdapterKind, handoff: Token, bundle: Option<Bundle>)

  datatype Target =
    | NodeTarget(id: Token, origin: Token, services: seq<NodeService>, host: Host)
    | ConnectorTarget(id: Token, host: Host, connectors: seq<Binding>)

  datatype Manifest = Manifest(schema: nat, server: Artifact, connector: Artifact, targets: seq<Target>, digest: Token)

  const RANK: NodeService -> nat := (s: NodeService) => ServiceRank(s)
  const INSTANCE: Binding -> nat := (b: Binding) => b.instance
  const BOUND_INSTANCE: BoundConnector -> nat := (b: BoundConnector) => b.instance

  // ----- validity -----

  predicate BundleAllowed(schema: nat, b: Binding) {
    match b.bundle
    case None => schema == 1
    case Some(bundle) => schema == 2 && b.adapter == Codex && bundle.intact
  }

  ghost predicate TargetOk(schema: nat, t: Target) {
    match t
    case NodeTarget(_, _, services, _) =>
      && Node in services
      && (forall a, b :: 0 <= a < b < |services| ==> services[a] != services[b])
    case ConnectorTarget(_, _, connectors) =>
      && connectors != []
      && (forall b :: b in connectors ==> BundleAllowed(schema, b))
      && (forall a, b :: 0 <= a < b < |connectors| ==> connectors[a].instance != connectors[b].instance)
  }

  lemma ServicesDiffer(services: seq<NodeService>)
    ensures KeysDiffer(services, RANK) <==> forall a, b :: 0 <= a < b < |services| ==> services[a] != services[b]
  {
    forall a, b | 0 <= a < b < |services| ensures RANK(services[a]) != RANK(services[b]) <==> services[a] != services[b] {
      RanksInOrder(services[a], services[b]);
    }
  }

  lemma InstancesDiffer(connectors: seq<Binding>)
    ensures KeysDiffer(connectors, INSTANCE) <==>
      forall a, b :: 0 <= a < b < |connectors| ==> connectors[a].instance != connectors[b].instance
  {
    forall a, b | 0 <= a < b < |connectors|
      ensures INSTANCE(connectors[a]) != INSTANCE(connectors[b]) <==> connectors[a].instance != connectors[b].instance
    {
    }
  }

  predicate HostsAgree(h: Host, k: Host) {
    h.hostId == k.hostId ==> h.tenant == k.tenant && h.owner == k.owner && h.credential == k.credential
  }

  ghost predicate Apart(t: Target, u: Target) {
    && t.id != u.id
    && HostsAgree(t.host, u.host)
    && (t.NodeTarget? && u.NodeTarget? ==> t.origin != u.origin)
    && (t.ConnectorTarget? && u.ConnectorTarget? ==>
          forall b, c :: b in t.connectors && c in u.connectors ==> b.instance != c.instance)
  }

  ghost predicate TargetsOk(schema: nat, targets: seq<Target>) {
    && (forall k :: 0 <= k < |targets| ==> TargetOk(schema, targets[k]))
    && (forall j, k :: 0 <= j < k < |targets| ==> Apart(targets[j], targets[k]))
  }

  ghost predicate ValidManifest(m: Manifest) {
    (m.schema == 1 || m.schema == 2) && m.targets != [] && TargetsOk(m.schema, m.targets)
  }

  // ----- validation -----

  /** What the sets and the map hold after a number of targets. */
  datatype Seen = Seen(ids: set<Token>, origins: set<Token>, hosts: map<Token, (Token, Token, Token)>, instances: set<Token>)

  ghost predicate SeenOf(seen: Seen, targets: seq<Target>) {
    && (forall i :: i in seen.ids <==> exists k :: 0 <= k < |targets| && targets[k].id == i)
    && (forall o :: o in seen.origins <==> exists k :: 0 <= k < |targets| && targets[k].NodeTarget? && targets[k].origin == o)
    && (forall k :: 0 <= k < |targets| ==>
          targets[k].host.hostId in seen.hosts && seen.hosts[targets[k].host.hostId] == HostTuple(targets[k].host))
    && (forall h :: h in seen.hosts ==> exists k :: 0 <= k < |targets| && targets[k].host.hostId == h)
    && (forall i :: i in seen.instances <==> exists k :: 0 <= k < |targets| && BindsInstance(targets[k], i))
  }

  function HostTuple(h: Host): (Token, Token, Token) {
    (h.tenant, h.owner, h.credential)
  }

  ghost predicate BindsInstance(t: Target, i: Token) {
    t.ConnectorTarget? && exists b :: b in t.connectors && b.instance == i
  }

  /** The new target is consistent with the ones seen exactly when none of the sets already has it. */
  ghost predicate Fits(seen: Seen, t: Target) {
    && t.id !in seen.ids
    && (t.host.hostId in seen.hosts ==> seen.hosts[t.host.hostId] == HostTuple(t.host))
    && (t.NodeTarget? ==> t.origin !in seen.origins)
    && (t.ConnectorTarget? ==> forall b :: b in t.connectors ==> b.instance !in seen.instances)
  }

  lemma FitsIsApart(seen: Seen, targets: seq<Target>, t: Target)
    requires SeenOf(seen, targets)
    ensures Fits(seen, t) <==> forall k :: 0 <= k < |targets| ==> Apart(targets[k], t)
  {
    if Fits(seen, t) {
      forall k | 0 <= k < |targets| ensures Apart(targets[k], t) {
        assert targets[k].ConnectorTarget? ==> forall b :: b in targets[k].connectors ==> BindsInstance(targets[k], b.instance);
      }
    }
    if forall k :: 0 <= k < |targets| ==> Apart(targets[k], t) {
      ApartFits(seen, targets, t);
    }
  }

  lemma ApartFits(seen: Seen, targets: seq<Target>, t: Target)
    requires SeenOf(seen, targets) && forall k :: 0 <= k < |targets| ==> Apart(targets[k], t)
    ensures Fits(seen, t)
  {
    if t.ConnectorTarget? {
      forall b | b in t.connectors ensures b.instance !in seen.instances {
        forall k | 0 <= k < |targets| ensures !BindsInstance(targets[k], b.instance) {
          assert Apart(targets[k], t);
        }
      }
    }
  }

  method DuplicateFree(services: seq<NodeService>) returns (r: bool)
    ensures r <==> KeysDiffer(services, RANK)
  {
    var distinct: set<NodeService> := {};
    r := true;
    for k := 0 to |services|
      invariant forall s :: s in distinct <==> s in services[..k]
      invariant r <==> KeysDiffer(services[..k], RANK)
    {
      assert services[..k + 1] == services[..k] + [services[k]];
      RanksDiffer(services[..k], services[k]);
      if services[k] in distinct {
        r := false;
      }
      distinct := distinct + {services[k]};
    }
    assert services[..|services|] == services;
  }

  lemma RanksDiffer(init: seq<NodeService>, last: NodeService)
    ensures KeysDiffer(init + [last], RANK) <==> KeysDiffer(init, RANK) && last !in init
  {
    var all := init + [last];
    if KeysDiffer(all, RANK) {
      forall a, b | 0 <= a < b < |init| ensures RANK(init[a]) != RANK(init[b]) {
        assert RANK(all[a]) != RANK(all[b]);
      }
      forall a | 0 <= a < |init| ensures init[a] != last {
        assert RANK(all[a]) != RANK(all[|init|]);
      }
    }
  }

  /** The connectors of one target: allowed bundles, and instances that appear nowhere before. */
  method CheckConnectors(schema: nat, connectors: seq<Binding>, instances: set<Token>) returns (r: Result<set<Token>>)
    ensures r.Ok? <==>
      && (forall b :: b in connectors ==> BundleAllowed(schema, b) && b.instance !in instances)
      && KeysDiffer(connectors, INSTANCE)
    ensures r.Ok? ==> forall i :: i in r.value <==> i in instances || exists b :: b in connectors && b.instance == i
  {
    var seen := instances;
    for k := 0 to |connectors|
      invariant forall b :: b in connectors[..k] ==> BundleAllowed(schema, b) && b.instance !in instances
      invariant KeysDiffer(connectors[..k], INSTANCE)
      invariant forall i :: i in seen <==> i in instances || exists b :: b in connectors[..k] && b.instance == i
    {
      var b := connectors[k];
      assert connectors[..k + 1] == connectors[..k] + [b];
      assert b in connectors;
      if !BundleAllowed(schema, b) {
        return Err(Contract);
      }
      if b.instance in seen {
        if b.instance !in instances {
          Repeated(connectors, k);
        }
        return Err(Contract);
      }
      seen := seen + {b.instance};
    }
    assert connectors[..|connectors|] == connectors;
    return Ok(seen);
  }

  lemma Repeated(connectors: seq<Binding>, k: nat)
    requires k < |connectors| && exists b :: b in connectors[..k] && b.instance == connectors[k].instance
    ensures !KeysDiffer(connectors, INSTANCE)
  {
    var b :| b in connectors[..k] && b.instance == connectors[k].instance;
    var j :| 0 <= j < k && connectors[..k][j] == b;
    assert INSTANCE(connectors[j]) == INSTANCE(connectors[k]);
  }

  method CheckTarget(schema: nat, t: Target, seen: Seen) returns (r: Result<Seen>)
    requires schema == 1 || schema == 2
    ensures r.Ok? <==> TargetOk(schema, t) && Fits(seen, t)
    ensures r.Ok? ==>
      && r.value.ids == seen.ids + {t.id}
      && r.value.origins == seen.origins + (if t.NodeTarget? then {t.origin} else {})
      && r.value.hosts == seen.hosts[t.host.hostId := HostTuple(t.host)]
      && (t.NodeTarget? ==> r.value.instances == seen.instances)
      && (t.ConnectorTarget? ==> forall i :: i in r.value.instances <==> i in seen.instances || BindsInstance(t, i))
  {
    if t.id in seen.ids {
      return Err(Contract);
    }
    var next := seen.(ids := seen.ids + {t.id});
    match t {
      case NodeTarget(_, origin, services, host) =>
        if origin in next.origins {
          return Err(Contract);
        }
        next := next.(origins := next.origins + {origin});
        var distinct := DuplicateFree(services);
        ServicesDiffer(services);
        if services == [] || !distinct {
          return Err(Contract);
        }
        if Node !in services {
          return Err(Contract);
        }
      case ConnectorTarget(_, host, connectors) =>
        if connectors == [] {
          return Err(Contract);
        }
    }
    if t.host.hostId in next.hosts && next.hosts[t.host.hostId] != HostTuple(t.host) {
      return Err(Contract);
    }
    next := next.(hosts := next.hosts[t.host.hostId := HostTuple(t.host)]);
    if t.ConnectorTarget? {
      var instances := CheckConnectors(schema, t.connectors, next.instances);
      InstancesDiffer(t.connectors);
      if instances.Err? {
        return Err(Contract);
      }
      next := next.(instances := instances.value);
    }
    return Ok(next);
  }

  lemma SeenGrows(seen: Seen, next: Seen, targets: seq<Target>, t: Target)
    requires SeenOf(seen, targets) && Fits(seen, t)
    requires next.ids == seen.ids + {t.id}
    requires next.origins == seen.origins + (if t.NodeTarget? then {t.origin} else {})
    requires next.hosts == seen.hosts[t.host.hostId := HostTuple(t.host)]
    requires t.NodeTarget? ==> next.instances == seen.instances
    requires t.ConnectorTarget? ==> forall i :: i in next.instances <==> i in seen.instances || BindsInstance(t, i)
    ensures SeenOf(next, targets + [t])
  {
    hide BindsInstance;
    var all := targets + [t];
    assert forall k :: 0 <= k < |targets| ==> all[k] == targets[k];
    assert all[|targets|] == t;
    forall i ensures i in next.instances <==> exists k :: 0 <= k < |all| && BindsInstance(all[k], i) {
      InstanceSeen(seen, next, targets, t, i);
    }
  }

  lemma InstanceSeen(seen: Seen, next: Seen, targets: seq<Target>, t: Target, i: Token)
    requires i in seen.instances <==> exists k :: 0 <= k < |targets| && BindsInstance(targets[k], i)
    requires t.NodeTarget? ==> next.instances == seen.instances
    requires t.ConnectorTarget? ==> (i in next.instances <==> i in seen.instances || BindsInstance(t, i))
    ensures i in next.instances <==> exists k :: 0 <= k < |targets + [t]| && BindsInstance((targets + [t])[k], i)
  {
    var all := targets + [t];
    if exists k :: 0 <= k < |targets| && BindsInstance(targets[k], i) {
      var k :| 0 <= k < |targets| && BindsInstance(targets[k], i);
      assert BindsInstance(all[k], i);
    }
    if BindsInstance(t, i) {
      assert BindsInstance(all[|targets|], i);
    }
  }

  /** `DeploymentContract::validate`, one pass over the targets with sets of what was seen. */
  method Validate(m: Manifest) returns (r: Result<()>)
    ensures r.Ok? <==> ValidManifest(m)
    ensures r.Ok? ==> forall t, b :: t in m.targets && t.ConnectorTarget? && b in t.connectors ==>
      || (m.schema == 1 && b.bundle.None?)
      || (m.schema == 2 && b.adapter == Codex && b.bundle.Some? && b.bundle.value.intact)
    ensures r.Ok? ==> forall j, k :: 0 <= j < k < |m.targets| && m.targets[j].host.hostId == m.targets[k].host.hostId ==>
      m.targets[j].host == m.targets[k].host
  {
    if m.schema != 1 && m.schema != 2 {
      return Err(Contract);
    }
    if m.targets == [] {
      return Err(Contract);
    }
    var seen := Seen({}, {}, map[], {});
    for k := 0 to |m.targets|
      invariant SeenOf(seen, m.targets[..k]) && TargetsOk(m.schema, m.targets[..k])
    {
      var t := m.targets[k];
      assert m.targets[..k + 1] == m.targets[..k] + [t];
      FitsIsApart(seen, m.targets[..k], t);
      var checked := CheckTarget(m.schema, t, seen);
      TargetsExtend(m.schema, m.targets, k);
      if checked.Err? {
        return Err(Contract);
      }
      SeenGrows(seen, checked.value, m.targets[..k], t);
      seen := checked.value;
    }
    assert m.targets[..|m.targets|] == m.targets;
    return Ok(());
  }

  lemma TargetsExtend(schema: nat, targets: seq<Target>, k: nat)
    requires k < |targets|
    ensures TargetsOk(schema, targets[..k + 1]) <==>
      && TargetsOk(schema, targets[..k]) && TargetOk(schema, targets[k])
      && forall j :: 0 <= j < k ==> Apart(targets[..k][j], targets[k])
    ensures TargetsOk(schema, targets) ==> TargetsOk(schema, targets[..k + 1])
  {
    hide TargetOk, Apart;
    var now, before := targets[..k + 1], targets[..k];
    assert forall j :: 0 <= j < k ==> now[j] == before[j] == targets[j];
    assert now[k] == targets[k];
    if TargetsOk(schema, now) {
      forall j | 0 <= j < k ensures Apart(before[j], targets[k]) {
        assert Apart(now[j], now[k]);
      }
      forall i, j | 0 <= i < j < k ensures Apart(before[i], before[j]) {
        assert Apart(now[i], now[j]);
      }
      forall j | 0 <= j < k ensures TargetOk(schema, before[j]) {
        assert TargetOk(schema, now[j]);
      }
    }
  }
}
