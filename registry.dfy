/**
 * The capability registry (`internal/capability/registry.go`): the node table that
 * announce and heartbeat messages fill, that health ageing marks stale, and that queries
 * and the metrics callback read. Time is in milliseconds, passed in by the caller.
 */
module Registry {
  import opened Wrappers
  import Config

  datatype Capability = Capability(name: string, tier: string, attributes: map<string, string>)

  datatype NodeInfo = NodeInfo(id: string, role: string, capabilities: seq<Capability>, lastSeen: int, healthy: bool)

  /** The filters `Query` accepts: none (`nil`), `WithCapabilityFilter(name)` and `WithTierFilter(tier)`. */
  datatype Filter = NoFilter | CapabilityFilter(name: string) | TierFilter(tier: string)

  /** The node advertises a capability called `name`. */
  predicate Offers(node: NodeInfo, name: string) {
    exists i :: 0 <= i < |node.capabilities| && node.capabilities[i].name == name
  }

  /** The node advertises a capability in tier `tier`. */
  predicate OffersTier(node: NodeInfo, tier: string) {
    exists i :: 0 <= i < |node.capabilities| && node.capabilities[i].tier == tier
  }

  predicate Selects(filter: Filter, node: NodeInfo) {
    match filter
    case NoFilter => true
    case CapabilityFilter(name) => Offers(node, name)
    case TierFilter(tier) => OffersTier(node, tier)
  }

  /** `WithCapabilityFilter(name)` applied to one node: scan its capabilities for the name. */
  method WithCapabilityFilter(node: NodeInfo, name: string) returns (found: bool)
    ensures found <==> Offers(node, name)
  {
    var i := 0;
    while i < |node.capabilities|
      invariant 0 <= i <= |node.capabilities|
      invariant forall j :: 0 <= j < i ==> node.capabilities[j].name != name
    {
      if node.capabilities[i].name == name {
        return true;
      }
      i := i + 1;
    }
    return false;
  }

  /** `WithTierFilter(tier)` applied to one node: scan its capabilities for the tier. */
  method WithTierFilter(node: NodeInfo, tier: string) returns (found: bool)
    ensures found <==> OffersTier(node, tier)
  {
    var i := 0;
    while i < |node.capabilities|
      invariant 0 <= i <= |node.capabilities|
      invariant forall j :: 0 <= j < i ==> node.capabilities[j].tier != tier
    {
      if node.capabilities[i].tier == tier {
        return true;
      }
      i := i + 1;
    }
    return false;
  }

  /** The configured capabilities as advertised ones, one for one and in order. */
  function AnnouncedCapabilities(source: seq<Config.NodeCapability>): (caps: seq<Capability>)
    ensures |caps| == |source|
    ensures forall i :: 0 <= i < |source| ==>
      caps[i].name == source[i].name && caps[i].tier == source[i].tier && caps[i].attributes == source[i].attributes
  {
    seq(|source|, i requires 0 <= i < |source| => Capability(source[i].name, source[i].tier, source[i].attributes))
  }

  /** `convertCapabilities`: the configured capabilities as advertised ones, one for one and in order. */
  method ConvertCapabilities(source: seq<Config.NodeCapability>) returns (result: seq<Capability>)
    ensures result == AnnouncedCapabilities(source)
    ensures |result| == |source|
    ensures forall i :: 0 <= i < |source| ==>
      result[i] == Capability(source[i].name, source[i].tier, source[i].attributes)
  {
    result := [];
    for i := 0 to |source|
      invariant |result| == i
      invariant forall j :: 0 <= j < i ==> result[j] == Capability(source[j].name, source[j].tier, source[j].attributes)
    {
      result := result + [Capability(source[i].name, source[i].tier, source[i].attributes)];
    }
  }

  /**
   * The entry `updateNode` leaves for `nodeId`: the previous entry (or a fresh one with only
   * the ID), with role and capabilities replaced only by non-empty values, and with
   * `lastSeen` and `healthy` always replaced.
   */
  function Merge(previous: Option<NodeInfo>, nodeId: string, role: string, capabilities: seq<Capability>,
                 timestamp: int, healthy: bool): (node: NodeInfo)
    requires previous.Some? ==> previous.value.id == nodeId
    ensures node.id == nodeId && node.lastSeen == timestamp && node.healthy == healthy
    ensures node.role == (if role != "" then role else if previous.Some? then previous.value.role else "")
    ensures node.capabilities ==
      (if |capabilities| > 0 then capabilities else if previous.Some? then previous.value.capabilities else [])
  {
    var base := previous.GetOr(NodeInfo(nodeId, "", [], 0, false));
    base.(role := if role != "" then role else base.role,
          capabilities := if |capabilities| > 0 then capabilities else base.capabilities,
          lastSeen := timestamp,
          healthy := healthy)
  }

  /** A heartbeat (no role, no capabilities) keeps what the node last announced. */
  lemma HeartbeatKeepsAnnouncement(announced: NodeInfo, timestamp: int)
    ensures var node := Merge(Some(announced), announced.id, "", [], timestamp, true);
      node.role == announced.role && node.capabilities == announced.capabilities &&
      node.lastSeen == timestamp && node.healthy
  {
  }

  /** The health flag after ageing: stale nodes (silent for longer than the timeout) become unhealthy. */
  function Aged(node: NodeInfo, now: int, timeout: int): (aged: NodeInfo)
    ensures aged.healthy <==> node.healthy && now - node.lastSeen <= timeout
    ensures aged.(healthy := node.healthy) == node
  {
    if now - node.lastSeen > timeout then node.(healthy := false) else node
  }

  /** Ageing twice at the same instant changes nothing more. */
  lemma AgedIdempotent(node: NodeInfo, now: int, timeout: int)
    ensures Aged(Aged(node, now, timeout), now, timeout) == Aged(node, now, timeout)
  {
  }

  /** Total advertised capabilities over the entries of `m` whose keys are in `keys`. */
  ghost function CapabilitySum(m: map<string, NodeInfo>, keys: set<string>): nat
    requires keys <= m.Keys
    decreases keys
  {
    if keys == {} then 0
    else
      var k :| k in keys;
      |m[k].capabilities| + CapabilitySum(m, keys - {k})
  }

  /** The sum may be taken starting from any key. */
  lemma {:induction false} CapabilitySumRemove(m: map<string, NodeInfo>, keys: set<string>, k: string)
    requires keys <= m.Keys && k in keys
    ensures CapabilitySum(m, keys) == |m[k].capabilities| + CapabilitySum(m, keys - {k})
    decreases keys
  {
    var j :| j in keys && CapabilitySum(m, keys) == |m[j].capabilities| + CapabilitySum(m, keys - {j});
    if j != k {
      CapabilitySumRemove(m, keys - {j}, k);
      CapabilitySumRemove(m, keys - {k}, j);
      assert keys - {j} - {k} == keys - {k} - {j};
    }
  }

  class Registry {
    /** The local node's configuration. */
    const cfg: Config.NodeConfig
    /** Known nodes by ID. */
    var nodes: map<string, NodeInfo>

    /** Each entry is stored under its own ID. */
    ghost predicate Valid()
      reads this
    {
      forall id :: id in nodes ==> nodes[id].id == id
    }

    /**
     * `NewRegistry`: an empty table, then the local node's first announcement at `now`;
     * a failed announcement is only logged and leaves the table empty.
     */
    constructor (cfg: Config.NodeConfig, now: int, announceFails: bool)
      ensures Valid() && this.cfg == cfg
      ensures nodes == if announceFails then map[]
        else map[cfg.id := Merge(None, cfg.id, cfg.role, AnnouncedCapabilities(cfg.capabilities), now, true)]
    {
      this.cfg := cfg;
      nodes := map[];
      new;
      var _ := Announce(now, announceFails);
    }

    /**
     * `updateNode`: create the entry if missing and merge the update into it; no other
     * entry changes.
     */
    method UpdateNode(nodeId: string, role: string, capabilities: seq<Capability>, timestamp: int, healthy: bool)
      requires Valid()
      modifies this
      ensures Valid()
      ensures nodes == old(nodes)[nodeId :=
        Merge(if nodeId in old(nodes) then Some(old(nodes)[nodeId]) else None, nodeId, role, capabilities, timestamp, healthy)]
    {
      var previous := if nodeId in nodes then Some(nodes[nodeId]) else None;
      nodes := nodes[nodeId := Merge(previous, nodeId, role, capabilities, timestamp, healthy)];
    }

    /** `handleAnnounce` on a decoded message; a zero timestamp is replaced by `now`. */
    method HandleAnnounce(nodeId: string, role: string, capabilities: seq<Capability>, timestamp: Option<int>, now: int)
      requires Valid()
      modifies this
      ensures Valid()
      ensures nodeId in nodes && nodes[nodeId].healthy && nodes[nodeId].lastSeen == timestamp.GetOr(now)
      ensures forall id :: id in old(nodes) && id != nodeId ==> id in nodes && nodes[id] == old(nodes)[id]
      ensures nodes.Keys == old(nodes).Keys + {nodeId}
      ensures nodes == old(nodes)[nodeId :=
        Merge(if nodeId in old(nodes) then Some(old(nodes)[nodeId]) else None, nodeId, role, capabilities, timestamp.GetOr(now), true)]
    {
      UpdateNode(nodeId, role, capabilities, timestamp.GetOr(now), true);
    }

    /** `handleHeartbeat` on a decoded message: the node is seen and healthy, its announcement kept. */
    method HandleHeartbeat(nodeId: string, timestamp: Option<int>, now: int)
      requires Valid()
      modifies this
      ensures Valid()
      ensures nodeId in nodes && nodes[nodeId].healthy && nodes[nodeId].lastSeen == timestamp.GetOr(now)
      ensures nodeId in old(nodes) ==>
        nodes[nodeId].role == old(nodes)[nodeId].role &&
        nodes[nodeId].capabilities == old(nodes)[nodeId].capabilities
      ensures nodeId !in old(nodes) ==> nodes[nodeId].role == "" && nodes[nodeId].capabilities == []
      ensures forall id :: id in old(nodes) && id != nodeId ==> id in nodes && nodes[id] == old(nodes)[id]
    {
      UpdateNode(nodeId, "", [], timestamp.GetOr(now), true);
    }

    /**
     * `announce`: publish the local node's description and, once the publish succeeds,
     * record the local node as healthy and seen at `now`.
     */
    method Announce(now: int, publishFails: bool) returns (ok: bool)
      requires Valid()
      modifies this
      ensures Valid()
      ensures ok == !publishFails
      ensures !ok ==> nodes == old(nodes)
      ensures ok ==> cfg.id in nodes && nodes[cfg.id].healthy && nodes[cfg.id].lastSeen == now
      ensures ok && cfg.role != "" ==> nodes[cfg.id].role == cfg.role
      ensures ok ==> nodes.Keys == old(nodes).Keys + {cfg.id}
      ensures ok ==> forall id :: id in old(nodes) && id != cfg.id ==> nodes[id] == old(nodes)[id]
      ensures ok && |cfg.capabilities| > 0 ==>
        |nodes[cfg.id].capabilities| == |cfg.capabilities| &&
        forall i :: 0 <= i < |cfg.capabilities| ==>
          nodes[cfg.id].capabilities[i] == Capability(cfg.capabilities[i].name, cfg.capabilities[i].tier, cfg.capabilities[i].attributes)
      ensures ok ==> nodes == old(nodes)[cfg.id :=
        Merge(if cfg.id in old(nodes) then Some(old(nodes)[cfg.id]) else None, cfg.id, cfg.role,
              AnnouncedCapabilities(cfg.capabilities), now, true)]
    {
      if publishFails {
        return false;
      }
      var capabilities := ConvertCapabilities(cfg.capabilities);
      UpdateNode(cfg.id, cfg.role, capabilities, now, true);
      return true;
    }

    /**
     * `evaluateHealth`: every node silent for longer than the heartbeat timeout is marked
     * unhealthy; no node is made healthy, added or removed, and nothing else changes.
     */
    method EvaluateHealth(now: int)
      requires Valid()
      modifies this
      ensures Valid()
      ensures nodes.Keys == old(nodes).Keys
      ensures forall id :: id in nodes ==> nodes[id] == Aged(old(nodes)[id], now, cfg.heartbeatTimeout)
      ensures forall id :: id in nodes ==>
        (nodes[id].healthy <==> old(nodes)[id].healthy && now - old(nodes)[id].lastSeen <= cfg.heartbeatTimeout)
    {
      var pending := nodes.Keys;
      while pending != {}
        invariant Valid()
        invariant pending <= nodes.Keys && nodes.Keys == old(nodes).Keys
        invariant forall id :: id in nodes && id in pending ==> nodes[id] == old(nodes)[id]
        invariant forall id :: id in nodes && id !in pending ==> nodes[id] == Aged(old(nodes)[id], now, cfg.heartbeatTimeout)
        decreases pending
      {
        var id :| id in pending;
        if now - nodes[id].lastSeen > cfg.heartbeatTimeout {
          nodes := nodes[id := nodes[id].(healthy := false)];
        }
        pending := pending - {id};
      }
    }

    /** `Healthy`: whether the local node is in the table and marked healthy. */
    function Healthy(): (ok: bool)
      reads this
      ensures ok ==> cfg.id in nodes
      ensures cfg.id in nodes ==> ok == nodes[cfg.id].healthy
    {
      cfg.id in nodes && nodes[cfg.id].healthy
    }

    /**
     * `Query`: a copy of every node the filter selects, each once, in no particular order
     * (Go map iteration order is unspecified).
     */
    method Query(filter: Filter) returns (results: seq<NodeInfo>)
      requires Valid()
      ensures forall n :: n in results <==> n.id in nodes && nodes[n.id] == n && Selects(filter, n)
      ensures forall i, j :: 0 <= i < j < |results| ==> results[i].id != results[j].id
    {
      results := [];
      var pending := nodes.Keys;
      while pending != {}
        invariant pending <= nodes.Keys
        invariant forall n :: n in results <==>
          n.id in nodes && n.id !in pending && nodes[n.id] == n && Selects(filter, n)
        invariant forall i, j :: 0 <= i < j < |results| ==> results[i].id != results[j].id
        decreases pending
      {
        var id :| id in pending;
        var node := nodes[id];
        var keep := true;
        match filter {
          case NoFilter =>
          case CapabilityFilter(name) => keep := WithCapabilityFilter(node, name);
          case TierFilter(tier) => keep := WithTierFilter(node, tier);
        }
        if keep {
          results := results + [node];
        }
        pending := pending - {id};
      }
    }

    /** `snapshotCounts`: the number of known nodes and the total of their capabilities. */
    method SnapshotCounts() returns (nodeCount: nat, capabilityCount: nat)
      ensures nodeCount == |nodes|
      ensures capabilityCount == CapabilitySum(nodes, nodes.Keys)
    {
      nodeCount, capabilityCount := 0, 0;
      var pending := nodes.Keys;
      while pending != {}
        invariant pending <= nodes.Keys
        invariant nodeCount + |pending| == |nodes|
        invariant capabilityCount + CapabilitySum(nodes, pending) == CapabilitySum(nodes, nodes.Keys)
        decreases pending
      {
        var id :| id in pending;
        CapabilitySumRemove(nodes, pending, id);
        nodeCount := nodeCount + 1;
        capabilityCount := capabilityCount + |nodes[id].capabilities|;
        pending := pending - {id};
      }
    }

    /** `LocalCapabilities`: the local node's capabilities, or none when it is not in the table. */
    function LocalCapabilities(): (capabilities: seq<Capability>)
      reads this
      ensures cfg.id !in nodes ==> capabilities == []
      ensures cfg.id in nodes ==> capabilities == nodes[cfg.id].capabilities
    {
      if cfg.id in nodes then nodes[cfg.id].capabilities else []
    }
  }

  /**
   * A node announced at time 0 stays healthy through an ageing at exactly the timeout,
   * turns unhealthy one millisecond later, keeps its capabilities, and is found by a
   * capability query (as the only node, unhealthy).
   */
  method AnnounceAgeAndQuery(cfg: Config.NodeConfig) returns (atStart: bool, atTimeout: bool, later: bool, found: seq<NodeInfo>)
    requires cfg.heartbeatTimeout >= 0
    requires |cfg.capabilities| > 0
    ensures atStart && atTimeout && !later
    ensures found != [] && forall n :: n in found ==> n.id == cfg.id && !n.healthy
  {
    var registry := new Registry(cfg, 0, false);
    atStart := registry.Healthy();
    registry.EvaluateHealth(cfg.heartbeatTimeout);
    atTimeout := registry.Healthy();
    registry.EvaluateHealth(cfg.heartbeatTimeout + 1);
    later := registry.Healthy();
    var local := registry.nodes[cfg.id];
    assert local.capabilities[0].name == cfg.capabilities[0].name;
    assert Offers(local, cfg.capabilities[0].name);
    found := registry.Query(CapabilityFilter(cfg.capabilities[0].name));
    assert registry.nodes.Keys == {cfg.id};
    assert local in found;
  }
}
