/**
 The registry of connected proxy nodes (`node_registry.rs`): rows, fail-closed quorum
 queries, relay roster folds, and two change counters with different firing rules.
 */
module NodeRegistry {
  import opened Options
  import Health
  import StringOrder

  type Port = p: int | 0 <= p < 0x1_0000

  datatype NodeScope =
    | SharedPool
    | Gateway(namespace: string, name: string)
    | Namespace(namespace: string)

  datatype NodeHealth = NodeHealth(version: string, snapshot: Health.HealthSnapshot, reportedAt: nat)

  datatype NodeEntry = NodeEntry(
    nodeId: string,
    scope: NodeScope,
    lastAckedVersion: Option<string>,
    targetVersion: Option<string>,
    lastAckAt: Option<nat>,
    connectedSince: nat,
    boundPorts: Option<set<Port>>,
    lastAckedSeq: Option<nat>,
    parent: Option<string>,
    isRelay: bool,
    health: Option<NodeHealth>)
  {
    predicate InSync() {
      lastAckedVersion.Some? && lastAckedVersion == targetVersion
    }
  }

  /** A leaf as a relay's roster report describes it. */
  datatype RosterChild = RosterChild(
    nodeId: string,
    scope: NodeScope,
    lastAckedVersion: Option<string>,
    targetVersion: Option<string>,
    lastAckedSeq: Option<nat>,
    boundPorts: Option<set<Port>>,
    connectedSince: nat,
    lastAckAt: Option<nat>,
    health: Option<NodeHealth>)

  type Nodes = map<string, NodeEntry>

  /** The fields of a child row that the `Programmed` gate reads. */
  datatype GateRow = GateRow(
    nodeId: string,
    scope: NodeScope,
    lastAckedVersion: Option<string>,
    targetVersion: Option<string>,
    lastAckedSeq: Option<nat>,
    boundPorts: Option<set<Port>>)

  function RowOf(e: NodeEntry): GateRow {
    GateRow(e.nodeId, e.scope, e.lastAckedVersion, e.targetVersion, e.lastAckedSeq, e.boundPorts)
  }

  // ---- Queries ----

  predicate IsSharedLeaf(e: NodeEntry) {
    e.scope == SharedPool && !e.isRelay
  }

  predicate Serves(e: NodeEntry, namespace: string, name: string) {
    e.scope == Gateway(namespace, name)
  }

  predicate Covers(e: NodeEntry, required: set<Port>) {
    e.boundPorts.Some? && required <= e.boundPorts.value
  }

  predicate AckedAtLeast(e: NodeEntry, minSeq: nat) {
    e.lastAckedSeq.Some? && e.lastAckedSeq.value >= minSeq
  }

  predicate AllSharedNodesBound(nodes: Nodes, required: set<Port>) {
    && (exists id :: id in nodes && IsSharedLeaf(nodes[id]))
    && (forall id :: id in nodes && IsSharedLeaf(nodes[id]) ==> Covers(nodes[id], required))
  }

  predicate GatewayNodeBound(nodes: Nodes, namespace: string, name: string, required: set<Port>) {
    && (exists id :: id in nodes && Serves(nodes[id], namespace, name))
    && (forall id :: id in nodes && Serves(nodes[id], namespace, name) ==> Covers(nodes[id], required))
  }

  predicate AllSharedNodesAcked(nodes: Nodes, minSeq: nat) {
    && (exists id :: id in nodes && IsSharedLeaf(nodes[id]))
    && (forall id :: id in nodes && IsSharedLeaf(nodes[id]) ==> AckedAtLeast(nodes[id], minSeq))
  }

  predicate GatewayNodeAcked(nodes: Nodes, namespace: string, name: string, minSeq: nat) {
    && (exists id :: id in nodes && Serves(nodes[id], namespace, name))
    && (forall id :: id in nodes && Serves(nodes[id], namespace, name) ==> AckedAtLeast(nodes[id], minSeq))
  }

  function GatewayNodeCount(nodes: Nodes, namespace: string, name: string): nat {
    |set id | id in nodes && Serves(nodes[id], namespace, name)|
  }

  function NamespaceLeafCount(nodes: Nodes, namespace: string): nat {
    |set id | id in nodes && nodes[id].scope.Gateway? && nodes[id].scope.namespace == namespace|
  }

  /** Ready once some relay of this scope has acked its current target. */
  predicate RelayReady(nodes: Nodes, scope: NodeScope) {
    exists id :: id in nodes && nodes[id].isRelay && nodes[id].scope == scope && nodes[id].InSync()
  }

  function RelayIds(nodes: Nodes, scope: NodeScope): set<string> {
    set id | id in nodes && nodes[id].isRelay && nodes[id].scope == scope :: nodes[id].nodeId
  }

  /** Rows whose parent is one of the relays of this scope. */
  function RelaySubscriberCount(nodes: Nodes, scope: NodeScope): nat {
    var relays := RelayIds(nodes, scope);
    |set id | id in nodes && nodes[id].parent.Some? && nodes[id].parent.value in relays|
  }

  predicate AllInSync(nodes: Nodes) {
    forall id :: id in nodes ==> nodes[id].InSync()
  }

  /** The target of the shared leaf with the least `node_id`; `None` without a shared leaf. */
  ghost predicate IsControllerVersion(nodes: Nodes, version: Option<string>) {
    if exists id :: id in nodes && IsSharedLeaf(nodes[id])
    then exists id :: id in nodes && IsSharedLeaf(nodes[id]) && nodes[id].targetVersion == version
           && forall other :: other in nodes && IsSharedLeaf(nodes[other]) ==>
                StringOrder.Leq(nodes[id].nodeId, nodes[other].nodeId)
    else version == None
  }

  /** The shared quorum loop of both bound gates, with its fail-closed `any` flag. */
  method NodesBound(nodes: Nodes, scopePred: NodeEntry -> bool, required: set<Port>) returns (bound: bool)
    ensures bound <==>
            && (exists id :: id in nodes && scopePred(nodes[id]))
            && (forall id :: id in nodes && scopePred(nodes[id]) ==> Covers(nodes[id], required))
  {
    var any := false;
    var rest := nodes.Keys;
    while rest != {}
      invariant rest <= nodes.Keys
      invariant any <==> exists id :: id in nodes && id !in rest && scopePred(nodes[id])
      invariant forall id :: id in nodes && id !in rest && scopePred(nodes[id]) ==> Covers(nodes[id], required)
      decreases |rest|
    {
      var id :| id in rest;
      rest := rest - {id};
      if scopePred(nodes[id]) {
        any := true;
        if !(nodes[id].boundPorts.Some? && required <= nodes[id].boundPorts.value) {
          return false;
        }
      }
    }
    return any;
  }

  /** The ack-sequence quorum loop: the same shape over `last_acked_seq`. */
  method NodesAcked(nodes: Nodes, scopePred: NodeEntry -> bool, minSeq: nat) returns (acked: bool)
    ensures acked <==>
            && (exists id :: id in nodes && scopePred(nodes[id]))
            && (forall id :: id in nodes && scopePred(nodes[id]) ==> AckedAtLeast(nodes[id], minSeq))
  {
    var any := false;
    var rest := nodes.Keys;
    while rest != {}
      invariant rest <= nodes.Keys
      invariant any <==> exists id :: id in nodes && id !in rest && scopePred(nodes[id])
      invariant forall id :: id in nodes && id !in rest && scopePred(nodes[id]) ==> AckedAtLeast(nodes[id], minSeq)
      decreases |rest|
    {
      var id :| id in rest;
      rest := rest - {id};
      if scopePred(nodes[id]) {
        any := true;
        if nodes[id].lastAckedSeq.None? || nodes[id].lastAckedSeq.value < minSeq {
          return false;
        }
      }
    }
    return any;
  }

  // ---- Mutations, as functions of the row map ----

  function Fresh(nodeId: string, scope: NodeScope, now: nat): NodeEntry {
    NodeEntry(nodeId, scope, None, None, None, now, None, None, None, false, None)
  }

  function ChildEntry(c: RosterChild, parent: string): NodeEntry {
    NodeEntry(c.nodeId, c.scope, c.lastAckedVersion, c.targetVersion, c.lastAckAt, c.connectedSince,
              c.boundPorts, c.lastAckedSeq, Some(parent), false, c.health)
  }

  function Raise(acked: Option<nat>, seq_: nat): Option<nat> {
    Some(Max(GetOr(acked, 0), seq_))
  }

  /** Whether a roster report turns the reporter's own row into a relay row. */
  predicate NewlyMarked(nodes: Nodes, p: string) {
    p in nodes && !nodes[p].isRelay
  }

  function MarkRelay(nodes: Nodes, p: string): Nodes {
    if p in nodes then nodes[p := nodes[p].(isRelay := true)] else nodes
  }

  function WithoutChildren(nodes: Nodes, p: string): Nodes {
    map id | id in nodes && nodes[id].parent != Some(p) :: nodes[id]
  }

  /** One child of a report: inserted unless a directly connected row holds its id. */
  function FoldOne(nodes: Nodes, p: string, c: RosterChild): Nodes {
    if c.nodeId in nodes && nodes[c.nodeId].parent.None? then nodes
    else nodes[c.nodeId := ChildEntry(c, p)]
  }

  function FoldAll(nodes: Nodes, p: string, cs: seq<RosterChild>): Nodes {
    if cs == [] then nodes else FoldOne(FoldAll(nodes, p, cs[..|cs| - 1]), p, cs[|cs| - 1])
  }

  /** `apply_roster` on the row map: mark, drop the old subtree, fold the report. */
  function FoldRoster(nodes: Nodes, p: string, cs: seq<RosterChild>): Nodes {
    FoldAll(WithoutChildren(MarkRelay(nodes, p), p), p, cs)
  }

  /** The gate-relevant rows of one relay's subtree, by row key. */
  function Projection(nodes: Nodes, p: string): map<string, GateRow> {
    map id | id in nodes && nodes[id].parent == Some(p) :: RowOf(nodes[id])
  }

  /** The condition under which `apply_roster` wakes the gate. */
  predicate RosterWakesGate(nodes: Nodes, p: string, cs: seq<RosterChild>) {
    || NewlyMarked(nodes, p)
    || Projection(MarkRelay(nodes, p), p) != Projection(FoldRoster(nodes, p, cs), p)
  }

  // ---- The handle's whole state and its operations ----

  datatype Registry = Registry(nodes: Nodes, notify: nat, roster: nat)

  datatype Op =
    | Connect(nodeId: string, scope: NodeScope, now: nat)
    | RecordAck(nodeId: string, version: string, ackSeq: nat, now: nat)
    | AdvanceAckedSeq(nodeId: string, ackSeq: nat)
    | RecordTarget(nodeId: string, version: string)
    | RecordBoundPorts(nodeId: string, ports: set<Port>)
    | RecordHealth(nodeId: string, health: NodeHealth)
    | ApplyRoster(nodeId: string, children: seq<RosterChild>)
    | EvictChildren(nodeId: string)
    | Disconnect(nodeId: string)

  function Bump(r: Registry, nodes: Nodes, gate: bool, roster: bool): Registry {
    Registry(nodes, r.notify + (if gate then 1 else 0), r.roster + (if roster then 1 else 0))
  }

  function Step(r: Registry, op: Op): Registry {
    match op
    case Connect(id, scope, now) =>
      Bump(r, r.nodes[id := Fresh(id, scope, now)], true, true)
    case RecordAck(id, version, ackSeq, now) =>
      if id !in r.nodes then r else
      var e := r.nodes[id];
      Bump(r, r.nodes[id := e.(lastAckedVersion := Some(version), lastAckAt := Some(now),
                               lastAckedSeq := Raise(e.lastAckedSeq, ackSeq))], false, true)
    case AdvanceAckedSeq(id, ackSeq) =>
      if id !in r.nodes then r else
      var e := r.nodes[id];
      Bump(r, r.nodes[id := e.(lastAckedSeq := Raise(e.lastAckedSeq, ackSeq))], false, true)
    case RecordTarget(id, version) =>
      if id !in r.nodes then r else
      Bump(r, r.nodes[id := r.nodes[id].(targetVersion := Some(version))], false, true)
    case RecordBoundPorts(id, ports) =>
      if id !in r.nodes || r.nodes[id].boundPorts == Some(ports) then r else
      Bump(r, r.nodes[id := r.nodes[id].(boundPorts := Some(ports))], true, true)
    case RecordHealth(id, health) =>
      if id !in r.nodes || r.nodes[id].health == Some(health) then r else
      Bump(r, r.nodes[id := r.nodes[id].(health := Some(health))], false, true)
    case ApplyRoster(p, children) =>
      Bump(r, FoldRoster(r.nodes, p, children), RosterWakesGate(r.nodes, p, children), true)
    case EvictChildren(p) =>
      var kept := WithoutChildren(r.nodes, p);
      if kept == r.nodes then r else Bump(r, kept, true, true)
    case Disconnect(id) =>
      if id !in r.nodes then r else Bump(r, r.nodes - {id}, true, true)
  }

  /** Rows are keyed by their own `node_id`. */
  ghost predicate Keyed(nodes: Nodes) {
    forall id :: id in nodes ==> nodes[id].nodeId == id
  }

  /** No row folded from a roster is itself a relay. */
  ghost predicate NoFoldedRelay(nodes: Nodes) {
    forall id :: id in nodes && nodes[id].parent.Some? ==> !nodes[id].isRelay
  }

  /** Relays never chain: a roster is reported by a node that is not folded under another. */
  ghost predicate Admissible(nodes: Nodes, op: Op) {
    op.ApplyRoster? && op.nodeId in nodes ==> nodes[op.nodeId].parent.None?
  }

  /** The rows with everything the gate cannot see removed: health and timestamps. */
  datatype GateFacts = GateFacts(row: GateRow, parent: Option<string>, isRelay: bool)

  ghost function GateView(nodes: Nodes): map<string, GateFacts> {
    map id | id in nodes :: GateFacts(RowOf(nodes[id]), nodes[id].parent, nodes[id].isRelay)
  }
}
