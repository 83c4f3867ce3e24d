/** The mutable, lock-protected handle around the node registry, method by method. */
module RegistryHandle {
  import opened Options
  import opened NodeRegistry
  import RegistryGate
  import StringOrder
  import StableSort

  // ---- The sorted gate projection ----

  predicate IdLeq(a: GateRow, b: GateRow) {
    StringOrder.Leq(a.nodeId, b.nodeId)
  }

  lemma IdOrder()
    ensures StableSort.TotalPreorder(IdLeq)
    ensures forall x, y :: IdLeq(x, y) && IdLeq(y, x) ==> x.nodeId == y.nodeId
  {
    forall x: GateRow, y: GateRow ensures IdLeq(x, y) || IdLeq(y, x) {
      StringOrder.LeqTotal(x.nodeId, y.nodeId);
    }
    forall x: GateRow, y: GateRow, z: GateRow | IdLeq(x, y) && IdLeq(y, z) ensures IdLeq(x, z) {
      StringOrder.LeqTransitive(x.nodeId, y.nodeId, z.nodeId);
    }
    forall x: GateRow, y: GateRow | IdLeq(x, y) && IdLeq(y, x) ensures x.nodeId == y.nodeId {
      StringOrder.LeqAntisymmetric(x.nodeId, y.nodeId);
    }
  }

  /** The rows of a subtree, strictly ascending by `node_id`. */
  ghost predicate IsSortedProjection(rows: seq<GateRow>, nodes: Nodes, p: string) {
    && StableSort.StrictlySorted(IdLeq, rows)
    && (forall x :: x in rows <==> exists id :: id in Projection(nodes, p) && Projection(nodes, p)[id] == x)
  }

  /** Comparing sorted vectors is comparing subtrees. */
  lemma SortedProjectionsCompare(a: Nodes, ra: seq<GateRow>, b: Nodes, rb: seq<GateRow>, p: string)
    requires Keyed(a) && Keyed(b)
    requires IsSortedProjection(ra, a, p) && IsSortedProjection(rb, b, p)
    ensures ra == rb <==> Projection(a, p) == Projection(b, p)
  {
    var pa, pb := Projection(a, p), Projection(b, p);
    if pa == pb {
      assert forall x :: x in ra <==> x in rb;
      StableSort.StrictlySortedUnique(IdLeq, ra, rb);
    }
    if ra == rb {
      SameRowsOneWay(a, ra, b, p);
      SameRowsOneWay(b, ra, a, p);
      assert pa.Keys == pb.Keys;
    }
  }

  lemma SameRowsOneWay(a: Nodes, rows: seq<GateRow>, b: Nodes, p: string)
    requires Keyed(a) && Keyed(b)
    requires IsSortedProjection(rows, a, p) && IsSortedProjection(rows, b, p)
    ensures forall id :: id in Projection(a, p) ==>
              id in Projection(b, p) && Projection(b, p)[id] == Projection(a, p)[id]
  {
    var pa, pb := Projection(a, p), Projection(b, p);
    forall id | id in pa ensures id in pb && pb[id] == pa[id] {
      assert pa[id] in rows;
      var k :| k in pb && pb[k] == pa[id];
      assert k == b[k].nodeId == a[id].nodeId == id;
    }
  }

  /** `gate_projection`: collect the children in map order, then sort by `node_id`. */
  method GateProjection(nodes: Nodes, p: string) returns (rows: seq<GateRow>)
    requires Keyed(nodes)
    ensures IsSortedProjection(rows, nodes, p)
  {
    var collected: seq<GateRow> := [];
    var rest := nodes.Keys;
    ghost var proj := Projection(nodes, p);
    while rest != {}
      invariant rest <= nodes.Keys
      invariant forall x :: x in collected <==> exists id :: id in proj && id !in rest && proj[id] == x
      invariant forall i, j :: 0 <= i < j < |collected| ==> collected[i].nodeId != collected[j].nodeId
      decreases |rest|
    {
      var id :| id in rest;
      rest := rest - {id};
      if nodes[id].parent == Some(p) {
        ghost var was := collected;
        assert forall x :: x in was ==> x.nodeId != id;
        collected := collected + [RowOf(nodes[id])];
        assert forall x :: x in collected <==> x in was || x == proj[id];
        assert collected[|collected| - 1].nodeId == id;
      }
    }
    rows := StableSort.Sort(IdLeq, collected);
    IdOrder();
    StableSort.SortStrict(IdLeq, collected);
    StableSort.SortMembers(IdLeq, collected);
  }

  // ---- The handle ----

  class NodeRegistryHandle {
    var nodes: Nodes
    var notify: nat
    var roster: nat

    ghost predicate Valid()
      reads this
    {
      Keyed(nodes)
    }

    ghost function State(): Registry
      reads this
    {
      Registry(nodes, notify, roster)
    }

    constructor ()
      ensures Valid() && State() == RegistryGate.EMPTY
    {
      nodes := map[];
      notify := 0;
      roster := 0;
    }

    method Connect(nodeId: string, scope: NodeScope, now: nat)
      requires Valid()
      modifies this
      ensures Valid() && State() == Step(old(State()), Op.Connect(nodeId, scope, now))
    {
      nodes := nodes[nodeId := Fresh(nodeId, scope, now)];
      notify := notify + 1;
      roster := roster + 1;
    }

    method RecordAck(nodeId: string, version: string, ackSeq: nat, now: nat)
      requires Valid()
      modifies this
      ensures Valid() && State() == Step(old(State()), Op.RecordAck(nodeId, version, ackSeq, now))
    {
      var changed := false;
      if nodeId in nodes {
        var entry := nodes[nodeId];
        var raised := Max(GetOr(entry.lastAckedSeq, 0), ackSeq);
        nodes := nodes[nodeId := entry.(lastAckedVersion := Some(version), lastAckAt := Some(now),
                                        lastAckedSeq := Some(raised))];
        changed := true;
      }
      if changed {
        roster := roster + 1;
      }
    }

    method AdvanceAckedSeq(nodeId: string, ackSeq: nat)
      requires Valid()
      modifies this
      ensures Valid() && State() == Step(old(State()), Op.AdvanceAckedSeq(nodeId, ackSeq))
    {
      var changed := false;
      if nodeId in nodes {
        var entry := nodes[nodeId];
        nodes := nodes[nodeId := entry.(lastAckedSeq := Some(Max(GetOr(entry.lastAckedSeq, 0), ackSeq)))];
        changed := true;
      }
      if changed {
        roster := roster + 1;
      }
    }

    method RecordTarget(nodeId: string, version: string)
      requires Valid()
      modifies this
      ensures Valid() && State() == Step(old(State()), Op.RecordTarget(nodeId, version))
    {
      var changed := false;
      if nodeId in nodes {
        nodes := nodes[nodeId := nodes[nodeId].(targetVersion := Some(version))];
        changed := true;
      }
      if changed {
        roster := roster + 1;
      }
    }

    method RecordBoundPorts(nodeId: string, ports: set<Port>)
      requires Valid()
      modifies this
      ensures Valid() && State() == Step(old(State()), Op.RecordBoundPorts(nodeId, ports))
    {
      if nodeId !in nodes {
        return;
      }
      if nodes[nodeId].boundPorts == Some(ports) {
        return;
      }
      nodes := nodes[nodeId := nodes[nodeId].(boundPorts := Some(ports))];
      notify := notify + 1;
      roster := roster + 1;
    }

    method RecordHealth(nodeId: string, health: NodeHealth)
      requires Valid()
      modifies this
      ensures Valid() && State() == Step(old(State()), Op.RecordHealth(nodeId, health))
    {
      if nodeId !in nodes {
        return;
      }
      if nodes[nodeId].health == Some(health) {
        return;
      }
      nodes := nodes[nodeId := nodes[nodeId].(health := Some(health))];
      roster := roster + 1;
    }

    /** Folds a relay's report; the gate counter moves as `RosterWakesGate` says. */
    method ApplyRoster(parentId: string, children: seq<RosterChild>)
      requires Valid()
      modifies this
      ensures Valid() && State() == Step(old(State()), Op.ApplyRoster(parentId, children))
    {
      var relayNewlyMarked := false;
      if parentId in nodes {
        relayNewlyMarked := !nodes[parentId].isRelay;
        nodes := nodes[parentId := nodes[parentId].(isRelay := true)];
      }
      assert nodes == MarkRelay(old(nodes), parentId);
      var before := GateProjection(nodes, parentId);
      ghost var marked := nodes;
      var retained := Retain(nodes, parentId);
      nodes := FoldChildren(retained, parentId, children);
      assert nodes == FoldRoster(old(nodes), parentId, children);
      var after := GateProjection(nodes, parentId);
      SortedProjectionsCompare(marked, before, nodes, after, parentId);
      var gateChanged := relayNewlyMarked || after != before;
      if gateChanged {
        notify := notify + 1;
      }
      roster := roster + 1;
    }

    /** Removes the subtree of `parentId`, leaving every other row as it is. */
    method EvictChildren(parentId: string)
      requires Valid()
      modifies this
      ensures Valid() && State() == Step(old(State()), Op.EvictChildren(parentId))
      ensures forall id :: id in nodes <==> id in old(nodes) && old(nodes)[id].parent != Some(parentId)
      ensures forall id :: id in nodes ==> nodes[id] == old(nodes)[id]
    {
      var before := |nodes|;
      ghost var was := nodes;
      nodes := Retain(nodes, parentId);
      var removed := |nodes| != before;
      SubmapSize(was, nodes);
      if removed {
        notify := notify + 1;
        roster := roster + 1;
      }
    }

    method Disconnect(nodeId: string)
      requires Valid()
      modifies this
      ensures Valid() && State() == Step(old(State()), Op.Disconnect(nodeId))
    {
      var removed := nodeId in nodes;
      nodes := nodes - {nodeId};
      if removed {
        notify := notify + 1;
        roster := roster + 1;
      } else {
        assert nodes == old(nodes);
      }
    }

    method AllSharedNodesBound(required: set<Port>) returns (bound: bool)
      ensures bound <==> NodeRegistry.AllSharedNodesBound(nodes, required)
    {
      bound := NodesBound(nodes, IsSharedLeaf, required);
    }

    method AllSharedNodesAcked(minSeq: nat) returns (acked: bool)
      ensures acked <==> NodeRegistry.AllSharedNodesAcked(nodes, minSeq)
    {
      acked := NodesAcked(nodes, IsSharedLeaf, minSeq);
    }

    method GatewayNodeBound(namespace: string, name: string, required: set<Port>) returns (bound: bool)
      ensures bound <==> NodeRegistry.GatewayNodeBound(nodes, namespace, name, required)
    {
      bound := NodesBound(nodes, e => Serves(e, namespace, name), required);
    }

    method GatewayNodeAcked(namespace: string, name: string, minSeq: nat) returns (acked: bool)
      ensures acked <==> NodeRegistry.GatewayNodeAcked(nodes, namespace, name, minSeq)
    {
      acked := NodesAcked(nodes, e => Serves(e, namespace, name), minSeq);
    }
  }

  /** The fold loop: a directly connected row is never displaced. */
  method FoldChildren(nodes: Nodes, parentId: string, children: seq<RosterChild>) returns (folded: Nodes)
    requires Keyed(nodes)
    ensures folded == FoldAll(nodes, parentId, children) && Keyed(folded)
  {
    folded := nodes;
    for i := 0 to |children|
      invariant folded == FoldAll(nodes, parentId, children[..i]) && Keyed(folded)
    {
      var child := children[i];
      assert children[..i + 1][..i] == children[..i];
      if child.nodeId in folded && folded[child.nodeId].parent.None? {
        continue;
      }
      folded := folded[child.nodeId := ChildEntry(child, parentId)];
    }
    assert children[..|children|] == children;
  }

  /** `retain`: drop the rows under `parentId`, one by one. */
  method Retain(nodes: Nodes, parentId: string) returns (kept: Nodes)
    ensures kept == WithoutChildren(nodes, parentId)
  {
    kept := nodes;
    var rest := nodes.Keys;
    while rest != {}
      invariant rest <= nodes.Keys
      invariant kept == map id | id in nodes && (id in rest || nodes[id].parent != Some(parentId)) :: nodes[id]
      decreases |rest|
    {
      var id :| id in rest;
      rest := rest - {id};
      if nodes[id].parent == Some(parentId) {
        kept := kept - {id};
      }
    }
  }

  lemma SubmapSize(a: Nodes, b: Nodes)
    requires forall id :: id in b ==> id in a && b[id] == a[id]
    ensures |a| == |b| <==> a == b
  {
    assert b.Keys <= a.Keys;
    if a.Keys != b.Keys {
      assert a.Keys == b.Keys + (a.Keys - b.Keys);
      assert |a.Keys - b.Keys| > 0;
    } else {
      assert a == b;
    }
  }
}
