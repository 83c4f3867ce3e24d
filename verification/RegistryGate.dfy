/**
 Why suppressing a gate wake never hides a quorum change: what a roster fold does to the
 rows, when it wakes the gate, and what any run of registry operations can change silently.
 */
module RegistryGate {
  import opened Options
  import opened NodeRegistry

  // ---- Subtree ownership ----

  /** The last entry of a report for `id`, if it names `id` at all. */
  function LastEntry(cs: seq<RosterChild>, id: string): (c: Option<RosterChild>)
    ensures c.None? <==> forall i :: 0 <= i < |cs| ==> cs[i].nodeId != id
    ensures c.Some? ==> exists i :: 0 <= i < |cs| && cs[i] == c.value && c.value.nodeId == id
                                    && forall j :: i < j < |cs| ==> cs[j].nodeId != id
  {
    if cs == [] then None
    else if cs[|cs| - 1].nodeId == id then Some(cs[|cs| - 1])
    else LastEntry(cs[..|cs| - 1], id)
  }

  ghost predicate Direct(nodes: Nodes, id: string) {
    id in nodes && nodes[id].parent.None?
  }

  /** The fold over a report, seen at one row. */
  lemma {:induction false} FoldAllRow(nodes: Nodes, p: string, cs: seq<RosterChild>, id: string)
    ensures Direct(nodes, id) || LastEntry(cs, id).None? ==>
              (id in FoldAll(nodes, p, cs) <==> id in nodes)
              && (id in nodes ==> FoldAll(nodes, p, cs)[id] == nodes[id])
    ensures !Direct(nodes, id) && LastEntry(cs, id).Some? ==>
              id in FoldAll(nodes, p, cs)
              && FoldAll(nodes, p, cs)[id] == ChildEntry(LastEntry(cs, id).value, p)
  {
    if cs != [] {
      FoldAllRow(nodes, p, cs[..|cs| - 1], id);
    }
  }

  /**
   Who owns which rows after a report from `p`: the rows under `p` are exactly the
   reported ids not held by a direct row, each with its last entry; direct rows keep
   everything except the reporter's relay mark; other relays lose only ids the report names.
   */
  lemma {:induction false} SubtreeOwnership(nodes: Nodes, p: string, cs: seq<RosterChild>, id: string)
    ensures var after := FoldRoster(nodes, p, cs);
            && (id in after && after[id].parent == Some(p) <==> LastEntry(cs, id).Some? && !Direct(nodes, id))
            && (LastEntry(cs, id).Some? && !Direct(nodes, id) ==> after[id] == ChildEntry(LastEntry(cs, id).value, p))
            && (Direct(nodes, id) ==>
                  id in after && after[id] == if id == p then nodes[id].(isRelay := true) else nodes[id])
            && (id in nodes && nodes[id].parent.Some? && nodes[id].parent != Some(p) && LastEntry(cs, id).None? ==>
                  id in after && after[id] == if id == p then nodes[id].(isRelay := true) else nodes[id])
            && (id in after ==>
                  (LastEntry(cs, id).Some? && !Direct(nodes, id)) || (id in nodes && nodes[id].parent != Some(p)))
  {
    FoldAllRow(WithoutChildren(MarkRelay(nodes, p), p), p, cs, id);
  }

  // ---- Everything the gate consumers ask depends on the gate view alone ----

  lemma ViewEqual(a: Nodes, b: Nodes)
    requires GateView(a) == GateView(b)
    ensures a.Keys == b.Keys
    ensures forall id :: id in a ==>
              RowOf(a[id]) == RowOf(b[id]) && a[id].parent == b[id].parent && a[id].isRelay == b[id].isRelay
  {
    assert GateView(a).Keys == a.Keys && GateView(b).Keys == b.Keys;
    forall id | id in a
      ensures RowOf(a[id]) == RowOf(b[id]) && a[id].parent == b[id].parent && a[id].isRelay == b[id].isRelay
    {
      assert id in b;
      assert GateView(a)[id] == GateView(b)[id];
    }
  }

  /** Equal gate views answer every query alike, for all arguments. */
  lemma QueriesReadOnlyTheGateView(a: Nodes, b: Nodes)
    requires GateView(a) == GateView(b)
    ensures forall required :: AllSharedNodesBound(a, required) <==> AllSharedNodesBound(b, required)
    ensures forall ns, n, required :: GatewayNodeBound(a, ns, n, required) <==> GatewayNodeBound(b, ns, n, required)
    ensures forall s :: AllSharedNodesAcked(a, s) <==> AllSharedNodesAcked(b, s)
    ensures forall ns, n, s :: GatewayNodeAcked(a, ns, n, s) <==> GatewayNodeAcked(b, ns, n, s)
    ensures forall ns, n :: GatewayNodeCount(a, ns, n) == GatewayNodeCount(b, ns, n)
    ensures forall ns :: NamespaceLeafCount(a, ns) == NamespaceLeafCount(b, ns)
    ensures forall scope :: RelayReady(a, scope) <==> RelayReady(b, scope)
    ensures forall scope :: RelaySubscriberCount(a, scope) == RelaySubscriberCount(b, scope)
    ensures forall v :: IsControllerVersion(a, v) <==> IsControllerVersion(b, v)
    ensures AllInSync(a) <==> AllInSync(b)
  {
    QuorumsOneWay(a, b);
    QuorumsOneWay(b, a);
    CountsAgree(a, b);
    VersionOneWay(a, b);
    VersionOneWay(b, a);
  }

  lemma QuorumsOneWay(a: Nodes, b: Nodes)
    requires GateView(a) == GateView(b)
    ensures forall required :: AllSharedNodesBound(a, required) ==> AllSharedNodesBound(b, required)
    ensures forall ns, n, required :: GatewayNodeBound(a, ns, n, required) ==> GatewayNodeBound(b, ns, n, required)
    ensures forall s :: AllSharedNodesAcked(a, s) ==> AllSharedNodesAcked(b, s)
    ensures forall ns, n, s :: GatewayNodeAcked(a, ns, n, s) ==> GatewayNodeAcked(b, ns, n, s)
    ensures forall scope :: RelayReady(a, scope) ==> RelayReady(b, scope)
    ensures AllInSync(a) ==> AllInSync(b)
  {
    ViewEqual(a, b);
    assert forall id :: id in a ==> (IsSharedLeaf(a[id]) <==> IsSharedLeaf(b[id]));
    assert forall id, ns, n :: id in a ==> (Serves(a[id], ns, n) <==> Serves(b[id], ns, n));
    assert forall id :: id in a ==> (a[id].InSync() <==> b[id].InSync());
  }

  lemma VersionOneWay(a: Nodes, b: Nodes)
    requires GateView(a) == GateView(b)
    ensures forall v :: IsControllerVersion(a, v) ==> IsControllerVersion(b, v)
  {
    ViewEqual(a, b);
    forall v | IsControllerVersion(a, v) && exists id :: id in a && IsSharedLeaf(a[id])
      ensures IsControllerVersion(b, v)
    {
      var id :| id in a && IsSharedLeaf(a[id]) && a[id].targetVersion == v
        && forall other :: other in a && IsSharedLeaf(a[other]) ==> StringOrder.Leq(a[id].nodeId, a[other].nodeId);
      assert id in b && IsSharedLeaf(b[id]) && b[id].targetVersion == v;
    }
  }

  lemma CountsAgree(a: Nodes, b: Nodes)
    requires GateView(a) == GateView(b)
    ensures forall ns, n :: GatewayNodeCount(a, ns, n) == GatewayNodeCount(b, ns, n)
    ensures forall ns :: NamespaceLeafCount(a, ns) == NamespaceLeafCount(b, ns)
    ensures forall scope :: RelaySubscriberCount(a, scope) == RelaySubscriberCount(b, scope)
  {
    ViewEqual(a, b);
    forall ns, n ensures GatewayNodeCount(a, ns, n) == GatewayNodeCount(b, ns, n) {
      assert (set id | id in a && Serves(a[id], ns, n)) == set id | id in b && Serves(b[id], ns, n);
    }
    forall ns ensures NamespaceLeafCount(a, ns) == NamespaceLeafCount(b, ns) {
      assert (set id | id in a && a[id].scope.Gateway? && a[id].scope.namespace == ns)
          == set id | id in b && b[id].scope.Gateway? && b[id].scope.namespace == ns;
    }
    forall scope ensures RelaySubscriberCount(a, scope) == RelaySubscriberCount(b, scope) {
      var ra, rb := RelayIds(a, scope), RelayIds(b, scope);
      forall x ensures x in ra <==> x in rb {
        if x in ra {
          var id :| id in a && a[id].isRelay && a[id].scope == scope && a[id].nodeId == x;
          assert id in b && b[id].nodeId == x;
        }
        if x in rb {
          var id :| id in b && b[id].isRelay && b[id].scope == scope && b[id].nodeId == x;
          assert id in a && a[id].nodeId == x;
        }
      }
      assert ra == rb;
      assert (set id | id in a && a[id].parent.Some? && a[id].parent.value in ra)
          == set id | id in b && b[id].parent.Some? && b[id].parent.value in rb;
    }
  }

  // ---- When a roster report wakes the gate ----

  ghost predicate HasRelayChild(nodes: Nodes, p: string) {
    exists id :: id in nodes && nodes[id].parent == Some(p) && nodes[id].isRelay
  }

  ghost predicate SelfChild(nodes: Nodes, p: string) {
    p in nodes && nodes[p].parent == Some(p)
  }

  /** What a caller can check before the report: the wake rule is exact for this reporter. */
  ghost predicate WakeRuleExact(nodes: Nodes, p: string) {
    if NewlyMarked(nodes, p) then !SelfChild(nodes, p) || HasRelayChild(nodes, p)
    else !HasRelayChild(nodes, p)
  }

  ghost predicate ReportChangesView(nodes: Nodes, p: string, cs: seq<RosterChild>) {
    GateView(FoldRoster(nodes, p, cs)) != GateView(nodes)
  }

  lemma RowChanged(a: Nodes, b: Nodes, id: string)
    requires id in a || id in b
    requires id in a && id in b ==>
               RowOf(a[id]) != RowOf(b[id]) || a[id].parent != b[id].parent || a[id].isRelay != b[id].isRelay
    ensures GateView(a) != GateView(b)
  {
    if id in a && id in b {
      assert GateView(a)[id] != GateView(b)[id];
    } else {
      assert (id in GateView(a)) != (id in GateView(b));
    }
  }

  lemma MarkingChangesView(nodes: Nodes, p: string, cs: seq<RosterChild>)
    requires NewlyMarked(nodes, p) && WakeRuleExact(nodes, p)
    ensures ReportChangesView(nodes, p, cs)
  {
    var after := FoldRoster(nodes, p, cs);
    if !SelfChild(nodes, p) {
      SubtreeOwnership(nodes, p, cs, p);
      RowChanged(nodes, after, p);
    } else {
      var id :| id in nodes && nodes[id].parent == Some(p) && nodes[id].isRelay;
      SubtreeOwnership(nodes, p, cs, id);
      RowChanged(nodes, after, id);
    }
  }

  lemma SameViewSameProjection(nodes: Nodes, after: Nodes, p: string)
    requires GateView(after) == GateView(nodes)
    ensures Projection(MarkRelay(nodes, p), p) == Projection(after, p)
  {
    ViewEqual(nodes, after);
    assert Projection(MarkRelay(nodes, p), p).Keys == Projection(after, p).Keys;
  }

  lemma SilentReportKeepsView(nodes: Nodes, p: string, cs: seq<RosterChild>)
    requires !RosterWakesGate(nodes, p, cs) && !HasRelayChild(nodes, p)
    ensures !ReportChangesView(nodes, p, cs)
  {
    var after := FoldRoster(nodes, p, cs);
    var was, now := Projection(MarkRelay(nodes, p), p), Projection(after, p);
    forall id
      ensures id in nodes <==> id in after
      ensures id in nodes ==> GateView(nodes)[id] == GateView(after)[id]
    {
      SubtreeOwnership(nodes, p, cs, id);
      assert id in was <==> id in now;
      if id in was {
        assert was[id] == now[id];
      }
    }
    assert GateView(nodes).Keys == GateView(after).Keys;
  }

  /**
   With the rule exact for the reporter, a report wakes the gate exactly when it changed
   some row's gate-visible facts: neither a missed change nor a spurious wake.
   */
  lemma WakesExactlyOnGateChange(nodes: Nodes, p: string, cs: seq<RosterChild>)
    requires WakeRuleExact(nodes, p)
    ensures RosterWakesGate(nodes, p, cs) <==> ReportChangesView(nodes, p, cs)
  {
    if NewlyMarked(nodes, p) {
      MarkingChangesView(nodes, p, cs);
    } else if RosterWakesGate(nodes, p, cs) {
      if !ReportChangesView(nodes, p, cs) {
        SameViewSameProjection(nodes, FoldRoster(nodes, p, cs), p);
      }
    } else {
      SilentReportKeepsView(nodes, p, cs);
    }
  }

  /** The report that repeats the rows already folded under `p`. */
  function Restate(e: NodeEntry): RosterChild {
    RosterChild(e.nodeId, e.scope, e.lastAckedVersion, e.targetVersion, e.lastAckedSeq, e.boundPorts,
                e.connectedSince, e.lastAckAt, e.health)
  }

  lemma {:induction false} RestateChildren(nodes: Nodes, ids: set<string>) returns (cs: seq<RosterChild>)
    requires Keyed(nodes) && ids <= nodes.Keys
    ensures forall id :: LastEntry(cs, id) == if id in ids then Some(Restate(nodes[id])) else None
    decreases |ids|
  {
    if ids == {} {
      return [];
    }
    var x :| x in ids;
    var front := RestateChildren(nodes, ids - {x});
    cs := front + [Restate(nodes[x])];
    assert cs[..|cs| - 1] == front;
  }

  /** The report that repeats the subtree: its effect is only to clear relay marks under `p`. */
  ghost predicate RestatesSubtree(nodes: Nodes, p: string, cs: seq<RosterChild>) {
    forall id :: LastEntry(cs, id) ==
                 if id in nodes && nodes[id].parent == Some(p) then Some(Restate(nodes[id])) else None
  }

  lemma RestatedRow(nodes: Nodes, p: string, cs: seq<RosterChild>, id: string)
    requires Keyed(nodes) && RestatesSubtree(nodes, p, cs)
    ensures id in FoldRoster(nodes, p, cs) <==> id in nodes
    ensures id in nodes ==>
              FoldRoster(nodes, p, cs)[id] ==
              if nodes[id].parent == Some(p) then nodes[id].(isRelay := false) else MarkRelay(nodes, p)[id]
  {
    SubtreeOwnership(nodes, p, cs, id);
  }

  ghost predicate ClearsMarks(nodes: Nodes, p: string, after: Nodes) {
    && after.Keys == nodes.Keys
    && forall id :: id in nodes ==>
         after[id] == if nodes[id].parent == Some(p) then nodes[id].(isRelay := false) else MarkRelay(nodes, p)[id]
  }

  lemma RestatedRows(nodes: Nodes, p: string, cs: seq<RosterChild>)
    requires Keyed(nodes) && RestatesSubtree(nodes, p, cs)
    ensures ClearsMarks(nodes, p, FoldRoster(nodes, p, cs))
  {
    var after := FoldRoster(nodes, p, cs);
    forall id
      ensures id in after <==> id in nodes
      ensures id in nodes ==>
                after[id] ==
                if nodes[id].parent == Some(p) then nodes[id].(isRelay := false) else MarkRelay(nodes, p)[id]
    {
      RestatedRow(nodes, p, cs, id);
    }
  }

  lemma ClearedView(nodes: Nodes, p: string, after: Nodes)
    requires ClearsMarks(nodes, p, after) && SelfChild(nodes, p) && !HasRelayChild(nodes, p)
    ensures GateView(after) == GateView(nodes)
  {
    assert GateView(nodes).Keys == GateView(after).Keys;
  }

  lemma ClearedProjection(nodes: Nodes, p: string, after: Nodes)
    requires ClearsMarks(nodes, p, after)
    ensures Projection(MarkRelay(nodes, p), p) == Projection(after, p)
  {
    assert Projection(MarkRelay(nodes, p), p).Keys == Projection(after, p).Keys;
  }

  /** Outside the condition some report is misjudged: the condition is the exact one. */
  lemma MisjudgedReport(nodes: Nodes, p: string) returns (cs: seq<RosterChild>)
    requires Keyed(nodes) && !WakeRuleExact(nodes, p)
    ensures RosterWakesGate(nodes, p, cs) != ReportChangesView(nodes, p, cs)
  {
    cs := RestateChildren(nodes, set id | id in nodes && nodes[id].parent == Some(p));
    var after := FoldRoster(nodes, p, cs);
    RestatedRows(nodes, p, cs);
    if NewlyMarked(nodes, p) {
      ClearedView(nodes, p, after);
    } else {
      ClearedProjection(nodes, p, after);
      var id :| id in nodes && nodes[id].parent == Some(p) && nodes[id].isRelay;
      RowChanged(nodes, after, id);
    }
  }

  /** The wake rule agrees with the gate view for every report of `p` exactly under the condition. */
  lemma WakeRuleExactIff(nodes: Nodes, p: string)
    requires Keyed(nodes)
    ensures WakeRuleExact(nodes, p) <==>
            forall cs :: RosterWakesGate(nodes, p, cs) <==> ReportChangesView(nodes, p, cs)
  {
    if WakeRuleExact(nodes, p) {
      forall cs ensures RosterWakesGate(nodes, p, cs) <==> ReportChangesView(nodes, p, cs) {
        WakesExactlyOnGateChange(nodes, p, cs);
      }
    } else {
      var cs := MisjudgedReport(nodes, p);
    }
  }

  // ---- Every run of registry operations ----

  ghost predicate Invariant(nodes: Nodes) {
    Keyed(nodes) && NoFoldedRelay(nodes)
  }

  lemma RosterKeepsInvariant(nodes: Nodes, p: string, cs: seq<RosterChild>)
    requires Invariant(nodes) && (p in nodes ==> nodes[p].parent.None?)
    ensures Invariant(FoldRoster(nodes, p, cs))
    ensures WakeRuleExact(nodes, p)
  {
    var after := FoldRoster(nodes, p, cs);
    forall id | id in after
      ensures after[id].nodeId == id && (after[id].parent.Some? ==> !after[id].isRelay)
    {
      SubtreeOwnership(nodes, p, cs, id);
    }
  }

  lemma StepKeepsInvariant(r: Registry, op: Op)
    requires Invariant(r.nodes) && Admissible(r.nodes, op)
    ensures Invariant(Step(r, op).nodes)
  {
    if op.ApplyRoster? {
      RosterKeepsInvariant(r.nodes, op.nodeId, op.children);
    }
  }

  ghost predicate SameBoundQuorums(a: Nodes, b: Nodes) {
    && (forall required :: AllSharedNodesBound(a, required) <==> AllSharedNodesBound(b, required))
    && (forall ns, n, required :: GatewayNodeBound(a, ns, n, required) <==> GatewayNodeBound(b, ns, n, required))
  }

  ghost predicate SameAckQuorums(a: Nodes, b: Nodes) {
    && (forall s :: AllSharedNodesAcked(a, s) <==> AllSharedNodesAcked(b, s))
    && (forall ns, n, s :: GatewayNodeAcked(a, ns, n, s) <==> GatewayNodeAcked(b, ns, n, s))
  }

  predicate IsAckOp(op: Op) {
    op.RecordAck? || op.AdvanceAckedSeq?
  }

  /** An update of one row that the quorum reads cannot see. */
  lemma OneRowQuiet(a: Nodes, id: string, e: NodeEntry)
    requires id in a
    requires e.scope == a[id].scope && e.isRelay == a[id].isRelay && e.boundPorts == a[id].boundPorts
    ensures SameBoundQuorums(a, a[id := e])
    ensures e.lastAckedSeq == a[id].lastAckedSeq ==> SameAckQuorums(a, a[id := e])
  {
    OneRowQuietOneWay(a, id, e);
    var b := a[id := e];
    assert b[id := a[id]] == a;
    OneRowQuietOneWay(b, id, a[id]);
  }

  lemma OneRowQuietOneWay(a: Nodes, id: string, e: NodeEntry)
    requires id in a
    requires e.scope == a[id].scope && e.isRelay == a[id].isRelay && e.boundPorts == a[id].boundPorts
    ensures forall required :: AllSharedNodesBound(a, required) ==> AllSharedNodesBound(a[id := e], required)
    ensures forall ns, n, required ::
              GatewayNodeBound(a, ns, n, required) ==> GatewayNodeBound(a[id := e], ns, n, required)
    ensures e.lastAckedSeq == a[id].lastAckedSeq ==>
              && (forall s :: AllSharedNodesAcked(a, s) ==> AllSharedNodesAcked(a[id := e], s))
              && (forall ns, n, s :: GatewayNodeAcked(a, ns, n, s) ==> GatewayNodeAcked(a[id := e], ns, n, s))
  {
    var b := a[id := e];
    assert forall x :: x in a <==> x in b;
    assert forall x :: x in a ==> (IsSharedLeaf(a[x]) <==> IsSharedLeaf(b[x]));
    assert forall x, ns, n :: x in a ==> (Serves(a[x], ns, n) <==> Serves(b[x], ns, n));
  }

  lemma QuietReport(r: Registry, p: string, cs: seq<RosterChild>)
    requires Invariant(r.nodes) && Admissible(r.nodes, ApplyRoster(p, cs))
    ensures !RosterWakesGate(r.nodes, p, cs) ==>
              && SameBoundQuorums(r.nodes, FoldRoster(r.nodes, p, cs))
              && SameAckQuorums(r.nodes, FoldRoster(r.nodes, p, cs))
  {
    if !RosterWakesGate(r.nodes, p, cs) {
      RosterKeepsInvariant(r.nodes, p, cs);
      WakesExactlyOnGateChange(r.nodes, p, cs);
      QueriesReadOnlyTheGateView(r.nodes, FoldRoster(r.nodes, p, cs));
    }
  }

  lemma QuietRowUpdate(r: Registry, op: Op)
    requires op.RecordAck? || op.AdvanceAckedSeq? || op.RecordTarget? || op.RecordHealth?
    ensures SameBoundQuorums(r.nodes, Step(r, op).nodes)
    ensures !IsAckOp(op) ==> SameAckQuorums(r.nodes, Step(r, op).nodes)
  {
    var nodes := Step(r, op).nodes;
    if nodes != r.nodes {
      OneRowQuiet(r.nodes, op.nodeId, nodes[op.nodeId]);
    }
  }

  /**
   A step that leaves the gate counter alone leaves every bound quorum alone, and every
   ack quorum too unless it is one of the two ack operations. A step that changes any
   row advances the roster counter.
   */
  lemma QuietStep(r: Registry, op: Op)
    requires Invariant(r.nodes) && Admissible(r.nodes, op)
    ensures Step(r, op).notify == r.notify ==> SameBoundQuorums(r.nodes, Step(r, op).nodes)
    ensures Step(r, op).notify == r.notify && !IsAckOp(op) ==> SameAckQuorums(r.nodes, Step(r, op).nodes)
    ensures Step(r, op).nodes != r.nodes ==> Step(r, op).roster == r.roster + 1
    ensures r.notify <= Step(r, op).notify && r.roster <= Step(r, op).roster
  {
    if op.RecordAck? || op.AdvanceAckedSeq? || op.RecordTarget? || op.RecordHealth? {
      QuietRowUpdate(r, op);
    } else if op.ApplyRoster? {
      QuietReport(r, op.nodeId, op.children);
    }
  }

  function Run(r: Registry, ops: seq<Op>): Registry {
    if ops == [] then r else Step(Run(r, ops[..|ops| - 1]), ops[|ops| - 1])
  }

  /** Every roster in the run comes from a node that is not folded when it reports. */
  ghost predicate AdmissibleRun(r: Registry, ops: seq<Op>) {
    forall i :: 0 <= i < |ops| ==> Admissible(Run(r, ops[..i]).nodes, ops[i])
  }

  const EMPTY: Registry := Registry(map[], 0, 0)

  lemma {:induction false} RunKeepsInvariant(r: Registry, ops: seq<Op>)
    requires Invariant(r.nodes) && AdmissibleRun(r, ops)
    ensures Invariant(Run(r, ops).nodes)
  {
    if ops != [] {
      var front := ops[..|ops| - 1];
      assert forall i :: 0 <= i < |front| ==> front[..i] == ops[..i];
      RunKeepsInvariant(r, front);
      StepKeepsInvariant(Run(r, front), ops[|ops| - 1]);
    }
  }

  /**
   Over any run of any writers' operations: a gate consumer that finds the counter where it
   left it has missed no change of a bound quorum; with no ack in between, no change of an
   ack quorum either; and if no roster tick happened, no row changed at all.
   */
  lemma {:induction false} NothingMissedWhileQuiet(r: Registry, ops: seq<Op>)
    requires Invariant(r.nodes) && AdmissibleRun(r, ops)
    ensures Run(r, ops).notify == r.notify ==> SameBoundQuorums(r.nodes, Run(r, ops).nodes)
    ensures (Run(r, ops).notify == r.notify && forall i :: 0 <= i < |ops| ==> !IsAckOp(ops[i])) ==>
              SameAckQuorums(r.nodes, Run(r, ops).nodes)
    ensures Run(r, ops).roster == r.roster ==> Run(r, ops).nodes == r.nodes
    ensures r.notify <= Run(r, ops).notify && r.roster <= Run(r, ops).roster
  {
    if ops != [] {
      var front := ops[..|ops| - 1];
      assert forall i :: 0 <= i < |front| ==> front[..i] == ops[..i];
      assert forall i :: 0 <= i < |front| ==> front[i] == ops[i];
      NothingMissedWhileQuiet(r, front);
      RunKeepsInvariant(r, front);
      QuietStep(Run(r, front), ops[|ops| - 1]);
    }
  }

  /**
   Chaining relays does hide a change: a node folded under one relay that reports a
   roster of its own is later re-folded as a leaf, and a bound quorum turns true with
   the gate counter unmoved.
   */
  lemma ChainedRelayHidesAQuorumChange() returns (ops: seq<Op>, last: Op)
    ensures var r := Run(EMPTY, ops);
            && !AdmissibleRun(EMPTY, ops)
            && last.ApplyRoster?
            && Step(r, last).notify == r.notify
            && !AllSharedNodesBound(r.nodes, {})
            && AllSharedNodesBound(Step(r, last).nodes, {})
  {
    var leaf := RosterChild("x", SharedPool, None, None, None, Some({}), 0, None, None);
    var cs, none: seq<RosterChild> := [leaf], [];
    var fold, chain := ApplyRoster("p", cs), ApplyRoster("x", none);
    ops, last := [fold, chain], fold;
    var row := ChildEntry(leaf, "p");
    var nodes1: Nodes := map["x" := row];
    var nodes2: Nodes := map["x" := row.(isRelay := true)];
    assert cs[..0] == none && ops[..1] == [fold] && [fold][..0] == [];
    assert WithoutChildren(EMPTY.nodes, "p") == map[];
    assert FoldAll(map[], "p", none) == map[];
    assert FoldRoster(EMPTY.nodes, "p", cs) == nodes1;
    assert Run(EMPTY, [fold]).nodes == nodes1;
    assert !Admissible(nodes1, ops[1]);
    assert WithoutChildren(MarkRelay(nodes1, "x"), "x") == nodes2;
    assert FoldRoster(nodes1, "x", none) == nodes2;
    var r := Run(EMPTY, ops);
    assert r.nodes == nodes2;
    assert WithoutChildren(nodes2, "p") == map[];
    assert FoldRoster(nodes2, "p", cs) == nodes1;
    assert Projection(nodes2, "p") == Projection(nodes1, "p");
    assert "x" in nodes1 && IsSharedLeaf(nodes1["x"]);
  }
}
