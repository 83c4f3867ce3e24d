/** Runs with a relay: applying a pushed view, a leaf behind it, and its report. */
module RelayRuns {
  import opened Options
  import opened PublishIndex
  import opened ConvergenceGate
  import opened GateRuns
  import opened GateWitness
  import R = NodeRegistry
  import RegistryGate

  const RELAY := "r"
  const LEAF := "l"

  // ---- Applying what was pushed ----

  function AfterApply(x: Relay, v: View): Relay {
    x.(tier := x.tier.(cells := v.world, counter := Max(x.tier.counter, v.seqNo)), applying := None, tickOwed := true)
  }

  lemma ApplySteps(x: Relay, st: Stream, v: View)
    requires x.applying.None? && st.scope == R.SharedPool && st.pending == Some(v)
    requires FullFor(R.SharedPool, x.tier.cells) && FullFor(R.SharedPool, v.world)
    ensures FinishApplyOn(ApplyCellsTo(BeginApplyOn(x, st), v.world.Keys)) == AfterApply(x, v)
  {
    var x1 := BeginApplyOn(x, st);
    var a := x1.applying.value;
    var done := map c | c in a.todo && c in v.world.Keys && c in a.view.world :: a.view.world[c];
    assert done == v.world && x.tier.cells + done == v.world && a.todo - v.world.Keys == {};
  }

  lemma Applied(steps: seq<Step>, s: State, r: string, v: View) returns (steps': seq<Step>, s': State)
    requires Reaches(steps, s) && r in s.relays && r in s.root.streams
    requires s.relays[r].applying.None? && s.root.streams[r].scope == R.SharedPool
             && s.root.streams[r].pending == Some(v)
    requires FullFor(R.SharedPool, s.relays[r].tier.cells) && FullFor(R.SharedPool, v.world)
    ensures Reaches(steps', s') && s' == WithRelay(s, r, AfterApply(s.relays[r], v))
  {
    ApplySteps(s.relays[r], s.root.streams[r], v);
    var a, s1 := Next(steps, s, BeginApply(r));
    var b, s2 := Next(a, s1, ApplyCells(r, v.world.Keys));
    steps', s' := Next(b, s2, FinishApply(r));
  }

  /** A relay without leaves that has applied `w` and reached `q`. */
  ghost predicate Bare(x: Relay, w: World, q: nat) {
    && x.tier.streams == map[] && x.tier.registry.nodes == map[] && x.tier.slots == map[]
    && x.tier.cells == w && x.tier.counter == q
    && x.applying.None? && x.carried == 0 && x.outbox == []
  }

  lemma AppliedBare(steps: seq<Step>, s: State, w: World, q: nat, v: View) returns (steps': seq<Step>, s': State)
    requires Reaches(steps, s) && RELAY in s.relays && RELAY in s.root.streams && Bare(s.relays[RELAY], w, q)
    requires s.root.streams[RELAY].scope == R.SharedPool && s.root.streams[RELAY].pending == Some(v)
    requires FullFor(R.SharedPool, w) && FullFor(R.SharedPool, v.world)
    ensures Reaches(steps', s') && s' == s.(relays := s'.relays) && s'.relays.Keys == s.relays.Keys
    ensures Bare(s'.relays[RELAY], v.world, Max(q, v.seqNo))
  {
    steps', s' := Applied(steps, s, RELAY, v);
  }

  lemma TickedBare(steps: seq<Step>, s: State, w: World, q: nat) returns (steps': seq<Step>, s': State)
    requires Reaches(steps, s) && RELAY in s.relays && Bare(s.relays[RELAY], w, q)
    ensures Reaches(steps', s') && s' == s.(relays := s'.relays) && s'.relays.Keys == s.relays.Keys
    ensures Bare(s'.relays[RELAY], w, q)
  {
    steps', s' := Next(steps, s, RelayTick(RELAY));
  }

  lemma StartedBare(base: World)
    requires INITIAL == All(base, 0)
    ensures Bare(FRESH_RELAY, All(base, 0), 0)
  {
  }

  lemma Started(steps: seq<Step>, s: State) returns (steps': seq<Step>, s': State)
    requires Reaches(steps, s) && RELAY !in s.root.streams
    ensures Reaches(steps', s') && s' == WithRelay(s, RELAY, FRESH_RELAY)
  {
    steps', s' := Next(steps, s, StartRelay(RELAY));
  }

  // ---- A leaf behind the relay ----

  /** The relay's only leaf has acked the relay's world at the relay's counter. */
  ghost predicate LeafHolds(s: State, session: nat, seqNo: nat, w: World) {
    && RELAY in s.relays && s.relays[RELAY].tier.streams.Keys == {LEAF}
    && s.relays[RELAY].tier.streams[LEAF].session == session && s.relays[RELAY].outbox == []
    && s.relays[RELAY].tier.registry.nodes.Keys == {LEAF}
    && (var row := s.relays[RELAY].tier.registry.nodes[LEAF];
        row.nodeId == LEAF && row.scope == R.SharedPool && row.lastAckedSeq == Some(seqNo))
    && session in s.acked && s.acked[session] == {w}
  }

  /** A leaf that has joined a bare relay and read its generation. */
  function JoinedTier(t: Tier, k: nat): Tier {
    WithStream(Joined(t, LEAF, k), LEAF, Shared(k, Holding(t.generation), None, None))
  }

  function ServedTier(t: Tier, k: nat): Tier {
    var v := View(R.SharedPool, "", t.counter, t.cells);
    AckedTier(StoredTier(JoinedTier(t, k), LEAF, k, t.generation, v, None), LEAF, k, v)
  }

  lemma ServedFacts(t: Tier, k: nat)
    requires t.streams == map[] && t.registry.nodes == map[]
    ensures var t' := ServedTier(t, k);
            && t'.streams.Keys == {LEAF} && t'.streams[LEAF].session == k && t'.registry.nodes.Keys == {LEAF}
            && t'.registry.nodes[LEAF].nodeId == LEAF && t'.registry.nodes[LEAF].scope == R.SharedPool
            && t'.registry.nodes[LEAF].lastAckedSeq == Some(t.counter) && t'.counter == t.counter
  {
  }

  lemma LeafConnects(steps: seq<Step>, s: State) returns (steps': seq<Step>, s': State)
    requires Reaches(steps, s) && RELAY in s.relays
    ensures Reaches(steps', s')
    ensures s' == PutTier(s, Behind(RELAY), JoinedTier(s.relays[RELAY].tier, s.sessions)).(sessions := s.sessions + 1)
  {
    var site, t, k := Behind(RELAY), s.relays[RELAY].tier, s.sessions;
    var a, s1 := Join(steps, s, site, LEAF);
    steps', s' := WakeUp(a, s1, site, LEAF, k, None);
    PutTwice(s, site, Joined(t, LEAF, k), JoinedTier(t, k));
  }

  lemma LeafServed(steps: seq<Step>, s: State, t: Tier, k: nat) returns (steps': seq<Step>, s': State)
    requires Reaches(steps, s) && RELAY in s.relays && s.relays[RELAY].tier == JoinedTier(t, k)
    requires t.slots == map[] && FullFor(R.SharedPool, t.cells)
    ensures Reaches(steps', s')
    ensures s' == PutTier(s, Behind(RELAY), ServedTier(t, k)).(acked := WithAck(s.acked, k, t.cells))
  {
    var site, v := Behind(RELAY), View(R.SharedPool, "", t.counter, t.cells);
    var t1 := JoinedTier(t, k);
    var a, s1 := BuildAt(steps, s, site, LEAF, k, t.generation, None);
    var t2 := StoredTier(t1, LEAF, k, t.generation, v, None);
    PutTwice(s, site, t2, ServedTier(t, k));
    steps', s' := AckPending(a, s1, site, LEAF, k, v, None);
  }

  lemma LeafJoins(steps: seq<Step>, s: State, w: World, q: nat) returns (steps': seq<Step>, s': State)
    requires Reaches(steps, s) && RELAY in s.relays && s.sessions !in s.acked
    requires Bare(s.relays[RELAY], w, q) && FullFor(R.SharedPool, w)
    ensures Reaches(steps', s') && LeafHolds(s', s.sessions, q, w)
    ensures s' == s.(relays := s'.relays, acked := WithAck(s.acked, s.sessions, w), sessions := s.sessions + 1)
    ensures s'.relays.Keys == s.relays.Keys && s'.relays[RELAY].carried == 0
    ensures s'.relays[RELAY].applying.None? && s'.relays[RELAY].tier.counter == q
  {
    var t, k := s.relays[RELAY].tier, s.sessions;
    var a, s1 := LeafConnects(steps, s);
    steps', s' := LeafServed(a, s1, t, k);
    PutTwice(s, Behind(RELAY), JoinedTier(t, k), ServedTier(t, k));
    ServedFacts(t, k);
    assert s'.relays[RELAY] == s.relays[RELAY].(tier := ServedTier(t, k));
  }

  // ---- Its report ----

  function LeafReport(x: Relay): Report
    requires LEAF in x.tier.registry.nodes
  {
    Report([RegistryGate.Restate(x.tier.registry.nodes[LEAF])], OriginsOf(x))
  }

  lemma Sent(steps: seq<Step>, s: State, session: nat, q: nat, w: World) returns (steps': seq<Step>, s': State)
    requires Reaches(steps, s) && LeafHolds(s, session, q, w) && RELAY in s.root.streams
    ensures Reaches(steps', s') && s' == WithRelay(s, RELAY, s.relays[RELAY].(outbox := [LeafReport(s.relays[RELAY])]))
  {
    var x := s.relays[RELAY];
    var cs := [RegistryGate.Restate(x.tier.registry.nodes[LEAF])];
    assert Reports(x.tier.registry.nodes, cs) by {
      assert forall id :: id in x.tier.registry.nodes ==> id == LEAF;
      assert cs[0].nodeId == LEAF;
    }
    assert x.outbox + [LeafReport(x)] == [LeafReport(x)];
    steps', s' := Next(steps, s, SendReport(RELAY, cs));
  }

  /** The controller sees one relay and, behind it, one leaf acked at `q`. */
  ghost predicate OneLeaf(s: State, q: nat) {
    && s.root.registry.nodes.Keys == {RELAY, LEAF}
    && s.root.registry.nodes[RELAY].isRelay
    && (var row := s.root.registry.nodes[LEAF];
        row.parent == Some(RELAY) && row.scope == R.SharedPool && !row.isRelay && row.lastAckedSeq == Some(q))
  }

  lemma RosterOfOne(nodes: R.Nodes, c: R.RosterChild)
    requires nodes.Keys == {RELAY} && nodes[RELAY].parent.None? && c.nodeId == LEAF
    ensures R.FoldRoster(nodes, RELAY, [c]) ==
            map[RELAY := nodes[RELAY].(isRelay := true), LEAF := R.ChildEntry(c, RELAY)]
  {
    var marked := R.MarkRelay(nodes, RELAY);
    assert R.WithoutChildren(marked, RELAY) == marked;
    assert [c][..0] == [];
    assert R.FoldAll(marked, RELAY, []) == marked;
    assert R.FoldAll(marked, RELAY, [c]) == R.FoldOne(marked, RELAY, c);
  }

  lemma Received(steps: seq<Step>, s: State, rep: Report, q: nat) returns (steps': seq<Step>, s': State)
    requires Reaches(steps, s) && RELAY in s.relays && RELAY in s.root.streams && s.relays[RELAY].outbox == [rep]
    requires s.root.registry.nodes.Keys == {RELAY} && s.root.registry.nodes[RELAY].parent.None?
    requires |rep.children| == 1 && rep.children[0].nodeId == LEAF && rep.children[0].scope == R.SharedPool
    requires rep.children[0].lastAckedSeq == Some(q)
    ensures Reaches(steps', s') && s' == Delivered(s, RELAY) && OneLeaf(s', q)
    ensures s'.origins == s.origins + rep.origins && s'.stamps == s.stamps && s'.hist == s.hist && s'.acked == s.acked
  {
    assert rep.children == [rep.children[0]];
    RosterOfOne(s.root.registry.nodes, rep.children[0]);
    steps', s' := Next(steps, s, DeliverReport(RELAY));
  }

  lemma GateOpens(s: State, n: nat, q: nat)
    requires OneLeaf(s, q) && KEY in s.stamps && s.stamps[KEY].seqNo == n && n <= q
    ensures SharedGateOpen(s, KEY) && R.IsSharedLeaf(s.root.registry.nodes[LEAF])
  {
    assert forall id :: id in s.root.registry.nodes ==> id == RELAY || id == LEAF;
    assert LEAF in s.root.registry.nodes && R.IsSharedLeaf(s.root.registry.nodes[LEAF]);
  }

  // ---- A relay settled at rebuild `q` with its leaf ----

  ghost predicate Settled(s: State, base: World, q: nat, session: nat) {
    && s == Resting(s, base, 0, q) && RELAY in s.root.streams && s.relays.Keys == {RELAY}
    && s.root.registry.nodes.Keys == {RELAY} && s.root.registry.nodes[RELAY].parent.None?
    && LeafHolds(s, session, q, All(base, q)) && s.relays[RELAY].carried == 0 && s.relays[RELAY].applying.None?
    && s.relays[RELAY].tier.counter == q && s.origins == map[] && s.sessions == session + 1
    && (forall k :: k in s.acked ==> k < s.sessions)
  }

  lemma AtRest(base: World, q: nat) returns (steps: seq<Step>)
    requires FullFor(R.SharedPool, base) && INITIAL == All(base, 0)
    ensures Reaches(steps, Resting(INIT, base, 0, q))
  {
    ReachesMeans([], INIT);
    assert INIT == Resting(INIT, base, 0, 0);
    steps := Passes([], INIT, base, 0, 0, q);
  }

  /** The relay connects, is pushed the whole world and applies it. */
  lemma RelayFollows(base: World, q: nat) returns (steps: seq<Step>, s: State)
    requires FullFor(R.SharedPool, base) && INITIAL == All(base, 0)
    ensures Reaches(steps, s) && s == Resting(s, base, 0, q) && RELAY in s.root.streams && s.relays.Keys == {RELAY}
    ensures s.root.streams[RELAY] == Shared(0, NoCall, Some(WholeView(base, q)), None)
    ensures s.root.registry.nodes == map[RELAY := R.Fresh(RELAY, R.SharedPool, 0)]
    ensures Bare(s.relays[RELAY], All(base, q), q)
    ensures s.origins == map[] && s.sessions == 1 && s.acked == map[]
  {
    FullWorlds(base, q, q);
    FullWorlds(base, 0, 0);
    StartedBare(base);
    var a := AtRest(base, q);
    var b, s1 := Started(a, Resting(INIT, base, 0, q));
    var c, s2 := Join(b, s1, Controller, RELAY);
    var d, s3 := WakeUp(c, s2, Controller, RELAY, 0, None);
    var e, s4 := BuildAt(d, s3, Controller, RELAY, 0, 2 * q, None);
    steps, s := AppliedBare(e, s4, All(base, 0), 0, WholeView(base, q));
  }

  lemma Settle(base: World, q: nat) returns (steps: seq<Step>, s: State)
    requires FullFor(R.SharedPool, base) && INITIAL == All(base, 0)
    ensures Reaches(steps, s) && Settled(s, base, q, 1)
  {
    FullWorlds(base, q, q);
    var a, s1 := RelayFollows(base, q);
    var b, s2 := AckPending(a, s1, Controller, RELAY, 0, WholeView(base, q), None);
    steps, s := LeafJoins(b, s2, All(base, q), q);
  }

  // ---- A leaf that restarts after its report was taken ----

  /** The leaf comes back in a new session while the report about the old one is under way. */
  lemma RestartedLeaf(q: nat) returns (steps: seq<Step>, s: State)
    requires q >= 1
    ensures Reaches(steps, s) && OneLeaf(s, q) && SharedGateOpen(s, KEY) && s.stamps[KEY].seqNo == q
    ensures LEAF in s.origins && s.origins[LEAF] == Origin(1, 0)
    ensures RELAY in s.relays && LEAF in s.relays[RELAY].tier.streams
    ensures s.relays[RELAY].tier.streams[LEAF].session == 2 && 2 !in s.acked
  {
    var base := Base();
    var a, s0 := Settle(base, q);
    var b, s1 := Sent(a, s0, 1, q, All(base, q));
    var c, s2 := Join(b, s1, Behind(RELAY), LEAF);
    steps, s := Received(c, s2, LeafReport(s0.relays[RELAY]), q);
    GateOpens(s, q, q);
  }

  // ---- A controller that replaces another ----

  lemma Orphan(s: State, base: World, q: nat, session: nat)
    requires Settled(s, base, q, session) && INITIAL == All(base, 0)
    ensures var s' := Do(s, Replace);
            && s' == Resting(s', base, q, 0) && RELAY !in s'.root.streams && s'.root == FRESH_TIER
            && s'.origins == map[]
            && LeafHolds(s', session, q, All(base, q)) && s'.relays[RELAY].carried == q
            && s'.relays[RELAY].applying.None? && s'.sessions == s.sessions && s'.acked == s.acked
  {
    assert Orphaned(s.relays[RELAY]).tier == s.relays[RELAY].tier;
  }

  /** The relay connects to the new controller and reports its leaf. */
  lemma ReportsAnew(steps: seq<Step>, s: State, session: nat, q: nat, w: World) returns (steps': seq<Step>, s': State)
    requires Reaches(steps, s) && LeafHolds(s, session, q, w)
    requires s.root.streams == map[] && s.root.registry.nodes == map[]
    ensures Reaches(steps', s') && OneLeaf(s', q) && s'.hist == s.hist && s'.stamps == s.stamps && s'.acked == s.acked
    ensures LEAF in s'.origins && s'.origins[LEAF] == Origin(session, s.relays[RELAY].carried)
    ensures RELAY in s'.relays && LEAF in s'.relays[RELAY].tier.streams
    ensures s'.relays[RELAY].tier.streams[LEAF].session == session
  {
    var a, s1 := Join(steps, s, Controller, RELAY);
    var b, s2 := Sent(a, s1, session, q, w);
    steps', s' := Received(b, s2, LeafReport(s.relays[RELAY]), q);
  }

  /** After `n` rebuilds of the new controller the old sequence `c` still opens its gate. */
  lemma OldSequenceOpens(c: nat, n: nat) returns (steps: seq<Step>, s: State, base: World)
    requires 1 <= n <= c
    ensures Reaches(steps, s) && OneLeaf(s, c) && SharedGateOpen(s, KEY) && s.stamps[KEY].seqNo == n
    ensures FullFor(R.SharedPool, base) && s.hist == History(base, c, n)
    ensures LEAF in s.origins && s.origins[LEAF] == Origin(1, c) && 1 in s.acked && s.acked[1] == {All(base, c)}
    ensures RELAY in s.relays && LEAF in s.relays[RELAY].tier.streams
    ensures s.relays[RELAY].tier.streams[LEAF].session == 1
  {
    base := Base();
    var a, s0 := Settle(base, c);
    var b, s1 := Next(a, s0, Replace);
    Orphan(s0, base, c, 1);
    var d := Passes(b, s1, base, c, 0, n);
    steps, s := ReportsAnew(d, Resting(s1, base, c, n), 1, c, All(base, c));
    GateOpens(s, n, c);
  }

  // ---- A relay that loses the race of two lookups ----

  lemma RelayOpens(base: World, q: nat) returns (steps: seq<Step>, s: State)
    requires FullFor(R.SharedPool, base) && INITIAL == All(base, 0) && q >= 1
    ensures Reaches(steps, s) && s == Resting(s, base, 0, q - 1) && s.root.slots == map[]
            && s.root.streams.Keys == {RELAY, "b"}
    ensures Two(s, RELAY, Shared(0, Holding(2 * q - 2), None, None), "b", Shared(1, NoCall, None, None))
    ensures s.root.registry.nodes == map[RELAY := R.Fresh(RELAY, R.SharedPool, 0), "b" := R.Fresh("b", R.SharedPool, 0)]
    ensures s.relays.Keys == {RELAY} && Bare(s.relays[RELAY], All(base, 0), 0)
    ensures s.sessions == 2 && s.acked == map[] && s.origins == map[]
  {
    StartedBare(base);
    var a := AtRest(base, q - 1);
    var b, s1 := Started(a, Resting(INIT, base, 0, q - 1));
    steps, s := Opened(b, s1, base, q, RELAY, "b");
  }

  /** Both lookups of the race, the relay's and another node's, with the whole world applied. */
  lemma RelayRaces(base: World, q: nat) returns (steps: seq<Step>, s: State)
    requires FullFor(R.SharedPool, base) && INITIAL == All(base, 0) && q >= 1
    ensures Reaches(steps, s) && s == Unticked(s, base, 0, q) && s.root.streams.Keys == {RELAY, "b"}
    ensures s.root.slots == map[R.SharedPool := Slot(2 * q - 2, WholeView(base, q))]
    ensures Two(s, RELAY, Shared(0, NoCall, Some(WholeView(base, q)), None),
                "b", Shared(1, Building(2 * q - 1, q - 1, Mixed(base, q)), None, None))
    ensures s.root.registry.nodes == map[RELAY := R.Fresh(RELAY, R.SharedPool, 0), "b" := R.Fresh("b", R.SharedPool, 0)]
    ensures s.relays.Keys == {RELAY} && Bare(s.relays[RELAY], All(base, q), q)
    ensures s.sessions == 2 && s.acked == map[] && s.origins == map[]
  {
    FullWorlds(base, q, q);
    FullWorlds(base, 0, 0);
    var c, s2 := RelayOpens(base, q);
    var d, s3 := Raced(c, s2, base, q, RELAY, 0, "b", 1);
    steps, s := AppliedBare(d, s3, All(base, 0), 0, WholeView(base, q));
  }

  /** The relay applies the whole world of rebuild `q`, acks and ticks, then applies the mixed one. */
  lemma RelayRegresses(base: World, q: nat) returns (steps: seq<Step>, s: State)
    requires FullFor(R.SharedPool, base) && INITIAL == All(base, 0) && q >= 1
    ensures Reaches(steps, s) && s == Unticked(s, base, 0, q)
    ensures s.root.streams.Keys == {RELAY, "b"} && s.root.registry.nodes.Keys == {RELAY, "b"}
    ensures s.root.registry.nodes[RELAY].parent.None?
    ensures s.relays.Keys == {RELAY} && Bare(s.relays[RELAY], Mixed(base, q), q)
    ensures s.sessions == 2 && 2 !in s.acked && s.origins == map[]
  {
    FullWorlds(base, q, q - 1);
    FullWorlds(base, q, q);
    var a, s1 := RelayOvertaken(base, q);
    var b, s2 := TickedBare(a, s1, All(base, q), q);
    steps, s := AppliedBare(b, s2, All(base, q), q, MixedView(base, q));
    RelaysKeepStage(s1, s, base, q);
  }

  lemma RelayOvertaken(base: World, q: nat) returns (steps: seq<Step>, s: State)
    requires FullFor(R.SharedPool, base) && INITIAL == All(base, 0) && q >= 1
    ensures Reaches(steps, s) && s == Unticked(s, base, 0, q)
    ensures s.root.streams.Keys == {RELAY, "b"} && s.root.registry.nodes.Keys == {RELAY, "b"}
    ensures s.root.streams[RELAY] == Shared(0, NoCall, Some(MixedView(base, q)), Some(All(base, q)))
    ensures s.root.registry.nodes[RELAY].parent.None?
    ensures s.relays.Keys == {RELAY} && Bare(s.relays[RELAY], All(base, q), q)
    ensures s.sessions == 2 && 2 !in s.acked && s.origins == map[]
  {
    var a, s1 := RelayRaces(base, q);
    steps, s := Overtaken(a, s1, base, q, RELAY, 0, "b", 1);
  }

  lemma RelaysKeepStage(s: State, s': State, base: World, q: nat)
    requires q >= 1 && s == Unticked(s, base, 0, q) && s' == s.(relays := s'.relays)
    ensures s' == Unticked(s', base, 0, q)
  {
  }

  lemma Leaves(steps: seq<Step>, s: State, n: string) returns (steps': seq<Step>, s': State)
    requires Reaches(steps, s) && n in s.root.streams && n in s.root.registry.nodes && n !in s.relays
    ensures Reaches(steps', s') && s' == s.(root := s'.root)
    ensures s'.root == s.root.(streams := s.root.streams - {n}, registry := s'.root.registry)
    ensures s'.root.registry.nodes == s.root.registry.nodes - {n}
  {
    steps', s' := Next(steps, s, AtRoot(Disconnect(n)));
  }

  /** The other node leaves, and a leaf joins the relay. */
  lemma MixedLeaf(base: World, q: nat) returns (steps: seq<Step>, s: State)
    requires FullFor(R.SharedPool, base) && INITIAL == All(base, 0) && q >= 1
    ensures Reaches(steps, s) && s == Unticked(s, base, 0, q) && LeafHolds(s, 2, q, Mixed(base, q))
    ensures RELAY in s.root.streams && s.root.registry.nodes.Keys == {RELAY}
    ensures s.root.registry.nodes[RELAY].parent.None? && s.relays[RELAY].carried == 0 && s.origins == map[]
  {
    FullWorlds(base, q, q - 1);
    var a, s0 := RelayRegresses(base, q);
    var b, s1 := Leaves(a, s0, "b");
    steps, s := LeafJoins(b, s1, Mixed(base, q), q);
  }

  /** The gate opens for rebuild `q` over a leaf that never held its late cells. */
  lemma MixedLeafOpens(q: nat) returns (steps: seq<Step>, s: State, base: World)
    requires q >= 1
    ensures Reaches(steps, s) && OneLeaf(s, q) && SharedGateOpen(s, KEY) && s.stamps[KEY].seqNo == q
    ensures FullFor(R.SharedPool, base) && s.hist == History(base, 0, q)
    ensures LEAF in s.origins && s.origins[LEAF] == Origin(2, 0) && 2 in s.acked && s.acked[2] == {Mixed(base, q)}
    ensures RELAY in s.relays && LEAF in s.relays[RELAY].tier.streams
    ensures s.relays[RELAY].tier.streams[LEAF].session == 2
  {
    base := Base();
    var a, s0 := MixedLeaf(base, q);
    var b, s1 := Sent(a, s0, 2, q, Mixed(base, q));
    steps, s := Received(b, s1, LeafReport(s0.relays[RELAY]), q);
    GateOpens(s, q, q);
  }
}
