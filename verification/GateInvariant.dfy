/** The inductive invariant of the publish/ack protocol, and its growth with the history. */
module GateInvariant {
  import opened Options
  import opened PublishIndex
  import opened ConvergenceGate
  import R = NodeRegistry

  type Acked = map<nat, set<World>>

  // ---- One discovery server ----
  //
  // `floor` is the sequence up to which the server's numbers are not backed by this controller's
  // history (0 at the controller, the carried sequence at a relay), and `lag` how many rebuilds the
  // late cells may trail (0 at the controller, 1 at a relay).

  ghost predicate ViewOk(hist: seq<Pass>, v: View, floor: nat, lag: nat, top: nat) {
    && v.seqNo <= top
    && ((v.scope.Gateway? && v.world == map[]) || FullFor(v.scope, v.world))
    && (v.seqNo > floor ==> FullFor(v.scope, v.world) && AtLeast(hist, v.world, v.seqNo, lag))
  }

  ghost predicate CallOk(hist: seq<Pass>, call: Call, floor: nat, lag: nat, top: nat) {
    call.Building? ==>
      call.captured <= top && (call.captured > floor ==> AtLeast(hist, call.got, call.captured, lag))
  }

  ghost predicate StreamOk(hist: seq<Pass>, acked: Acked, st: Stream, floor: nat, lag: nat, top: nat) {
    && CallOk(hist, st.call, floor, lag, top) && (st.call.Absent? ==> st.scope.Gateway?)
    && (st.pending.Some? ==> st.pending.value.scope == st.scope && ViewOk(hist, st.pending.value, floor, lag, top))
    && (st.baseline.Some? ==> st.session in acked && st.baseline.value in acked[st.session])
  }

  /** A recorded ack sequence above the floor is backed by a world acknowledged in that session. */
  ghost predicate RowOk(hist: seq<Pass>, acked: Acked, session: nat, scope: R.NodeScope, seqNo: Option<nat>,
                        floor: nat, lag: nat) {
    GetOr(seqNo, 0) > floor ==> HasAcked(hist, acked, session, scope, GetOr(seqNo, 0), lag)
  }

  ghost predicate DirectOk(hist: seq<Pass>, acked: Acked, st: Stream, e: R.NodeEntry, floor: nat, lag: nat, top: nat) {
    && e.parent.None? && e.scope == st.scope && GetOr(e.lastAckedSeq, 0) <= top
    && RowOk(hist, acked, st.session, e.scope, e.lastAckedSeq, floor, lag)
  }

  ghost predicate TierOk(hist: seq<Pass>, acked: Acked, t: Tier, floor: nat, lag: nat) {
    && (t.counter > floor ==> AtLeast(hist, t.cells, t.counter, lag))
    && (forall k :: k in t.slots ==> t.slots[k].view.scope == k && ViewOk(hist, t.slots[k].view, floor, lag, t.counter))
    && (forall n :: n in t.streams ==>
          && StreamOk(hist, acked, t.streams[n], floor, lag, t.counter)
          && n in t.registry.nodes
          && DirectOk(hist, acked, t.streams[n], t.registry.nodes[n], floor, lag, t.counter))
    && (forall id :: id in t.registry.nodes && t.registry.nodes[id].parent.None? ==> id in t.streams)
  }

  // ---- The controller ----

  /** `w` holds everything the rebuild loop had stored by generation `g` of the rebuild watch. */
  ghost predicate Since(hist: seq<Pass>, w: World, g: int) {
    forall c :: c in w ==> FreshAt(hist, c, w[c], if Early(c) then (g + 1) / 2 else g / 2)
  }

  /** Rebuilds whose cells are not all stored yet. */
  function Unstored(phase: Phase): nat {
    if phase.Storing? then 1 else 0
  }

  /** The cells are the last rebuild's, except those it has yet to store; the watch ticks twice a rebuild. */
  ghost predicate RootOk(hist: seq<Pass>, phase: Phase, cells: World, counter: nat, generation: nat) {
    && (hist == [] ==> phase.Idle?)
    && counter == |hist| - Unstored(phase)
    && (phase.Storing? && phase.ticked ==> forall c :: c in phase.todo ==> !Early(c))
    && generation == 2 * counter + (match phase
                                    case Idle => 0
                                    case Storing(_, ticked) => if ticked then 1 else 0
                                    case Bumped => -1
                                    case Stamped => -1)
    && forall c: Cell ::
         Lookup(cells, c) ==
           CellAt(hist, |hist| - (if phase.Storing? && c in phase.todo && hist != [] then 1 else 0), c)
  }

  ghost predicate SlotSince(hist: seq<Pass>, slot: Slot) {
    Since(hist, slot.view.world, slot.tag) && (slot.view.world != map[] ==> slot.tag <= 2 * slot.view.seqNo + 1)
  }

  /** What the node has been credited with at the controller. */
  function Credit(t: Tier, n: string): nat {
    if n in t.registry.nodes then GetOr(t.registry.nodes[n].lastAckedSeq, 0) else 0
  }

  /** The newest sequence of this controller a relay has applied or is applying. */
  function RelayMark(x: Relay): nat {
    Max(if x.tier.counter > x.carried then x.tier.counter else 0,
        if x.applying.Some? && !x.applying.value.stale then x.applying.value.view.seqNo else 0)
  }

  /** The newest sequence of this controller the node behind stream `n` is known to hold. */
  function Mark(root: Tier, relays: map<string, Relay>, n: string): nat {
    Max(Credit(root, n), if n in relays then RelayMark(relays[n]) else 0)
  }

  /**
   A stream of the controller. A lookup under way started from a generation that reflects everything
   its node holds, so what it will serve trails that by one rebuild at most, in late cells only.
   */
  ghost predicate MarkOk(hist: seq<Pass>, st: Stream, credit: nat, mark: nat, counter: nat, generation: nat) {
    && credit <= mark <= counter
    && (!st.call.NoCall? ==>
          && 2 * mark - 1 <= st.call.generation <= generation
          && (st.pending.Some? ==> 2 * st.pending.value.seqNo - 1 <= st.call.generation))
    && (st.call.Building? ==> Since(hist, st.call.got, st.call.generation)
                              && st.call.generation <= 2 * st.call.captured + 1)
    && (st.pending.Some? ==>
          && AtLeast(hist, st.pending.value.world, mark, 1)
          && (st.pending.value.world != map[] ==> mark <= st.pending.value.seqNo + 1))
    && (credit >= 1 ==> st.baseline.Some?)
    && (st.baseline.Some? ==> AtLeast(hist, st.baseline.value, credit, 1))
  }

  // ---- Relays ----

  ghost predicate ReportOk(hist: seq<Pass>, acked: Acked, rep: Report) {
    && (forall i :: 0 <= i < |rep.children| ==>
          var c := rep.children[i];
          c.nodeId in rep.origins &&
          RowOk(hist, acked, rep.origins[c.nodeId].session, c.scope, c.lastAckedSeq, rep.origins[c.nodeId].carried, 1))
    && (forall id :: id in rep.origins ==> exists i :: 0 <= i < |rep.children| && rep.children[i].nodeId == id)
  }

  ghost predicate ApplyingOk(hist: seq<Pass>, x: Relay, a: Applying, top: nat) {
    && a.view.scope == R.SharedPool && FullFor(R.SharedPool, a.view.world)
    && (forall c :: c in a.view.world && c !in a.todo ==> c in x.tier.cells && x.tier.cells[c] == a.view.world[c])
    && (if a.stale then x.tier.counter <= x.carried && a.view.seqNo <= x.carried
        else ViewOk(hist, a.view, 0, 0, top)
             && (x.tier.counter > x.carried ==> AtLeast(hist, a.view.world, x.tier.counter, 1)))
  }

  ghost predicate RelayOk(hist: seq<Pass>, acked: Acked, x: Relay, top: nat) {
    && TierOk(hist, acked, x.tier, x.carried, 1)
    && FullFor(R.SharedPool, x.tier.cells)
    && (forall id :: id in x.tier.registry.nodes ==> x.tier.registry.nodes[id].parent.None?)
    && RelayMark(x) <= top
    && (x.applying.Some? ==> ApplyingOk(hist, x, x.applying.value, top))
    && (forall i :: 0 <= i < |x.outbox| ==> ReportOk(hist, acked, x.outbox[i]))
  }

  // ---- The whole state ----

  ghost predicate FoldedOk(hist: seq<Pass>, acked: Acked, origins: map<string, Origin>, nodes: R.Nodes) {
    forall id :: id in nodes && nodes[id].parent.Some? ==>
      id in origins &&
      RowOk(hist, acked, origins[id].session, nodes[id].scope, nodes[id].lastAckedSeq, origins[id].carried, 1)
  }

  ghost predicate MarksOk(hist: seq<Pass>, root: Tier, relays: map<string, Relay>) {
    forall n :: n in root.streams ==>
      MarkOk(hist, root.streams[n], Credit(root, n), Mark(root, relays, n), root.counter, root.generation)
  }

  ghost predicate SlotsOk(hist: seq<Pass>, root: Tier) {
    forall k :: k in root.slots ==> SlotSince(hist, root.slots[k])
  }

  ghost predicate RelaysOk(hist: seq<Pass>, acked: Acked, relays: map<string, Relay>, top: nat) {
    forall r :: r in relays ==> RelayOk(hist, acked, relays[r], top)
  }

  ghost predicate Inv(s: State) {
    && RootOk(s.hist, s.phase, s.root.cells, s.root.counter, s.root.generation)
    && TierOk(s.hist, s.acked, s.root, 0, 0)
    && SlotsOk(s.hist, s.root)
    && MarksOk(s.hist, s.root, s.relays)
    && RelaysOk(s.hist, s.acked, s.relays, s.root.counter)
    && FoldedOk(s.hist, s.acked, s.origins, s.root.registry.nodes)
    && (forall key :: StampHolds(s, key))
  }

  // ---- Everything survives a longer history and more acks ----

  ghost predicate Extends(hist: seq<Pass>, acked: Acked, hist': seq<Pass>, acked': Acked) {
    && hist <= hist'
    && forall k :: k in acked ==> k in acked' && acked[k] <= acked'[k]
  }

  lemma FreshGrows(hist: seq<Pass>, hist': seq<Pass>, c: Cell, v: Value, n: int, m: int)
    requires hist <= hist' && m <= n && FreshAt(hist, c, v, n)
    ensures FreshAt(hist', c, v, m)
  {
    if m > 0 {
      var j :| n <= j <= |hist| && CellAt(hist, j, c) == Some(v);
      assert CellAt(hist', j, c) == Some(v);
    }
  }

  lemma AtLeastGrows(hist: seq<Pass>, hist': seq<Pass>, w: World, n: int, lag: nat, m: int, lag': nat)
    requires hist <= hist' && m <= n && lag <= lag' && AtLeast(hist, w, n, lag)
    ensures AtLeast(hist', w, m, lag')
  {
    forall c | c in w ensures FreshAt(hist', c, w[c], if Early(c) then m else m - lag') {
      FreshGrows(hist, hist', c, w[c], if Early(c) then n else n - lag, if Early(c) then m else m - lag');
    }
  }

  lemma SinceGrows(hist: seq<Pass>, hist': seq<Pass>, w: World, g: int, h: int)
    requires hist <= hist' && h <= g && Since(hist, w, g)
    ensures Since(hist', w, h)
  {
    forall c | c in w ensures FreshAt(hist', c, w[c], if Early(c) then (h + 1) / 2 else h / 2) {
      FreshGrows(hist, hist', c, w[c], if Early(c) then (g + 1) / 2 else g / 2,
                 if Early(c) then (h + 1) / 2 else h / 2);
    }
  }

  /** What was stored by the tick that announces rebuild `n` trails it in late cells only, by one. */
  lemma SinceIsAtLeast(hist: seq<Pass>, w: World, g: int, n: int)
    requires Since(hist, w, g) && 2 * n - 1 <= g
    ensures AtLeast(hist, w, n, 1)
  {
    forall c | c in w ensures FreshAt(hist, c, w[c], if Early(c) then n else n - 1) {
      FreshGrows(hist, hist, c, w[c], if Early(c) then (g + 1) / 2 else g / 2, if Early(c) then n else n - 1);
    }
  }

  lemma HasAckedGrows(hist: seq<Pass>, acked: Acked, hist': seq<Pass>, acked': Acked,
                      session: nat, scope: R.NodeScope, n: int, m: int, lag: nat)
    requires Extends(hist, acked, hist', acked') && m <= n && HasAcked(hist, acked, session, scope, n, lag)
    ensures HasAcked(hist', acked', session, scope, m, lag)
  {
    var w :| w in acked[session] && FullFor(scope, w) && AtLeast(hist, w, n, lag);
    AtLeastGrows(hist, hist', w, n, lag, m, lag);
    assert w in acked'[session];
  }

  lemma RowGrows(hist: seq<Pass>, acked: Acked, hist': seq<Pass>, acked': Acked,
                 session: nat, scope: R.NodeScope, seqNo: Option<nat>, floor: nat, lag: nat)
    requires Extends(hist, acked, hist', acked') && RowOk(hist, acked, session, scope, seqNo, floor, lag)
    ensures RowOk(hist', acked', session, scope, seqNo, floor, lag)
  {
    if GetOr(seqNo, 0) > floor {
      HasAckedGrows(hist, acked, hist', acked', session, scope, GetOr(seqNo, 0), GetOr(seqNo, 0), lag);
    }
  }

  lemma ViewGrows(hist: seq<Pass>, hist': seq<Pass>, v: View, floor: nat, lag: nat, top: nat, top': nat)
    requires hist <= hist' && top <= top' && ViewOk(hist, v, floor, lag, top)
    ensures ViewOk(hist', v, floor, lag, top')
  {
    if v.seqNo > floor {
      AtLeastGrows(hist, hist', v.world, v.seqNo, lag, v.seqNo, lag);
    }
  }

  lemma StreamGrows(hist: seq<Pass>, acked: Acked, hist': seq<Pass>, acked': Acked,
                    st: Stream, floor: nat, lag: nat, top: nat, top': nat)
    requires Extends(hist, acked, hist', acked') && top <= top' && StreamOk(hist, acked, st, floor, lag, top)
    ensures StreamOk(hist', acked', st, floor, lag, top')
  {
    if st.call.Building? && st.call.captured > floor {
      AtLeastGrows(hist, hist', st.call.got, st.call.captured, lag, st.call.captured, lag);
    }
    if st.pending.Some? {
      ViewGrows(hist, hist', st.pending.value, floor, lag, top, top');
    }
  }

  lemma SlotsGrow(hist: seq<Pass>, hist': seq<Pass>, slots: map<R.NodeScope, Slot>, floor: nat, lag: nat, top: nat,
                  top': nat)
    requires hist <= hist' && top <= top'
    requires forall k :: k in slots ==> slots[k].view.scope == k && ViewOk(hist, slots[k].view, floor, lag, top)
    ensures forall k :: k in slots ==> slots[k].view.scope == k && ViewOk(hist', slots[k].view, floor, lag, top')
  {
    forall k | k in slots ensures ViewOk(hist', slots[k].view, floor, lag, top') {
      ViewGrows(hist, hist', slots[k].view, floor, lag, top, top');
    }
  }

  /** A server whose cells, counter and watch may have moved keeps its streams, slots and rows. */
  lemma TierGrows(hist: seq<Pass>, acked: Acked, t: Tier, hist': seq<Pass>, acked': Acked, t': Tier, floor: nat,
                  lag: nat)
    requires Extends(hist, acked, hist', acked') && TierOk(hist, acked, t, floor, lag)
    requires t' == t.(cells := t'.cells, counter := t'.counter, generation := t'.generation)
    requires t.counter <= t'.counter && (t'.counter > floor ==> AtLeast(hist', t'.cells, t'.counter, lag))
    ensures TierOk(hist', acked', t', floor, lag)
  {
    SlotsGrow(hist, hist', t.slots, floor, lag, t.counter, t'.counter);
    forall n | n in t.streams
      ensures StreamOk(hist', acked', t.streams[n], floor, lag, t'.counter)
      ensures DirectOk(hist', acked', t.streams[n], t.registry.nodes[n], floor, lag, t'.counter)
    {
      StreamGrows(hist, acked, hist', acked', t.streams[n], floor, lag, t.counter, t'.counter);
      var e := t.registry.nodes[n];
      RowGrows(hist, acked, hist', acked', t.streams[n].session, e.scope, e.lastAckedSeq, floor, lag);
    }
  }

  lemma MarkGrows(hist: seq<Pass>, hist': seq<Pass>, st: Stream, credit: nat, mark: nat,
                  counter: nat, generation: nat, counter': nat, generation': nat)
    requires hist <= hist' && MarkOk(hist, st, credit, mark, counter, generation)
    requires counter <= counter' && generation <= generation'
    ensures MarkOk(hist', st, credit, mark, counter', generation')
  {
    if st.call.Building? {
      SinceGrows(hist, hist', st.call.got, st.call.generation, st.call.generation);
    }
    if st.pending.Some? {
      AtLeastGrows(hist, hist', st.pending.value.world, mark, 1, mark, 1);
    }
    if st.baseline.Some? {
      AtLeastGrows(hist, hist', st.baseline.value, credit, 1, credit, 1);
    }
  }

  lemma SlotsSinceGrow(hist: seq<Pass>, hist': seq<Pass>, root: Tier)
    requires hist <= hist' && SlotsOk(hist, root)
    ensures SlotsOk(hist', root)
  {
    forall k | k in root.slots ensures SlotSince(hist', root.slots[k]) {
      SinceGrows(hist, hist', root.slots[k].view.world, root.slots[k].tag, root.slots[k].tag);
    }
  }

  lemma ReportGrows(hist: seq<Pass>, acked: Acked, hist': seq<Pass>, acked': Acked, rep: Report)
    requires Extends(hist, acked, hist', acked') && ReportOk(hist, acked, rep)
    ensures ReportOk(hist', acked', rep)
  {
    forall i | 0 <= i < |rep.children|
      ensures var c := rep.children[i];
              RowOk(hist', acked', rep.origins[c.nodeId].session, c.scope, c.lastAckedSeq,
                    rep.origins[c.nodeId].carried, 1)
    {
      var c := rep.children[i];
      var o := rep.origins[c.nodeId];
      RowGrows(hist, acked, hist', acked', o.session, c.scope, c.lastAckedSeq, o.carried, 1);
    }
  }

  lemma RelayGrows(hist: seq<Pass>, acked: Acked, hist': seq<Pass>, acked': Acked, x: Relay, top: nat, top': nat)
    requires Extends(hist, acked, hist', acked') && top <= top' && RelayOk(hist, acked, x, top)
    ensures RelayOk(hist', acked', x, top')
  {
    var n := x.tier.counter;
    if n > x.carried {
      AtLeastGrows(hist, hist', x.tier.cells, n, 1, n, 1);
    }
    TierGrows(hist, acked, x.tier, hist', acked', x.tier, x.carried, 1);
    if x.applying.Some? && !x.applying.value.stale {
      ViewGrows(hist, hist', x.applying.value.view, 0, 0, top, top');
      if n > x.carried {
        AtLeastGrows(hist, hist', x.applying.value.view.world, n, 1, n, 1);
      }
    }
    forall i | 0 <= i < |x.outbox| ensures ReportOk(hist', acked', x.outbox[i]) {
      ReportGrows(hist, acked, hist', acked', x.outbox[i]);
    }
  }

  lemma RelaysGrow(hist: seq<Pass>, acked: Acked, hist': seq<Pass>, acked': Acked, relays: map<string, Relay>, top: nat,
                   top': nat)
    requires Extends(hist, acked, hist', acked') && top <= top' && RelaysOk(hist, acked, relays, top)
    ensures RelaysOk(hist', acked', relays, top')
  {
    forall r | r in relays ensures RelayOk(hist', acked', relays[r], top') {
      RelayGrows(hist, acked, hist', acked', relays[r], top, top');
    }
  }

  lemma FoldedGrows(hist: seq<Pass>, acked: Acked, hist': seq<Pass>, acked': Acked, origins: map<string, Origin>,
                    nodes: R.Nodes)
    requires Extends(hist, acked, hist', acked') && FoldedOk(hist, acked, origins, nodes)
    ensures FoldedOk(hist', acked', origins, nodes)
  {
    forall id | id in nodes && nodes[id].parent.Some?
      ensures RowOk(hist', acked', origins[id].session, nodes[id].scope, nodes[id].lastAckedSeq, origins[id].carried, 1)
    {
      RowGrows(hist, acked, hist', acked', origins[id].session, nodes[id].scope, nodes[id].lastAckedSeq,
               origins[id].carried, 1);
    }
  }

  lemma StampsKept(s: State, s': State)
    requires s.hist <= s'.hist && s'.stamps == s.stamps && StampedCount(s') == StampedCount(s)
    requires forall key :: StampHolds(s, key)
    ensures forall key :: StampHolds(s', key)
  {
    forall key ensures StampHolds(s', key) {
      assert StampHolds(s, key);
    }
  }
}
