/** Every step of the publish/ack protocol keeps the invariant, so an open gate is honest. */
module GateProofs {
  import opened Options
  import opened PublishIndex
  import opened ConvergenceGate
  import opened GateInvariant
  import R = NodeRegistry
  import RegistryGate

  // ---- The rebuild loop ----

  lemma RootServes(hist: seq<Pass>, phase: Phase, cells: World, counter: nat, generation: nat)
    requires RootOk(hist, phase, cells, counter, generation)
    ensures AtLeast(hist, cells, counter, 0) && Since(hist, cells, generation)
  {
    forall c | c in cells
      ensures FreshAt(hist, c, cells[c], counter)
      ensures FreshAt(hist, c, cells[c], if Early(c) then (generation + 1) / 2 else generation / 2)
    {
      var j := |hist| - (if phase.Storing? && c in phase.todo && hist != [] then 1 else 0);
      assert CellAt(hist, j, c) == Lookup(cells, c);
    }
  }

  lemma BeginPassRoot(hist: seq<Pass>, cells: World, counter: nat, generation: nat, pass: Pass)
    requires RootOk(hist, Idle, cells, counter, generation)
    ensures RootOk(hist + [pass], Storing(cells.Keys + pass.cells.Keys, false), cells, counter, generation)
  {
    var hist', todo := hist + [pass], cells.Keys + pass.cells.Keys;
    forall c: Cell ensures Lookup(cells, c) == CellAt(hist', |hist'| - (if c in todo then 1 else 0), c) {
      assert Lookup(cells, c) == CellAt(hist, |hist|, c);
      assert CellAt(hist', |hist|, c) == CellAt(hist, |hist|, c);
    }
  }

  lemma StoreCellsRoot(hist: seq<Pass>, todo: set<Cell>, ticked: bool, cells: World, counter: nat, generation: nat,
                       cs: set<Cell>)
    requires RootOk(hist, Storing(todo, ticked), cells, counter, generation) && cs <= todo && hist != []
    ensures RootOk(hist, Storing(todo - cs, ticked), Overlay(cells, hist[|hist| - 1].cells, cs), counter, generation)
  {
    var cells' := Overlay(cells, hist[|hist| - 1].cells, cs);
    forall c: Cell ensures Lookup(cells', c) == CellAt(hist, |hist| - (if c in todo - cs then 1 else 0), c) {
      assert Lookup(cells, c) == CellAt(hist, |hist| - (if c in todo then 1 else 0), c);
    }
  }

  lemma BumpRoot(hist: seq<Pass>, cells: World, counter: nat, generation: nat)
    requires RootOk(hist, Storing({}, true), cells, counter, generation)
    ensures RootOk(hist, Bumped, cells, counter + 1, generation)
  {
    forall c: Cell ensures Lookup(cells, c) == CellAt(hist, |hist|, c) {
      var todo: set<Cell> := {};
      assert Lookup(cells, c) == CellAt(hist, |hist| - (if c in todo then 1 else 0), c);
    }
  }

  /** A rebuild step moves only the history, the phase, the stamps and the controller's cells and counts. */
  lemma RebuildStepOk(s: State, s': State)
    requires Inv(s)
    requires s' == s.(hist := s'.hist, phase := s'.phase, stamps := s'.stamps,
                      root := s.root.(cells := s'.root.cells, counter := s'.root.counter,
                                      generation := s'.root.generation))
    requires s.hist <= s'.hist && s.root.counter <= s'.root.counter && s.root.generation <= s'.root.generation
    requires RootOk(s'.hist, s'.phase, s'.root.cells, s'.root.counter, s'.root.generation)
    requires forall key :: StampHolds(s', key)
    ensures Inv(s')
  {
    RootServes(s'.hist, s'.phase, s'.root.cells, s'.root.counter, s'.root.generation);
    TierGrows(s.hist, s.acked, s.root, s'.hist, s.acked, s'.root, 0, 0);
    SlotsSinceGrow(s.hist, s'.hist, s.root);
    forall n | n in s'.root.streams
      ensures MarkOk(s'.hist, s'.root.streams[n], Credit(s'.root, n), Mark(s'.root, s.relays, n),
                     s'.root.counter, s'.root.generation)
    {
      MarkGrows(s.hist, s'.hist, s.root.streams[n], Credit(s.root, n), Mark(s.root, s.relays, n),
                s.root.counter, s.root.generation, s'.root.counter, s'.root.generation);
    }
    RelaysGrow(s.hist, s.acked, s'.hist, s.acked, s.relays, s.root.counter, s'.root.counter);
    FoldedGrows(s.hist, s.acked, s'.hist, s.acked, s.origins, s.root.registry.nodes);
  }

  lemma RestampHolds(s: State, key: ObjectKey)
    requires Inv(s) && s.phase.Bumped? && s.hist != []
    ensures StampHolds(RebuildDo(s, StoreStamps), key)
  {
    assert StampHolds(s, key);
  }

  lemma BeginPassOk(s: State, pass: Pass)
    requires Inv(s) && s.phase.Idle?
    ensures Inv(RebuildDo(s, BeginPass(pass)))
  {
    var s' := RebuildDo(s, BeginPass(pass));
    BeginPassRoot(s.hist, s.root.cells, s.root.counter, s.root.generation, pass);
    StampsKept(s, s');
    RebuildStepOk(s, s');
  }

  lemma StoreCellsOk(s: State, cs: set<Cell>)
    requires Inv(s) && s.phase.Storing? && s.hist != [] && cs <= s.phase.todo
    requires s.phase.ticked || forall c :: c in cs ==> Early(c)
    ensures Inv(RebuildDo(s, StoreCells(cs)))
  {
    var s' := RebuildDo(s, StoreCells(cs));
    StoreCellsRoot(s.hist, s.phase.todo, s.phase.ticked, s.root.cells, s.root.counter, s.root.generation, cs);
    StampsKept(s, s');
    RebuildStepOk(s, s');
  }

  lemma OtherRebuildOk(s: State, step: Step)
    requires Inv(s) && (step.Tick? || step.BumpCounter? || step.EndTick?) && RebuildDo(s, step) != s
    ensures Inv(RebuildDo(s, step))
  {
    var s' := RebuildDo(s, step);
    if step.BumpCounter? {
      BumpRoot(s.hist, s.root.cells, s.root.counter, s.root.generation);
    }
    StampsKept(s, s');
    RebuildStepOk(s, s');
  }

  lemma StoreStampsOk(s: State)
    requires Inv(s) && s.phase.Bumped? && s.hist != []
    ensures Inv(RebuildDo(s, StoreStamps))
  {
    var s' := RebuildDo(s, StoreStamps);
    forall key ensures StampHolds(s', key) {
      RestampHolds(s, key);
    }
    RebuildStepOk(s, s');
  }

  lemma RebuildOk(s: State, step: Step)
    requires Inv(s) && Rebuilds(step)
    ensures Inv(RebuildDo(s, step))
  {
    if RebuildDo(s, step) != s {
      match step
      case BeginPass(pass) => BeginPassOk(s, pass);
      case StoreCells(cs) => StoreCellsOk(s, cs);
      case StoreStamps => StoreStampsOk(s);
      case _ => OtherRebuildOk(s, step);
    }
  }

  // ---- One server: streams and rows ----

  lemma PutStream(hist: seq<Pass>, acked: Acked, t: Tier, n: string, st: Stream, floor: nat, lag: nat)
    requires TierOk(hist, acked, t, floor, lag) && n in t.streams
    requires StreamOk(hist, acked, st, floor, lag, t.counter)
    requires st.scope == t.streams[n].scope && st.session == t.streams[n].session
    ensures TierOk(hist, acked, WithStream(t, n, st), floor, lag)
  {
    var e := t.registry.nodes[n];
    assert DirectOk(hist, acked, t.streams[n], e, floor, lag, t.counter);
    assert DirectOk(hist, acked, st, e, floor, lag, t.counter);
  }

  lemma PutRow(hist: seq<Pass>, acked: Acked, t: Tier, n: string, reg: R.Registry, floor: nat, lag: nat)
    requires TierOk(hist, acked, t, floor, lag) && n in t.streams
    requires n in reg.nodes && reg.nodes == t.registry.nodes[n := reg.nodes[n]]
    requires DirectOk(hist, acked, t.streams[n], reg.nodes[n], floor, lag, t.counter)
    ensures TierOk(hist, acked, t.(registry := reg), floor, lag)
  {
  }

  lemma PutSlot(hist: seq<Pass>, acked: Acked, t: Tier, tag: nat, v: View, floor: nat, lag: nat)
    requires TierOk(hist, acked, t, floor, lag) && ViewOk(hist, v, floor, lag, t.counter)
    ensures TierOk(hist, acked, t.(slots := t.slots[v.scope := Slot(tag, v)]), floor, lag)
  {
  }

  /** Raising a row to the sequence of a world acknowledged in its session. */
  lemma RaisedOk(hist: seq<Pass>, acked: Acked, st: Stream, e: R.NodeEntry, e': R.NodeEntry, v: View, floor: nat,
                 lag: nat, top: nat)
    requires DirectOk(hist, acked, st, e, floor, lag, top)
    requires e'.parent == e.parent && e'.scope == e.scope && e'.lastAckedSeq == R.Raise(e.lastAckedSeq, v.seqNo)
    requires ViewOk(hist, v, floor, lag, top) && v.scope == st.scope
    requires st.session in acked && v.world in acked[st.session]
    ensures DirectOk(hist, acked, st, e', floor, lag, top)
  {
  }

  lemma AdvanceOk(hist: seq<Pass>, acked: Acked, t: Tier, n: string, v: View, floor: nat, lag: nat)
    requires TierOk(hist, acked, t, floor, lag) && n in t.streams
    requires ViewOk(hist, v, floor, lag, t.counter) && v.scope == t.streams[n].scope
    requires t.streams[n].baseline == Some(v.world)
    ensures TierOk(hist, acked, WithRegistry(t, R.AdvanceAckedSeq(n, v.seqNo)), floor, lag)
  {
    var reg := R.Step(t.registry, R.AdvanceAckedSeq(n, v.seqNo));
    var e := t.registry.nodes[n];
    assert StreamOk(hist, acked, t.streams[n], floor, lag, t.counter);
    RaisedOk(hist, acked, t.streams[n], e, reg.nodes[n], v, floor, lag, t.counter);
    PutRow(hist, acked, t, n, reg, floor, lag);
  }

  lemma ServeOk(hist: seq<Pass>, acked: Acked, t: Tier, n: string, v: View, full: bool, floor: nat, lag: nat)
    requires TierOk(hist, acked, t, floor, lag) && n in t.streams
    requires ViewOk(hist, v, floor, lag, t.counter) && v.scope == t.streams[n].scope
    ensures TierOk(hist, acked, Serve(t, n, v, full), floor, lag)
  {
    var st := t.streams[n];
    assert StreamOk(hist, acked, st, floor, lag, t.counter);
    if full || (st.pending.None? && st.baseline != Some(v.world)) {
      PutStream(hist, acked, t, n, st.(call := NoCall, pending := Some(v)), floor, lag);
    } else {
      PutStream(hist, acked, t, n, st.(call := NoCall), floor, lag);
      if st.pending.None? {
        AdvanceOk(hist, acked, WithCall(t, n, NoCall), n, v, floor, lag);
      }
    }
  }

  lemma CallStepOk(hist: seq<Pass>, acked: Acked, t: Tier, n: string, call: Call, floor: nat, lag: nat)
    requires TierOk(hist, acked, t, floor, lag) && n in t.streams
    requires CallOk(hist, call, floor, lag, t.counter) && (call.Absent? ==> t.streams[n].scope.Gateway?)
    ensures TierOk(hist, acked, WithCall(t, n, call), floor, lag)
  {
    assert StreamOk(hist, acked, t.streams[n], floor, lag, t.counter);
    PutStream(hist, acked, t, n, t.streams[n].(call := call), floor, lag);
  }

  /** What a read adds to a build is at least as new as the capture. */
  lemma ReadOk(hist: seq<Pass>, acked: Acked, t: Tier, n: string, cs: set<Cell>, floor: nat, lag: nat)
    requires TierOk(hist, acked, t, floor, lag) && InCall(t, n) && t.streams[n].call.Building?
    ensures TierOk(hist, acked, LookupDo(t, Read(n, cs)), floor, lag)
  {
    var call := t.streams[n].call;
    var loaded := map c | c in t.cells && c in cs && Covers(t.streams[n].scope, c) :: t.cells[c];
    assert StreamOk(hist, acked, t.streams[n], floor, lag, t.counter);
    if call.captured > floor {
      AtLeastGrows(hist, hist, t.cells, t.counter, lag, call.captured, lag);
    }
    CallStepOk(hist, acked, t, n, call.(got := call.got + loaded), floor, lag);
  }

  lemma BuiltOk(hist: seq<Pass>, acked: Acked, st: Stream, version: string, floor: nat, lag: nat, top: nat)
    requires StreamOk(hist, acked, st, floor, lag, top) && Built(st, version).Some?
    ensures Built(st, version).value.scope == st.scope
    ensures ViewOk(hist, Built(st, version).value, floor, lag, top)
  {
  }

  lemma StoreOk(hist: seq<Pass>, acked: Acked, t: Tier, n: string, version: string, full: bool, floor: nat, lag: nat)
    requires TierOk(hist, acked, t, floor, lag) && InCall(t, n) && Built(t.streams[n], version).Some?
    ensures TierOk(hist, acked, LookupDo(t, Store(n, version, full)), floor, lag)
  {
    assert StreamOk(hist, acked, t.streams[n], floor, lag, t.counter);
    BuiltOk(hist, acked, t.streams[n], version, floor, lag, t.counter);
    if Cached(t, n) {
      ServeOk(hist, acked, t, n, t.slots[t.streams[n].scope].view, full, floor, lag);
    } else {
      var v, g := Built(t.streams[n], version).value, t.streams[n].call.generation;
      PutSlot(hist, acked, t, g, v, floor, lag);
      ServeOk(hist, acked, t.(slots := t.slots[v.scope := Slot(g, v)]), n, v, full, floor, lag);
    }
  }

  lemma LookupOk(hist: seq<Pass>, acked: Acked, t: Tier, step: TierStep, floor: nat, lag: nat)
    requires TierOk(hist, acked, t, floor, lag) && IsLookup(step)
    ensures TierOk(hist, acked, LookupDo(t, step), floor, lag)
  {
    var n := step.node;
    if LookupDo(t, step) != t {
      match step
      case Hit(_, full) => ServeOk(hist, acked, t, n, t.slots[t.streams[n].scope].view, full, floor, lag);
      case Read(_, cs) => ReadOk(hist, acked, t, n, cs, floor, lag);
      case Store(_, version, full) => StoreOk(hist, acked, t, n, version, full, floor, lag);
      case Deny(_, version, full) =>
        ServeOk(hist, acked, t, n, View(t.streams[n].scope, version, 0, map[]), full, floor, lag);
      case Wake(_) => CallStepOk(hist, acked, t, n, Holding(t.generation), floor, lag);
      case Sleep(_) => CallStepOk(hist, acked, t, n, NoCall, floor, lag);
      case Miss(_) => CallStepOk(hist, acked, t, n, Missed(t.streams[n].call.generation), floor, lag);
      case Capture(_) =>
        CallStepOk(hist, acked, t, n, Building(t.streams[n].call.generation, t.counter, map[]), floor, lag);
      case ReadAbsent(_) => CallStepOk(hist, acked, t, n, Absent(t.streams[n].call.generation), floor, lag);
    }
  }

  // ---- One server: nodes ----

  lemma AckOk(hist: seq<Pass>, acked: Acked, t: Tier, session: nat, n: string, now: nat, floor: nat, lag: nat)
    requires TierOk(hist, acked, t, floor, lag)
    requires InCall(t, n) && t.streams[n].call.Holding? && t.streams[n].pending.Some?
    ensures TierOk(hist, AckedBy(acked, t, Ack(n, now)), NodeDo(t, session, Ack(n, now)), floor, lag)
  {
    var acked' := AckedBy(acked, t, Ack(n, now));
    assert Extends(hist, acked, hist, acked');
    TierGrows(hist, acked, t, hist, acked', t, floor, lag);
    var st, v := t.streams[n], t.streams[n].pending.value;
    assert StreamOk(hist, acked', st, floor, lag, t.counter);
    var st' := st.(pending := None, baseline := Some(v.world));
    assert StreamOk(hist, acked', st', floor, lag, t.counter);
    PutStream(hist, acked', t, n, st', floor, lag);
    var reg := R.Step(t.registry, R.RecordAck(n, v.version, v.seqNo, now));
    RaisedOk(hist, acked', st', t.registry.nodes[n], reg.nodes[n], v, floor, lag, t.counter);
    PutRow(hist, acked', WithStream(t, n, st'), n, reg, floor, lag);
  }

  /** An update of a direct row that leaves its place and its sequence alone. */
  lemma SameSequenceOk(hist: seq<Pass>, acked: Acked, t: Tier, n: string, reg: R.Registry, floor: nat, lag: nat)
    requires TierOk(hist, acked, t, floor, lag) && n in t.streams
    requires n in reg.nodes && reg.nodes == t.registry.nodes[n := reg.nodes[n]]
    requires var e, e' := t.registry.nodes[n], reg.nodes[n];
             e'.parent == e.parent && e'.scope == e.scope && GetOr(e'.lastAckedSeq, 0) == GetOr(e.lastAckedSeq, 0)
    ensures TierOk(hist, acked, t.(registry := reg), floor, lag)
  {
    assert DirectOk(hist, acked, t.streams[n], t.registry.nodes[n], floor, lag, t.counter);
    PutRow(hist, acked, t, n, reg, floor, lag);
  }

  lemma ConnectOk(hist: seq<Pass>, acked: Acked, t: Tier, session: nat, n: string, scope: R.NodeScope, now: nat,
                  floor: nat, lag: nat)
    requires TierOk(hist, acked, t, floor, lag)
    ensures TierOk(hist, acked, NodeDo(t, session, Connect(n, scope, now)), floor, lag)
  {
    var t' := NodeDo(t, session, Connect(n, scope, now));
    assert StreamOk(hist, acked, t'.streams[n], floor, lag, t.counter);
    assert DirectOk(hist, acked, t'.streams[n], t'.registry.nodes[n], floor, lag, t.counter);
  }

  lemma EvictOk(hist: seq<Pass>, acked: Acked, t: Tier, session: nat, n: string, floor: nat, lag: nat)
    requires TierOk(hist, acked, t, floor, lag)
    ensures TierOk(hist, acked, NodeDo(t, session, Evict(n)), floor, lag)
  {
    var t' := NodeDo(t, session, Evict(n));
    forall m | m in t.streams
      ensures m in t'.registry.nodes && t'.registry.nodes[m] == t.registry.nodes[m]
    {
      assert DirectOk(hist, acked, t.streams[m], t.registry.nodes[m], floor, lag, t.counter);
    }
  }

  lemma NodeStepOk(hist: seq<Pass>, acked: Acked, t: Tier, session: nat, step: TierStep, floor: nat, lag: nat)
    requires TierOk(hist, acked, t, floor, lag) && !IsLookup(step)
    ensures TierOk(hist, AckedBy(acked, t, step), NodeDo(t, session, step), floor, lag)
  {
    if NodeDo(t, session, step) != t {
      var n := step.node;
      match step
      case Connect(_, scope, now) => ConnectOk(hist, acked, t, session, n, scope, now, floor, lag);
      case Ack(_, now) => AckOk(hist, acked, t, session, n, now, floor, lag);
      case StaleAck(_, version, now) =>
        SameSequenceOk(hist, acked, t, n, R.Step(t.registry, R.RecordAck(n, version, 0, now)), floor, lag);
      case Disconnect(_) =>
      case Evict(_) => EvictOk(hist, acked, t, session, n, floor, lag);
      case Target(_, version) =>
        SameSequenceOk(hist, acked, t, n, R.Step(t.registry, R.RecordTarget(n, version)), floor, lag);
      case Ports(_, ports) =>
        SameSequenceOk(hist, acked, t, n, R.Step(t.registry, R.RecordBoundPorts(n, ports)), floor, lag);
    }
  }

  lemma TierStepOk(hist: seq<Pass>, acked: Acked, t: Tier, session: nat, step: TierStep, floor: nat, lag: nat)
    requires TierOk(hist, acked, t, floor, lag)
    ensures TierOk(hist, AckedBy(acked, t, step), TierDo(t, session, step), floor, lag)
    ensures Extends(hist, acked, hist, AckedBy(acked, t, step))
  {
    if IsLookup(step) {
      LookupOk(hist, acked, t, step, floor, lag);
    } else {
      NodeStepOk(hist, acked, t, session, step, floor, lag);
    }
  }
}
