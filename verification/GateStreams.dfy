/** What the controller serves its streams never trails what they hold by more than one rebuild. */
module GateStreams {
  import opened Options
  import opened PublishIndex
  import opened ConvergenceGate
  import opened GateInvariant
  import opened GateProofs
  import R = NodeRegistry
  import RegistryGate

  // ---- Frames ----

  lemma TierFrame(t: Tier, session: nat, step: TierStep)
    ensures var t' := TierDo(t, session, step);
            t'.cells == t.cells && t'.counter == t.counter && t'.generation == t.generation
  {
  }

  /** A lookup touches one stream, and at most the sequence of its row. */
  ghost predicate OneStream(t: Tier, t': Tier, n: string) {
    && n in t.streams && n in t'.streams && t'.streams == t.streams[n := t'.streams[n]]
    && (t'.registry.nodes == t.registry.nodes ||
        (n in t.registry.nodes && n in t'.registry.nodes
         && t'.registry.nodes == t.registry.nodes[n := t'.registry.nodes[n]]
         && t'.registry.nodes[n].parent == t.registry.nodes[n].parent))
  }

  lemma ServeFrame(t: Tier, n: string, v: View, full: bool)
    requires n in t.streams
    ensures OneStream(t, Serve(t, n, v, full), n) && Serve(t, n, v, full).slots == t.slots
  {
    assert t.streams == t.streams[n := t.streams[n]];
  }

  lemma LookupFrame(t: Tier, step: TierStep)
    requires IsLookup(step)
    ensures LookupDo(t, step) == t || OneStream(t, LookupDo(t, step), step.node)
    ensures step.Store? || LookupDo(t, step).slots == t.slots
  {
    var n := step.node;
    if LookupDo(t, step) != t {
      match step
      case Hit(_, full) => ServeFrame(t, n, t.slots[t.streams[n].scope].view, full);
      case Store(_, version, full) =>
        if Cached(t, n) {
          ServeFrame(t, n, t.slots[t.streams[n].scope].view, full);
        } else {
          var v := Built(t.streams[n], version).value;
          ServeFrame(t.(slots := t.slots[v.scope := Slot(t.streams[n].call.generation, v)]), n, v, full);
        }
      case Deny(_, version, full) => ServeFrame(t, n, View(t.streams[n].scope, version, 0, map[]), full);
      case _ =>
    }
  }

  lemma OtherRow(reg: R.Registry, op: R.Op, m: string)
    requires !op.ApplyRoster? && m != op.nodeId && m in reg.nodes && reg.nodes[m].parent.None?
    ensures m in R.Step(reg, op).nodes && R.Step(reg, op).nodes[m] == reg.nodes[m]
  {
  }

  lemma OtherNodeStep(hist: seq<Pass>, acked: Acked, t: Tier, session: nat, step: TierStep, m: string)
    requires TierOk(hist, acked, t, 0, 0) && !IsLookup(step)
    requires m != step.node && m in NodeDo(t, session, step).streams
    ensures m in t.streams && NodeDo(t, session, step).streams[m] == t.streams[m]
    ensures Credit(NodeDo(t, session, step), m) == Credit(t, m)
  {
    assert m in t.streams;
    assert DirectOk(hist, acked, t.streams[m], t.registry.nodes[m], 0, 0, t.counter);
    match step
    case Connect(n, scope, now) => OtherRow(t.registry, R.Connect(n, scope, now), m);
    case Evict(n) => OtherRow(t.registry, R.EvictChildren(n), m);
    case Disconnect(n) => OtherRow(t.registry, R.Disconnect(n), m);
    case Target(n, version) => OtherRow(t.registry, R.RecordTarget(n, version), m);
    case Ports(n, ports) => OtherRow(t.registry, R.RecordBoundPorts(n, ports), m);
    case _ =>
  }

  /** A step about one node leaves the stream and the row of every other connected node alone. */
  lemma OtherNode(hist: seq<Pass>, acked: Acked, t: Tier, session: nat, step: TierStep, m: string)
    requires TierOk(hist, acked, t, 0, 0) && m != step.node && m in TierDo(t, session, step).streams
    ensures m in t.streams && TierDo(t, session, step).streams[m] == t.streams[m]
    ensures Credit(TierDo(t, session, step), m) == Credit(t, m)
  {
    if IsLookup(step) {
      LookupFrame(t, step);
    } else {
      OtherNodeStep(hist, acked, t, session, step, m);
    }
  }

  lemma NodeRowFrame(t: Tier, session: nat, step: TierStep, id: string)
    requires !IsLookup(step)
    requires step.node in t.streams && step.node in t.registry.nodes ==> t.registry.nodes[step.node].parent.None?
    requires step.node in t.streams ==> step.node in t.registry.nodes
    requires var nodes' := NodeDo(t, session, step).registry.nodes; id in nodes' && nodes'[id].parent.Some?
    ensures id in t.registry.nodes && NodeDo(t, session, step).registry.nodes[id] == t.registry.nodes[id]
  {
  }

  /** Steps touch folded rows only to remove them. */
  lemma FoldedFrame(hist: seq<Pass>, acked: Acked, t: Tier, session: nat, step: TierStep, id: string, floor: nat,
                    lag: nat)
    requires TierOk(hist, acked, t, floor, lag)
    requires var nodes' := TierDo(t, session, step).registry.nodes; id in nodes' && nodes'[id].parent.Some?
    ensures id in t.registry.nodes && TierDo(t, session, step).registry.nodes[id] == t.registry.nodes[id]
  {
    var n := step.node;
    if n in t.streams {
      assert DirectOk(hist, acked, t.streams[n], t.registry.nodes[n], floor, lag, t.counter);
    }
    if IsLookup(step) {
      LookupFrame(t, step);
    } else {
      NodeRowFrame(t, session, step, id);
    }
  }

  // ---- Streams of the controller ----

  /** A lookup that started from generation `g` serves what its node may be served. */
  lemma PushMarked(hist: seq<Pass>, st: Stream, v: View, credit: nat, mark: nat, counter: nat, generation: nat)
    requires MarkOk(hist, st, credit, mark, counter, generation) && !st.call.NoCall?
    requires Since(hist, v.world, st.call.generation)
    requires v.world != map[] ==> st.call.generation <= 2 * v.seqNo + 1
    ensures MarkOk(hist, st.(call := NoCall, pending := Some(v)), credit, mark, counter, generation)
    ensures MarkOk(hist, st.(call := NoCall), credit, mark, counter, generation)
  {
    SinceIsAtLeast(hist, v.world, st.call.generation, mark);
  }

  lemma AdvanceMarked(hist: seq<Pass>, st: Stream, v: View, credit: nat, mark: nat, counter: nat, generation: nat)
    requires MarkOk(hist, st, credit, mark, counter, generation)
    requires ViewOk(hist, v, 0, 0, counter) && st.pending.None? && st.baseline == Some(v.world)
    ensures MarkOk(hist, st.(call := NoCall), Max(credit, v.seqNo), Max(mark, v.seqNo), counter, generation)
  {
    if v.seqNo > 0 {
      AtLeastGrows(hist, hist, v.world, v.seqNo, 0, v.seqNo, 1);
    }
  }

  /** `n`'s stream is in order in `t`. */
  ghost predicate Marked(hist: seq<Pass>, t: Tier, relays: map<string, Relay>, n: string)
    requires n in t.streams
  {
    MarkOk(hist, t.streams[n], Credit(t, n), Mark(t, relays, n), t.counter, t.generation)
  }

  lemma ServeMarked(hist: seq<Pass>, acked: Acked, t: Tier, relays: map<string, Relay>, n: string, v: View, full: bool)
    requires TierOk(hist, acked, t, 0, 0) && InCall(t, n) && Marked(hist, t, relays, n)
    requires ViewOk(hist, v, 0, 0, t.counter)
    requires Since(hist, v.world, t.streams[n].call.generation)
    requires v.world != map[] ==> t.streams[n].call.generation <= 2 * v.seqNo + 1
    ensures Marked(hist, Serve(t, n, v, full), relays, n)
  {
    var st := t.streams[n];
    PushMarked(hist, st, v, Credit(t, n), Mark(t, relays, n), t.counter, t.generation);
    if !full && st.pending.None? && st.baseline == Some(v.world) {
      AdvanceMarked(hist, st, v, Credit(t, n), Mark(t, relays, n), t.counter, t.generation);
      assert n in t.registry.nodes;
    }
  }

  /** What a finished build holds, relative to the generation it started from. */
  lemma BuiltSince(hist: seq<Pass>, st: Stream, version: string, credit: nat, mark: nat, counter: nat, generation: nat)
    requires MarkOk(hist, st, credit, mark, counter, generation) && Built(st, version).Some?
    ensures Since(hist, Built(st, version).value.world, st.call.generation)
    ensures Built(st, version).value.world != map[] ==>
              st.call.generation <= 2 * Built(st, version).value.seqNo + 1
  {
  }

  lemma HitMarked(hist: seq<Pass>, acked: Acked, t: Tier, relays: map<string, Relay>, n: string, full: bool)
    requires TierOk(hist, acked, t, 0, 0) && SlotsOk(hist, t) && InCall(t, n) && Cached(t, n)
    requires Marked(hist, t, relays, n)
    ensures Marked(hist, Serve(t, n, t.slots[t.streams[n].scope].view, full), relays, n)
  {
    var slot := t.slots[t.streams[n].scope];
    assert SlotSince(hist, slot);
    SinceGrows(hist, hist, slot.view.world, slot.tag, t.streams[n].call.generation);
    ServeMarked(hist, acked, t, relays, n, slot.view, full);
  }

  lemma BuildStored(hist: seq<Pass>, acked: Acked, t: Tier, relays: map<string, Relay>, n: string, version: string,
                    full: bool)
    requires TierOk(hist, acked, t, 0, 0) && InCall(t, n) && Built(t.streams[n], version).Some?
    requires Marked(hist, t, relays, n) && SlotsOk(hist, t)
    ensures var v := Built(t.streams[n], version).value;
            var t1 := t.(slots := t.slots[v.scope := Slot(t.streams[n].call.generation, v)]);
            SlotsOk(hist, t1) && Marked(hist, Serve(t1, n, v, full), relays, n)
  {
    var st, g := t.streams[n], t.streams[n].call.generation;
    var v := Built(st, version).value;
    BuiltSince(hist, st, version, Credit(t, n), Mark(t, relays, n), t.counter, t.generation);
    assert StreamOk(hist, acked, st, 0, 0, t.counter);
    BuiltOk(hist, acked, st, version, 0, 0, t.counter);
    PutSlot(hist, acked, t, g, v, 0, 0);
    ServeMarked(hist, acked, t.(slots := t.slots[v.scope := Slot(g, v)]), relays, n, v, full);
  }

  lemma StoreMarked(hist: seq<Pass>, acked: Acked, t: Tier, relays: map<string, Relay>, n: string, version: string,
                    full: bool)
    requires TierOk(hist, acked, t, 0, 0) && SlotsOk(hist, t) && InCall(t, n) && Built(t.streams[n], version).Some?
    requires Marked(hist, t, relays, n)
    ensures n in LookupDo(t, Store(n, version, full)).streams
    ensures Marked(hist, LookupDo(t, Store(n, version, full)), relays, n)
  {
    if Cached(t, n) {
      HitMarked(hist, acked, t, relays, n, full);
    } else {
      BuildStored(hist, acked, t, relays, n, version, full);
    }
  }

  lemma StoreSlots(hist: seq<Pass>, acked: Acked, t: Tier, relays: map<string, Relay>, n: string, version: string,
                   full: bool)
    requires TierOk(hist, acked, t, 0, 0) && SlotsOk(hist, t) && InCall(t, n) && Built(t.streams[n], version).Some?
    requires Marked(hist, t, relays, n)
    ensures SlotsOk(hist, LookupDo(t, Store(n, version, full)))
  {
    if Cached(t, n) {
      ServeFrame(t, n, t.slots[t.streams[n].scope].view, full);
    } else {
      var v := Built(t.streams[n], version).value;
      BuildStored(hist, acked, t, relays, n, version, full);
      ServeFrame(t.(slots := t.slots[v.scope := Slot(t.streams[n].call.generation, v)]), n, v, full);
    }
  }

  /** Reading cells while the watch stands at or past the generation read. */
  lemma ReadMarked(hist: seq<Pass>, t: Tier, relays: map<string, Relay>, n: string, cs: set<Cell>)
    requires Since(hist, t.cells, t.generation) && InCall(t, n) && t.streams[n].call.Building?
    requires Marked(hist, t, relays, n)
    ensures Marked(hist, LookupDo(t, Read(n, cs)), relays, n)
  {
    SinceGrows(hist, hist, t.cells, t.generation, t.streams[n].call.generation);
  }

  ghost predicate Ticking(t: Tier) {
    2 * t.counter - 1 <= t.generation <= 2 * t.counter + 1
  }

  /** Starting a lookup, giving it up, and the stages of a build before its reads. */
  lemma StageMarked(hist: seq<Pass>, t: Tier, relays: map<string, Relay>, step: TierStep)
    requires step.Wake? || step.Sleep? || step.Miss? || step.Capture? || step.ReadAbsent?
    requires step.node in t.streams && Ticking(t) && Marked(hist, t, relays, step.node)
    requires t.streams[step.node].pending.Some? ==> t.streams[step.node].pending.value.seqNo <= t.counter
    ensures step.node in LookupDo(t, step).streams && Marked(hist, LookupDo(t, step), relays, step.node)
  {
  }

  lemma LookupMarked(hist: seq<Pass>, acked: Acked, t: Tier, relays: map<string, Relay>, step: TierStep)
    requires TierOk(hist, acked, t, 0, 0) && SlotsOk(hist, t) && IsLookup(step) && step.node in t.streams
    requires Ticking(t) && Since(hist, t.cells, t.generation) && Marked(hist, t, relays, step.node)
    requires LookupDo(t, step) != t
    ensures step.node in LookupDo(t, step).streams && Marked(hist, LookupDo(t, step), relays, step.node)
  {
    var n := step.node;
    assert StreamOk(hist, acked, t.streams[n], 0, 0, t.counter);
    match step
    case Hit(_, full) => HitMarked(hist, acked, t, relays, n, full);
    case Read(_, cs) => ReadMarked(hist, t, relays, n, cs);
    case Store(_, version, full) => StoreMarked(hist, acked, t, relays, n, version, full);
    case Deny(_, version, full) =>
      ServeMarked(hist, acked, t, relays, n, View(t.streams[n].scope, version, 0, map[]), full);
    case _ => StageMarked(hist, t, relays, step);
  }

  lemma LookupSlots(hist: seq<Pass>, acked: Acked, t: Tier, relays: map<string, Relay>, step: TierStep)
    requires TierOk(hist, acked, t, 0, 0) && SlotsOk(hist, t) && IsLookup(step) && step.node in t.streams
    requires Marked(hist, t, relays, step.node) && LookupDo(t, step) != t
    ensures SlotsOk(hist, LookupDo(t, step))
  {
    if step.Store? {
      StoreSlots(hist, acked, t, relays, step.node, step.version, step.full);
    } else {
      LookupFrame(t, step);
    }
  }

  lemma AckMarked(hist: seq<Pass>, acked: Acked, t: Tier, session: nat, relays: map<string, Relay>, n: string, now: nat)
    requires TierOk(hist, acked, t, 0, 0)
    requires InCall(t, n) && t.streams[n].call.Holding? && t.streams[n].pending.Some?
    requires Marked(hist, t, relays, n)
    ensures Marked(hist, NodeDo(t, session, Ack(n, now)), relays, n)
  {
    var st, v := t.streams[n], t.streams[n].pending.value;
    assert StreamOk(hist, acked, st, 0, 0, t.counter);
    assert n in t.registry.nodes;
    var t' := NodeDo(t, session, Ack(n, now));
    assert t'.streams[n] == st.(pending := None, baseline := Some(v.world));
    assert Credit(t', n) == Max(Credit(t, n), v.seqNo);
    AckedMark(hist, st, v, Credit(t, n), if n in relays then RelayMark(relays[n]) else 0, t.counter, t.generation);
  }

  lemma AckedMark(hist: seq<Pass>, st: Stream, v: View, credit: nat, held: nat, counter: nat, generation: nat)
    requires st.call.Holding? && st.pending == Some(v) && ViewOk(hist, v, 0, 0, counter)
    requires MarkOk(hist, st, credit, Max(credit, held), counter, generation)
    ensures var credit' := Max(credit, v.seqNo);
            MarkOk(hist, st.(pending := None, baseline := Some(v.world)), credit', Max(credit', held), counter,
                   generation)
  {
    AtLeastGrows(hist, hist, v.world, Max(credit, held), 1, credit, 1);
    if v.seqNo > 0 {
      AtLeastGrows(hist, hist, v.world, v.seqNo, 0, v.seqNo, 1);
    }
  }

  lemma NodeMarked(hist: seq<Pass>, acked: Acked, t: Tier, session: nat, relays: map<string, Relay>, step: TierStep)
    requires TierOk(hist, acked, t, 0, 0) && !IsLookup(step) && step.node in NodeDo(t, session, step).streams
    requires step.node in t.streams ==> Marked(hist, t, relays, step.node)
    requires step.node in relays ==> RelayMark(relays[step.node]) <= t.counter
    ensures Marked(hist, NodeDo(t, session, step), relays, step.node)
  {
    var n := step.node;
    if step.Ack? && InCall(t, n) && t.streams[n].call.Holding? && t.streams[n].pending.Some? {
      AckMarked(hist, acked, t, session, relays, n, step.now);
    } else if !step.Connect? {
      assert DirectOk(hist, acked, t.streams[n], t.registry.nodes[n], 0, 0, t.counter);
      assert Credit(NodeDo(t, session, step), n) == Credit(t, n);
    }
  }

  lemma RootMarks(s: State, ts: TierStep)
    requires Inv(s)
    ensures var root' := TierDo(s.root, s.sessions, ts);
            SlotsOk(s.hist, root') && MarksOk(s.hist, root', s.relays)
  {
    var t, t' := s.root, TierDo(s.root, s.sessions, ts);
    TierFrame(t, s.sessions, ts);
    RootServes(s.hist, s.phase, t.cells, t.counter, t.generation);
    assert SlotsOk(s.hist, t') by {
      if IsLookup(ts) && t' != t {
        LookupFrame(t, ts);
        LookupSlots(s.hist, s.acked, t, s.relays, ts);
      }
    }
    forall m | m in t'.streams
      ensures MarkOk(s.hist, t'.streams[m], Credit(t', m), Mark(t', s.relays, m), t'.counter, t'.generation)
    {
      if m != ts.node {
        OtherNode(s.hist, s.acked, t, s.sessions, ts, m);
      } else if t' == t {
      } else if IsLookup(ts) {
        LookupFrame(t, ts);
        LookupMarked(s.hist, s.acked, t, s.relays, ts);
      } else {
        assert m in s.relays ==> RelayOk(s.hist, s.acked, s.relays[m], t.counter);
        NodeMarked(s.hist, s.acked, t, s.sessions, s.relays, ts);
      }
    }
  }
}
