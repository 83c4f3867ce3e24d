/** Relays, reports and the replacement of a controller keep the invariant; hence the gate is sound. */
module GateSoundness {
  import opened Options
  import opened PublishIndex
  import opened ConvergenceGate
  import opened GateInvariant
  import opened GateProofs
  import opened GateStreams
  import R = NodeRegistry
  import RegistryGate

  // ---- The controller's server ----

  lemma RootFolded(s: State, ts: TierStep)
    requires Inv(s)
    ensures FoldedOk(s.hist, AckedBy(s.acked, s.root, ts), s.origins, TierDo(s.root, s.sessions, ts).registry.nodes)
  {
    var acked', nodes' := AckedBy(s.acked, s.root, ts), TierDo(s.root, s.sessions, ts).registry.nodes;
    TierStepOk(s.hist, s.acked, s.root, s.sessions, ts, 0, 0);
    FoldedGrows(s.hist, s.acked, s.hist, acked', s.origins, s.root.registry.nodes);
    forall id | id in nodes' && nodes'[id].parent.Some?
      ensures id in s.origins && RowOk(s.hist, acked', s.origins[id].session, nodes'[id].scope, nodes'[id].lastAckedSeq,
                                       s.origins[id].carried, 1)
    {
      FoldedFrame(s.hist, s.acked, s.root, s.sessions, ts, id, 0, 0);
    }
  }

  lemma UnlinkedOk(hist: seq<Pass>, acked: Acked, relays: map<string, Relay>, top: nat, ts: TierStep)
    requires RelaysOk(hist, acked, relays, top)
    ensures RelaysOk(hist, acked, Unlinked(relays, ts), top)
    ensures forall r :: r in Unlinked(relays, ts) <==> r in relays
    ensures forall r :: r in relays ==> RelayMark(Unlinked(relays, ts)[r]) == RelayMark(relays[r])
  {
    if (ts.Connect? || ts.Disconnect?) && ts.node in relays {
      assert RelayOk(hist, acked, relays[ts.node], top);
      assert RelayOk(hist, acked, relays[ts.node].(outbox := []), top);
    }
  }

  /** Marks read a relay only through its own mark. */
  lemma SameMarks(hist: seq<Pass>, root: Tier, relays: map<string, Relay>, relays': map<string, Relay>)
    requires MarksOk(hist, root, relays)
    requires forall n :: n in root.streams ==> (n in relays' <==> n in relays)
    requires forall n :: n in root.streams && n in relays ==> RelayMark(relays'[n]) == RelayMark(relays[n])
    ensures MarksOk(hist, root, relays')
  {
    forall n | n in root.streams
      ensures MarkOk(hist, root.streams[n], Credit(root, n), Mark(root, relays', n), root.counter, root.generation)
    {
      assert Mark(root, relays', n) == Mark(root, relays, n);
    }
  }

  lemma RootStepOk(s: State, ts: TierStep)
    requires Inv(s)
    ensures Inv(Do(s, AtRoot(ts)))
  {
    var s' := Do(s, AtRoot(ts));
    TierStepOk(s.hist, s.acked, s.root, s.sessions, ts, 0, 0);
    TierFrame(s.root, s.sessions, ts);
    RootMarks(s, ts);
    RelaysGrow(s.hist, s.acked, s.hist, s'.acked, s.relays, s.root.counter, s.root.counter);
    UnlinkedOk(s.hist, s'.acked, s.relays, s.root.counter, ts);
    SameMarks(s.hist, s'.root, s.relays, s'.relays);
    RootFolded(s, ts);
    StampsKept(s, s');
  }

  // ---- One relay at a time ----

  /** Replacing one relay, with more acks perhaps, keeps the rest. */
  lemma PlugRelay(s: State, r: string, x: Relay, acked': Acked, sessions': nat)
    requires Inv(s) && Extends(s.hist, s.acked, s.hist, acked') && RelayOk(s.hist, acked', x, s.root.counter)
    requires r in s.root.streams ==>
      MarkOk(s.hist, s.root.streams[r], Credit(s.root, r), Max(Credit(s.root, r), RelayMark(x)),
             s.root.counter, s.root.generation)
    ensures Inv(s.(relays := s.relays[r := x], acked := acked', sessions := sessions'))
  {
    var s' := s.(relays := s.relays[r := x], acked := acked', sessions := sessions');
    TierGrows(s.hist, s.acked, s.root, s.hist, acked', s.root, 0, 0);
    RelaysGrow(s.hist, s.acked, s.hist, acked', s.relays, s.root.counter, s.root.counter);
    FoldedGrows(s.hist, s.acked, s.hist, acked', s.origins, s.root.registry.nodes);
    forall n | n in s.root.streams
      ensures MarkOk(s.hist, s.root.streams[n], Credit(s.root, n), Mark(s.root, s'.relays, n), s.root.counter,
                     s.root.generation)
    {
      assert n != r ==> Mark(s.root, s'.relays, n) == Mark(s.root, s.relays, n);
    }
    StampsKept(s, s');
  }

  /** A relay whose mark stands still. */
  lemma PlugSame(s: State, r: string, x: Relay)
    requires Inv(s) && r in s.relays && RelayOk(s.hist, s.acked, x, s.root.counter)
    requires RelayMark(x) == RelayMark(s.relays[r])
    ensures Inv(WithRelay(s, r, x))
  {
    PlugRelay(s, r, x, s.acked, s.sessions);
  }

  lemma RelayTierOk(hist: seq<Pass>, acked: Acked, x: Relay, session: nat, ts: TierStep, top: nat)
    requires RelayOk(hist, acked, x, top)
    ensures RelayOk(hist, AckedBy(acked, x.tier, ts), x.(tier := TierDo(x.tier, session, ts)), top)
    ensures RelayMark(x.(tier := TierDo(x.tier, session, ts))) == RelayMark(x)
  {
    var acked', t' := AckedBy(acked, x.tier, ts), TierDo(x.tier, session, ts);
    TierStepOk(hist, acked, x.tier, session, ts, x.carried, 1);
    TierFrame(x.tier, session, ts);
    RelayGrows(hist, acked, hist, acked', x, top, top);
    forall id | id in t'.registry.nodes ensures t'.registry.nodes[id].parent.None? {
      if t'.registry.nodes[id].parent.Some? {
        FoldedFrame(hist, acked, x.tier, session, ts, id, x.carried, 1);
      }
    }
  }

  lemma RelayStepOk(s: State, r: string, ts: TierStep)
    requires Inv(s) && r in s.relays
    ensures var x := s.relays[r];
            Inv(s.(relays := s.relays[r := x.(tier := TierDo(x.tier, s.sessions, ts))],
                   acked := AckedBy(s.acked, x.tier, ts), sessions := NextSession(s.sessions, ts)))
  {
    var x := s.relays[r];
    assert RelayOk(s.hist, s.acked, x, s.root.counter);
    RelayTierOk(s.hist, s.acked, x, s.sessions, ts, s.root.counter);
    TierStepOk(s.hist, s.acked, x.tier, s.sessions, ts, x.carried, 1);
    PlugRelay(s, r, x.(tier := TierDo(x.tier, s.sessions, ts)), AckedBy(s.acked, x.tier, ts),
              NextSession(s.sessions, ts));
  }

  // ---- Applying a view ----

  lemma BeginRelay(hist: seq<Pass>, acked: Acked, x: Relay, st: Stream, top: nat, credit: nat, mark: nat,
                   generation: nat)
    requires RelayOk(hist, acked, x, top) && StreamOk(hist, acked, st, 0, 0, top)
    requires MarkOk(hist, st, credit, mark, top, generation) && RelayMark(x) <= mark
    ensures RelayOk(hist, acked, BeginApplyOn(x, st), top)
  {
    if x.applying.None? && st.scope == R.SharedPool && st.pending.Some? {
      AtLeastGrows(hist, hist, st.pending.value.world, mark, 1, RelayMark(x), 1);
    }
  }

  /** A view that starts being applied raises its relay's mark to its own sequence. */
  lemma BeginMarked(hist: seq<Pass>, st: Stream, top: nat, credit: nat, mark: nat, generation: nat)
    requires MarkOk(hist, st, credit, mark, top, generation)
    requires st.pending.Some? && ViewOk(hist, st.pending.value, 0, 0, top)
    ensures MarkOk(hist, st, credit, Max(mark, st.pending.value.seqNo), top, generation)
  {
    var v := st.pending.value;
    if v.seqNo > 0 {
      AtLeastGrows(hist, hist, v.world, v.seqNo, 0, v.seqNo, 1);
    }
  }

  lemma LowerMark(hist: seq<Pass>, st: Stream, top: nat, credit: nat, mark: nat, mark': nat, generation: nat)
    requires MarkOk(hist, st, credit, mark, top, generation) && credit <= mark' <= mark
    ensures MarkOk(hist, st, credit, mark', top, generation)
  {
    if st.pending.Some? {
      AtLeastGrows(hist, hist, st.pending.value.world, mark, 1, mark', 1);
    }
  }

  lemma BegunMark(hist: seq<Pass>, x: Relay, st: Stream, top: nat, credit: nat, generation: nat)
    requires MarkOk(hist, st, credit, Max(credit, RelayMark(x)), top, generation)
    requires st.pending.Some? ==> ViewOk(hist, st.pending.value, 0, 0, top)
    ensures MarkOk(hist, st, credit, Max(credit, RelayMark(BeginApplyOn(x, st))), top, generation)
  {
    var x', mark := BeginApplyOn(x, st), Max(credit, RelayMark(x));
    if x.applying.None? && st.scope == R.SharedPool && st.pending.Some? {
      BeginMarked(hist, st, top, credit, mark, generation);
      LowerMark(hist, st, top, credit, Max(mark, st.pending.value.seqNo), Max(credit, RelayMark(x')), generation);
    }
  }

  lemma BeginApplyOk(s: State, r: string)
    requires Inv(s) && r in s.relays && r in s.root.streams
    ensures Inv(WithRelay(s, r, BeginApplyOn(s.relays[r], s.root.streams[r])))
  {
    var x, st, top := s.relays[r], s.root.streams[r], s.root.counter;
    var credit, mark := Credit(s.root, r), Mark(s.root, s.relays, r);
    assert RelayOk(s.hist, s.acked, x, top) && StreamOk(s.hist, s.acked, st, 0, 0, top);
    BeginRelay(s.hist, s.acked, x, st, top, credit, mark, s.root.generation);
    BegunMark(s.hist, x, st, top, credit, s.root.generation);
    PlugRelay(s, r, BeginApplyOn(x, st), s.acked, s.sessions);
  }

  lemma ApplyCellsOk(hist: seq<Pass>, acked: Acked, x: Relay, cs: set<Cell>, top: nat)
    requires RelayOk(hist, acked, x, top)
    ensures RelayOk(hist, acked, ApplyCellsTo(x, cs), top)
  {
    if x.applying.Some? {
      var x' := ApplyCellsTo(x, cs);
      assert ApplyingOk(hist, x, x.applying.value, top);
      assert FullFor(R.SharedPool, x'.tier.cells);
      assert x.tier.counter > x.carried ==> AtLeast(hist, x'.tier.cells, x.tier.counter, 1);
      assert Extends(hist, acked, hist, acked);
      TierGrows(hist, acked, x.tier, hist, acked, x'.tier, x.carried, 1);
    }
  }

  lemma FinishApplyOk(hist: seq<Pass>, acked: Acked, x: Relay, top: nat)
    requires RelayOk(hist, acked, x, top)
    ensures RelayOk(hist, acked, FinishApplyOn(x), top)
    ensures RelayMark(FinishApplyOn(x)) <= RelayMark(x)
  {
    if x.applying.Some? && x.applying.value.todo == {} {
      var v, x' := x.applying.value.view, FinishApplyOn(x);
      assert ApplyingOk(hist, x, x.applying.value, top);
      assert x.tier.cells == v.world;
      if x'.tier.counter > x.carried && v.seqNo > 0 {
        assert !x.applying.value.stale;
        AtLeastGrows(hist, hist, v.world, v.seqNo, 0, v.seqNo, 1);
      }
      assert Extends(hist, acked, hist, acked);
      TierGrows(hist, acked, x.tier, hist, acked, x'.tier, x.carried, 1);
    }
  }

  lemma TickOk(hist: seq<Pass>, acked: Acked, x: Relay, top: nat)
    requires RelayOk(hist, acked, x, top)
    ensures RelayOk(hist, acked, TickOn(x), top)
  {
    assert Extends(hist, acked, hist, acked);
    TierGrows(hist, acked, x.tier, hist, acked, TickOn(x).tier, x.carried, 1);
  }

  lemma FinishedOk(s: State, r: string)
    requires Inv(s) && r in s.relays
    ensures Inv(WithRelay(s, r, FinishApplyOn(s.relays[r])))
  {
    var x, x' := s.relays[r], FinishApplyOn(s.relays[r]);
    assert RelayOk(s.hist, s.acked, x, s.root.counter);
    FinishApplyOk(s.hist, s.acked, x, s.root.counter);
    if r in s.root.streams {
      var credit := Credit(s.root, r);
      LowerMark(s.hist, s.root.streams[r], s.root.counter, credit, Max(credit, RelayMark(x)),
                Max(credit, RelayMark(x')),
                s.root.generation);
    }
    PlugRelay(s, r, x', s.acked, s.sessions);
  }

  lemma FreshRelayOk(hist: seq<Pass>, acked: Acked, top: nat)
    ensures RelayOk(hist, acked, FRESH_RELAY, top)
  {
  }

  // ---- Reports ----

  lemma SentOk(hist: seq<Pass>, acked: Acked, x: Relay, cs: seq<R.RosterChild>, top: nat)
    requires RelayOk(hist, acked, x, top) && Reports(x.tier.registry.nodes, cs)
    ensures ReportOk(hist, acked, Report(cs, OriginsOf(x)))
  {
    forall i | 0 <= i < |cs|
      ensures cs[i].nodeId in OriginsOf(x)
      ensures RowOk(hist, acked, OriginsOf(x)[cs[i].nodeId].session, cs[i].scope, cs[i].lastAckedSeq,
                    OriginsOf(x)[cs[i].nodeId].carried, 1)
    {
      var id := cs[i].nodeId;
      assert DirectOk(hist, acked, x.tier.streams[id], x.tier.registry.nodes[id], x.carried, 1, x.tier.counter);
    }
  }

  lemma SendReportOk(s: State, r: string, cs: seq<R.RosterChild>)
    requires Inv(s) && r in s.relays && Reports(s.relays[r].tier.registry.nodes, cs)
    ensures Inv(WithRelay(s, r, s.relays[r].(outbox := s.relays[r].outbox + [Report(cs, OriginsOf(s.relays[r]))])))
  {
    var x := s.relays[r];
    assert RelayOk(s.hist, s.acked, x, s.root.counter);
    SentOk(s.hist, s.acked, x, cs, s.root.counter);
    PlugSame(s, r, x.(outbox := x.outbox + [Report(cs, OriginsOf(x))]));
  }

  lemma DeliveredRow(hist: seq<Pass>, acked: Acked, origins: map<string, Origin>, nodes: R.Nodes, r: string,
                     rep: Report, id: string)
    requires FoldedOk(hist, acked, origins, nodes) && ReportOk(hist, acked, rep)
    requires var after := R.FoldRoster(nodes, r, rep.children); id in after && after[id].parent.Some?
    ensures var after, o := R.FoldRoster(nodes, r, rep.children), origins + rep.origins;
            id in o && RowOk(hist, acked, o[id].session, after[id].scope, after[id].lastAckedSeq, o[id].carried, 1)
  {
    RegistryGate.SubtreeOwnership(nodes, r, rep.children, id);
  }

  lemma DeliveredFolded(s: State, r: string, rep: Report)
    requires Inv(s) && ReportOk(s.hist, s.acked, rep)
    ensures FoldedOk(s.hist, s.acked, s.origins + rep.origins, R.FoldRoster(s.root.registry.nodes, r, rep.children))
  {
    var after := R.FoldRoster(s.root.registry.nodes, r, rep.children);
    forall id | id in after && after[id].parent.Some?
      ensures var o := s.origins + rep.origins;
              id in o
              && RowOk(s.hist, s.acked, o[id].session, after[id].scope, after[id].lastAckedSeq, o[id].carried, 1)
    {
      DeliveredRow(s.hist, s.acked, s.origins, s.root.registry.nodes, r, rep, id);
    }
  }

  /** A delivered report leaves every direct row its place and its sequence. */
  lemma DeliveredDirect(hist: seq<Pass>, acked: Acked, t: Tier, r: string, cs: seq<R.RosterChild>, n: string)
    requires TierOk(hist, acked, t, 0, 0) && n in t.streams
    ensures var after := R.FoldRoster(t.registry.nodes, r, cs);
            && n in after && after[n].parent == t.registry.nodes[n].parent
            && after[n].scope == t.registry.nodes[n].scope
            && after[n].lastAckedSeq == t.registry.nodes[n].lastAckedSeq
  {
    assert DirectOk(hist, acked, t.streams[n], t.registry.nodes[n], 0, 0, t.counter);
    RegistryGate.SubtreeOwnership(t.registry.nodes, r, cs, n);
  }

  lemma DeliveredTier(hist: seq<Pass>, acked: Acked, t: Tier, r: string, cs: seq<R.RosterChild>)
    requires TierOk(hist, acked, t, 0, 0)
    ensures TierOk(hist, acked, WithRegistry(t, R.ApplyRoster(r, cs)), 0, 0)
    ensures forall n :: n in t.streams ==> Credit(WithRegistry(t, R.ApplyRoster(r, cs)), n) == Credit(t, n)
  {
    var t' := WithRegistry(t, R.ApplyRoster(r, cs));
    forall n | n in t.streams
      ensures n in t'.registry.nodes && Credit(t', n) == Credit(t, n)
      ensures DirectOk(hist, acked, t.streams[n], t'.registry.nodes[n], 0, 0, t.counter)
    {
      DeliveredDirect(hist, acked, t, r, cs, n);
    }
    forall id | id in t'.registry.nodes && t'.registry.nodes[id].parent.None? ensures id in t.streams {
      RegistryGate.SubtreeOwnership(t.registry.nodes, r, cs, id);
    }
  }

  /** Rows of the controller may change as long as the streams keep theirs and folded rows stay backed. */
  lemma PlugRows(s: State, root: Tier, origins: map<string, Origin>)
    requires Inv(s) && root == s.root.(registry := root.registry)
    requires TierOk(s.hist, s.acked, root, 0, 0)
    requires forall n :: n in root.streams ==> Credit(root, n) == Credit(s.root, n)
    requires FoldedOk(s.hist, s.acked, origins, root.registry.nodes)
    ensures Inv(s.(root := root, origins := origins))
  {
    forall n | n in root.streams
      ensures MarkOk(s.hist, root.streams[n], Credit(root, n), Mark(root, s.relays, n), root.counter, root.generation)
    {
      assert Mark(root, s.relays, n) == Mark(s.root, s.relays, n);
    }
    StampsKept(s, s.(root := root, origins := origins));
  }

  lemma PoppedOk(s: State, r: string)
    requires Inv(s) && r in s.relays && s.relays[r].outbox != []
    ensures Inv(WithRelay(s, r, s.relays[r].(outbox := s.relays[r].outbox[1..])))
    ensures ReportOk(s.hist, s.acked, s.relays[r].outbox[0])
  {
    assert RelayOk(s.hist, s.acked, s.relays[r], s.root.counter);
    PlugSame(s, r, s.relays[r].(outbox := s.relays[r].outbox[1..]));
  }

  lemma RosterOk(s: State, r: string, rep: Report)
    requires Inv(s) && ReportOk(s.hist, s.acked, rep)
    ensures Inv(s.(root := WithRegistry(s.root, R.ApplyRoster(r, rep.children)), origins := s.origins + rep.origins))
  {
    DeliveredTier(s.hist, s.acked, s.root, r, rep.children);
    DeliveredFolded(s, r, rep);
    PlugRows(s, WithRegistry(s.root, R.ApplyRoster(r, rep.children)), s.origins + rep.origins);
  }

  lemma DeliverReportOk(s: State, r: string)
    requires Inv(s) && r in s.relays && s.relays[r].outbox != []
    ensures Inv(Delivered(s, r))
  {
    PoppedOk(s, r);
    RosterOk(WithRelay(s, r, s.relays[r].(outbox := s.relays[r].outbox[1..])), r, s.relays[r].outbox[0]);
  }

  // ---- A new controller ----

  /** Whatever the relay holds is at or below the sequence it carries over, so nothing is claimed of it. */
  lemma OrphanedOk(hist: seq<Pass>, acked: Acked, x: Relay, top: nat)
    requires RelayOk(hist, acked, x, top)
    ensures RelayOk([], acked, Orphaned(x), 0)
  {
    var x' := Orphaned(x);
    assert forall k :: k in x.tier.slots ==> ViewOk([], x.tier.slots[k].view, x'.carried, 1, x.tier.counter);
    forall n | n in x.tier.streams
      ensures StreamOk([], acked, x.tier.streams[n], x'.carried, 1, x.tier.counter)
      ensures DirectOk([], acked, x.tier.streams[n], x.tier.registry.nodes[n], x'.carried, 1, x.tier.counter)
    {
      assert StreamOk(hist, acked, x.tier.streams[n], x.carried, 1, x.tier.counter);
      assert DirectOk(hist, acked, x.tier.streams[n], x.tier.registry.nodes[n], x.carried, 1, x.tier.counter);
    }
    if x.applying.Some? {
      assert ApplyingOk(hist, x, x.applying.value, top);
    }
  }

  lemma FreshRootOk()
    ensures RootOk([], Idle, INITIAL, 0, 0)
  {
    forall c: Cell ensures Lookup(INITIAL, c) == CellAt([], 0, c) {
    }
  }

  lemma ReplaceOk(s: State)
    requires Inv(s)
    ensures Inv(Do(s, Replace))
  {
    var s' := Do(s, Replace);
    FreshRootOk();
    forall r | r in s'.relays ensures RelayOk([], s.acked, s'.relays[r], 0) {
      OrphanedOk(s.hist, s.acked, s.relays[r], s.root.counter);
    }
  }

  // ---- Every step, every run ----

  lemma ApplyStepOk(s: State, r: string, step: Step)
    requires Inv(s) && r in s.relays && (step.ApplyCells? || step.FinishApply? || step.RelayTick?) && step.relay == r
    ensures Inv(RelayDo(s, step))
  {
    assert RelayOk(s.hist, s.acked, s.relays[r], s.root.counter);
    match step
    case ApplyCells(_, cs) =>
      ApplyCellsOk(s.hist, s.acked, s.relays[r], cs, s.root.counter);
      PlugSame(s, r, ApplyCellsTo(s.relays[r], cs));
    case FinishApply(_) => FinishedOk(s, r);
    case RelayTick(_) =>
      TickOk(s.hist, s.acked, s.relays[r], s.root.counter);
      PlugSame(s, r, TickOn(s.relays[r]));
  }

  lemma RelaySideOk(s: State, step: Step)
    requires Inv(s)
    ensures Inv(RelayDo(s, step))
  {
    match step
    case StartRelay(r) =>
      if r !in s.root.streams {
        FreshRelayOk(s.hist, s.acked, s.root.counter);
        PlugRelay(s, r, FRESH_RELAY, s.acked, s.sessions);
      }
    case BeginApply(r) => if r in s.relays && r in s.root.streams { BeginApplyOk(s, r); }
    case ApplyCells(r, _) => if r in s.relays { ApplyStepOk(s, r, step); }
    case FinishApply(r) => if r in s.relays { ApplyStepOk(s, r, step); }
    case RelayTick(r) => if r in s.relays { ApplyStepOk(s, r, step); }
    case _ =>
  }

  lemma ReportStepOk(s: State, step: Step)
    requires Inv(s)
    ensures Inv(ReportDo(s, step))
  {
    match step
    case SendReport(r, cs) =>
      if r in s.relays && r in s.root.streams && Reports(s.relays[r].tier.registry.nodes, cs) {
        SendReportOk(s, r, cs);
      }
    case DeliverReport(r) =>
      if r in s.relays && r in s.root.streams && s.relays[r].outbox != [] { DeliverReportOk(s, r); }
    case _ =>
  }

  /** Every step keeps the invariant. */
  lemma StepOk(s: State, step: Step)
    requires Inv(s)
    ensures Inv(Do(s, step))
  {
    if Rebuilds(step) {
      RebuildOk(s, step);
    } else {
      match step
      case Replace => ReplaceOk(s);
      case AtRoot(ts) => RootStepOk(s, ts);
      case AtRelay(r, ts) => if r in s.relays { RelayStepOk(s, r, ts); }
      case SendReport(_, _) => ReportStepOk(s, step);
      case DeliverReport(_) => ReportStepOk(s, step);
      case _ => RelaySideOk(s, step);
    }
  }

  lemma InitOk()
    ensures Inv(INIT)
  {
    FreshRootOk();
  }

  lemma {:induction false} RunOk(steps: seq<Step>)
    ensures Inv(RunFrom(INIT, steps))
  {
    if steps == [] {
      InitOk();
    } else {
      RunOk(steps[..|steps| - 1]);
      StepOk(RunFrom(INIT, steps[..|steps| - 1]), steps[|steps| - 1]);
    }
  }

  lemma RowIsHonest(s: State, id: string, n: nat)
    requires Inv(s) && id in s.root.registry.nodes && n >= 1 && R.AckedAtLeast(s.root.registry.nodes[id], n)
    ensures RowHonest(s, id, n)
  {
    var row := s.root.registry.nodes[id];
    var q := row.lastAckedSeq.value;
    assert Extends(s.hist, s.acked, s.hist, s.acked);
    if row.parent.None? {
      assert DirectOk(s.hist, s.acked, s.root.streams[id], row, 0, 0, s.root.counter);
      HasAckedGrows(s.hist, s.acked, s.hist, s.acked, s.root.streams[id].session, row.scope, q, n, 0);
    } else if n > s.origins[id].carried {
      HasAckedGrows(s.hist, s.acked, s.hist, s.acked, s.origins[id].session, row.scope, q, n, 1);
    }
  }

  lemma HonestState(s: State, key: ObjectKey)
    requires Inv(s)
    ensures GateHonest(s, key)
  {
    assert StampHolds(s, key);
    if key in s.stamps {
      var nodes, n := s.root.registry.nodes, s.stamps[key].seqNo;
      forall id | id in nodes && R.AckedAtLeast(nodes[id], n) ensures RowHonest(s, id, n) {
        RowIsHonest(s, id, n);
      }
    }
  }

  /**
   Gate soundness, with nothing assumed of the run. At every point of every interleaving of rebuilds,
   watch ticks, cache lookups, builds, pushes, acks, resyncs, reconnects, relay applies, reports and
   controller replacements: when the gate of a Gateway is open, every direct node it counts has
   acknowledged in its current session a full world of the stamped rebuild or later; every folded leaf
   did so in the session it was reported in, its late cells one rebuild older at most, unless its relay
   had carried the stamp's sequence over from an earlier controller; and since the stamp every stamped
   rebuild published exactly the stamped content.
   */
  lemma GateIsHonest(steps: seq<Step>, key: ObjectKey)
    ensures forall k :: 0 <= k <= |steps| ==> GateHonest(RunFrom(INIT, steps[..k]), key)
  {
    forall k | 0 <= k <= |steps| ensures GateHonest(RunFrom(INIT, steps[..k]), key) {
      RunOk(steps[..k]);
      HonestState(RunFrom(INIT, steps[..k]), key);
    }
  }
}
