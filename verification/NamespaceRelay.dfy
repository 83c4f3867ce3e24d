/**
 The namespace relay: the controller captures the counter, loads the dedicated registry, and only
 then reads each Gateway's stamp; the relay applies the view, advances its own counter to the greatest
 stamp it received, and serves dedicated leaves from it. The stamp reads come after the registry load,
 so the fence the shared relay enjoys does not follow. The relay outlives its controller, whose
 successor counts from zero. This machine settles exactly when the dedicated gate over such a relay is
 honest.
 */
module NamespaceRelay {
  import opened Options
  import opened PublishIndex
  import R = NodeRegistry
  import RegistryGate

  /** The dedicated registry slice of one namespace: Gateway to routing content. */
  type Slice = map<ObjectKey, nat>

  datatype Pass = Pass(slice: Slice, published: map<ObjectKey, Content>)

  datatype Phase = Idle | Begun | Stored | Bumped

  /** A namespace view being built. */
  datatype Build = NoBuild | Captured(captured: nat) | Loaded(captured: nat, slice: Slice, metas: map<ObjectKey, nat>)

  /** The view pushed to the relay: content, and the per-Gateway `publish_seq` travelling with it. */
  datatype View = View(captured: nat, slice: Slice, metas: map<ObjectKey, nat>)

  /** A view is known by the controller that built it and the sequence it captured. */
  datatype Source = Source(controller: nat, captured: nat)

  /**
   `source` is the view the relay serves from, `carried` the greatest sequence it had reached, or was
   about to reach, under earlier controllers. Both are history: no step reads them.
   */
  datatype Relay = Relay(slice: Slice, counter: nat, owed: nat, source: Source, carried: nat)

  /** What a leaf was served: the relay's counter at capture, the Gateway's content, and its source. */
  datatype Served = Served(seqNo: nat, content: nat, source: Source)

  datatype Leaf = Leaf(
    key: ObjectKey, captured: Option<nat>, pending: Option<Served>, credit: Option<nat>, acked: set<Served>)

  /**
   `rows` is the controller's node registry. `controller` numbers the controllers, and `evidence`
   records what reported leaves had acked: history as well.
   */
  datatype State = State(
    controller: nat, hist: seq<Pass>, phase: Phase, slice: Slice, counter: nat, stamps: Stamps,
    build: Build, pushed: Option<View>, relay: Relay, leaves: map<string, Leaf>,
    rows: R.Nodes, evidence: map<string, set<Served>>)

  const RELAY := "relay"
  const ROWS: R.Nodes := map[RELAY := R.Fresh(RELAY, R.Namespace("ns"), 0)]

  function FreshRelay(controller: nat): Relay {
    Relay(map[], 0, 0, Source(controller, 0), 0)
  }

  const INIT: State := State(0, [], Idle, map[], 0, map[], NoBuild, None, FreshRelay(0), map[], ROWS, map[])

  datatype Step =
    | BeginPass(pass: Pass)
    | StoreRegistry
    | BumpCounter
    | StoreStamps
    | Capture
    | LoadRegistry
    | ReadStamp(key: ObjectKey)
    | Push
    | Apply(advertised: nat)
    | Advance
    | Join(leaf: string, key: ObjectKey)
    | LeafCapture(leaf: string)
    | LeafRead(leaf: string)
    | LeafAck(leaf: string)
    | Report(children: seq<R.RosterChild>)
    | Reconnect
    | Restart
    | Replace

  /** The greatest per-Gateway sequence of a view. */
  ghost predicate Advertises(v: View, n: nat) {
    && (forall k :: k in v.metas ==> v.metas[k] <= n)
    && (n == 0 || exists k :: k in v.metas && v.metas[k] == n)
  }

  /** The rebuild loop and the relay's stream at the controller. */
  function ControllerDo(s: State, step: Step): State {
    match step
    case BeginPass(pass) =>
      if s.phase.Idle? then s.(hist := s.hist + [pass], phase := Begun) else s
    case StoreRegistry =>
      if s.phase.Begun? && s.hist != [] then s.(slice := s.hist[|s.hist| - 1].slice, phase := Stored) else s
    case BumpCounter =>
      if s.phase.Stored? then s.(counter := s.counter + 1, phase := Bumped) else s
    case StoreStamps =>
      if s.phase.Bumped? && s.hist != []
      then s.(stamps := Restamp(s.stamps, s.hist[|s.hist| - 1].published, s.counter), phase := Idle)
      else s
    case Capture => s.(build := Captured(s.counter))
    case LoadRegistry =>
      if s.build.Captured? then s.(build := Loaded(s.build.captured, s.slice, map[])) else s
    case ReadStamp(key) =>
      if s.build.Loaded? && key in s.build.slice
      then s.(build := s.build.(metas := s.build.metas[key := if key in s.stamps then s.stamps[key].seqNo else 0]))
      else s
    case Push =>
      if s.build.Loaded? && s.build.metas.Keys == s.build.slice.Keys
      then s.(pushed := Some(View(s.build.captured, s.build.slice, s.build.metas)), build := NoBuild)
      else s
    case _ => s
  }

  function WithLeaf(s: State, id: string, l: Leaf): State {
    s.(leaves := s.leaves[id := l])
  }

  function ScopeOf(key: ObjectKey): R.NodeScope {
    R.Gateway(key.ns, key.name)
  }

  /** A report names every leaf once or more, with its scope and its acked sequence. */
  ghost predicate Reports(leaves: map<string, Leaf>, cs: seq<R.RosterChild>) {
    && (forall i :: 0 <= i < |cs| ==>
          && cs[i].nodeId in leaves && cs[i].scope == ScopeOf(leaves[cs[i].nodeId].key)
          && cs[i].lastAckedSeq == leaves[cs[i].nodeId].credit)
    && (forall id :: id in leaves ==> exists i :: 0 <= i < |cs| && cs[i].nodeId == id)
  }

  function AckedOf(leaves: map<string, Leaf>): map<string, set<Served>> {
    map id | id in leaves :: leaves[id].acked
  }

  /** The leaf's build: the counter was captured before the registry is read. */
  function ReadBy(l: Leaf, relay: Relay): Leaf {
    if l.captured.Some? && l.key in relay.slice
    then l.(captured := None, pending := Some(Served(l.captured.value, relay.slice[l.key], relay.source)))
    else l
  }

  function AckedBy(l: Leaf): Leaf {
    if l.pending.Some?
    then l.(pending := None, credit := R.Raise(l.credit, l.pending.value.seqNo), acked := l.acked + {l.pending.value})
    else l
  }

  /** The relay's stream opens anew: what was under way on the old one is lost, its rows are evicted. */
  function Reconnected(s: State): State {
    s.(build := NoBuild, pushed := None, rows := ROWS, evidence := map[])
  }

  /** A new controller counts from zero; the relay keeps its counter and its leaves. */
  function Replaced(s: State): State {
    var relay := s.relay.(carried := Max(s.relay.carried, Max(s.relay.counter, s.relay.owed)));
    INIT.(controller := s.controller + 1, relay := relay, leaves := s.leaves)
  }

  ghost function Do(s: State, step: Step): State {
    match step
    case Apply(n) =>
      if s.pushed.Some? && Advertises(s.pushed.value, n)
      then s.(relay := s.relay.(slice := s.pushed.value.slice, owed := n,
                                source := Source(s.controller, s.pushed.value.captured)),
              pushed := None)
      else s
    case Advance => s.(relay := s.relay.(counter := Max(s.relay.counter, s.relay.owed)))
    case Join(id, key) => WithLeaf(s, id, Leaf(key, None, None, None, {}))
    case LeafCapture(id) =>
      if id in s.leaves then WithLeaf(s, id, s.leaves[id].(captured := Some(s.relay.counter))) else s
    case LeafRead(id) => if id in s.leaves then WithLeaf(s, id, ReadBy(s.leaves[id], s.relay)) else s
    case LeafAck(id) => if id in s.leaves then WithLeaf(s, id, AckedBy(s.leaves[id])) else s
    case Report(cs) =>
      if Reports(s.leaves, cs)
      then s.(rows := R.FoldRoster(s.rows, RELAY, cs), evidence := s.evidence + AckedOf(s.leaves))
      else s
    case Reconnect => Reconnected(s)
    case Restart => Reconnected(s).(relay := FreshRelay(s.controller), leaves := map[])
    case Replace => Replaced(s)
    case _ => ControllerDo(s, step)
  }

  ghost function RunFrom(s: State, steps: seq<Step>): State {
    if steps == [] then s else Do(RunFrom(s, steps[..|steps| - 1]), steps[|steps| - 1])
  }

  function SliceAt(hist: seq<Pass>, j: int): Slice
    requires 0 <= j <= |hist|
  {
    if j == 0 then map[] else hist[j - 1].slice
  }

  /** `content` is what some rebuild of this controller, at or after `n`, gave the Gateway. */
  ghost predicate GivenBy(hist: seq<Pass>, key: ObjectKey, content: nat, n: nat) {
    exists j :: n <= j <= |hist| && key in SliceAt(hist, j) && SliceAt(hist, j)[key] == content
  }

  /** The dedicated gate of `key` is open at stamp `n` over the leaf `id`. */
  ghost predicate CountsLeaf(s: State, key: ObjectKey, id: string, n: nat) {
    && key in s.stamps && s.stamps[key].seqNo == n
    && R.GatewayNodeAcked(s.rows, key.ns, key.name, n)
    && id in s.rows && R.Serves(s.rows[id], key.ns, key.name) && id in s.evidence
  }

  // ---- Content is at least as new as the capture ----

  /** `w` came from a rebuild at or after `n`, and from rebuild 1 on if it holds any Gateway. */
  ghost predicate Fresh(hist: seq<Pass>, w: Slice, n: nat) {
    exists j :: n <= j <= |hist| && SliceAt(hist, j) == w && (w != map[] ==> j >= 1)
  }

  /** The current controller, what the relay carried over to it, and the relay's counter. */
  datatype Era = Era(controller: nat, carried: nat, top: nat)

  function EraOf(s: State): Era {
    Era(s.controller, s.relay.carried, s.relay.counter)
  }

  /** Above what was carried over only the current controller's views were served, no older than captured. */
  ghost predicate ServedOk(hist: seq<Pass>, era: Era, key: ObjectKey, e: Served) {
    && e.seqNo <= era.top && e.source.controller <= era.controller
    && (e.seqNo > era.carried ==> e.source.controller == era.controller)
    && (e.source.controller == era.controller ==> GivenBy(hist, key, e.content, Max(e.source.captured, 1)))
  }

  ghost predicate AllOk(hist: seq<Pass>, era: Era, key: ObjectKey, es: set<Served>) {
    forall e :: e in es ==> ServedOk(hist, era, key, e)
  }

  ghost predicate Backed(credit: Option<nat>, acked: set<Served>) {
    GetOr(credit, 0) >= 1 ==> exists e :: e in acked && e.seqNo >= GetOr(credit, 0)
  }

  ghost predicate LeafOk(hist: seq<Pass>, era: Era, l: Leaf) {
    && (l.captured.Some? ==> l.captured.value <= era.top)
    && (l.pending.Some? ==> ServedOk(hist, era, l.key, l.pending.value))
    && AllOk(hist, era, l.key, l.acked)
    && Backed(l.credit, l.acked)
  }

  /** A folded row and what its leaf had acked when it was reported. */
  ghost predicate RowOk(hist: seq<Pass>, era: Era, row: R.NodeEntry, acked: set<Served>) {
    && row.scope.Gateway?
    && AllOk(hist, era, ObjectKey(row.scope.namespace, row.scope.name), acked)
    && Backed(row.lastAckedSeq, acked)
  }

  ghost predicate ControllerOk(s: State) {
    && (s.hist == [] ==> s.phase.Idle?)
    && s.counter == |s.hist| - (if s.phase.Begun? || s.phase.Stored? then 1 else 0)
    && s.slice == SliceAt(s.hist, |s.hist| - (if s.phase.Begun? then 1 else 0))
    && (s.build.Captured? ==> s.build.captured <= s.counter)
    && (s.build.Loaded? ==> Fresh(s.hist, s.build.slice, s.build.captured))
    && (s.pushed.Some? ==> Fresh(s.hist, s.pushed.value.slice, s.pushed.value.captured))
  }

  ghost predicate RelayOk(hist: seq<Pass>, controller: nat, x: Relay) {
    && x.source.controller <= controller
    && (x.source.controller == controller ==> Fresh(hist, x.slice, x.source.captured))
    && (Max(x.counter, x.owed) > x.carried ==> x.source.controller == controller)
  }

  ghost predicate LeavesOk(hist: seq<Pass>, era: Era, leaves: map<string, Leaf>) {
    forall id :: id in leaves ==> LeafOk(hist, era, leaves[id])
  }

  ghost predicate RowsOk(hist: seq<Pass>, era: Era, rows: R.Nodes, evidence: map<string, set<Served>>) {
    && RELAY in rows && rows[RELAY].parent.None? && rows[RELAY].scope.Namespace?
    && forall id :: id in rows && id != RELAY ==>
         rows[id].parent == Some(RELAY) && id in evidence && RowOk(hist, era, rows[id], evidence[id])
  }

  ghost predicate Inv(s: State) {
    && ControllerOk(s)
    && RelayOk(s.hist, s.controller, s.relay)
    && LeavesOk(s.hist, EraOf(s), s.leaves)
    && RowsOk(s.hist, EraOf(s), s.rows, s.evidence)
  }

  lemma FreshGrows(hist: seq<Pass>, pass: Pass, w: Slice, n: nat)
    requires Fresh(hist, w, n)
    ensures Fresh(hist + [pass], w, n)
  {
    var j :| n <= j <= |hist| && SliceAt(hist, j) == w && (w != map[] ==> j >= 1);
    assert SliceAt(hist + [pass], j) == w;
  }

  /** One more rebuild, or none, and a counter that does not fall. */
  ghost predicate Follows(hist: seq<Pass>, era: Era, hist': seq<Pass>, era': Era) {
    && (hist' == hist || exists pass :: hist' == hist + [pass])
    && era'.controller == era.controller && era'.carried == era.carried && era.top <= era'.top
  }

  lemma AllGrows(hist: seq<Pass>, era: Era, hist': seq<Pass>, era': Era, key: ObjectKey, es: set<Served>)
    requires Follows(hist, era, hist', era') && AllOk(hist, era, key, es)
    ensures AllOk(hist', era', key, es)
  {
    forall e | e in es ensures ServedOk(hist', era', key, e) {
      assert ServedOk(hist, era, key, e);
      if e.source.controller == era.controller {
        var n := Max(e.source.captured, 1);
        var j :| n <= j <= |hist| && key in SliceAt(hist, j) && SliceAt(hist, j)[key] == e.content;
        assert SliceAt(hist', j) == SliceAt(hist, j);
      }
    }
  }

  lemma LeavesGrow(hist: seq<Pass>, era: Era, hist': seq<Pass>, era': Era, leaves: map<string, Leaf>)
    requires Follows(hist, era, hist', era') && LeavesOk(hist, era, leaves)
    ensures LeavesOk(hist', era', leaves)
  {
    forall id | id in leaves ensures LeafOk(hist', era', leaves[id]) {
      var l := leaves[id];
      AllGrows(hist, era, hist', era', l.key, l.acked);
      if l.pending.Some? {
        AllGrows(hist, era, hist', era', l.key, {l.pending.value});
      }
    }
  }

  lemma RowsGrow(hist: seq<Pass>, era: Era, hist': seq<Pass>, era': Era, rows: R.Nodes,
                 evidence: map<string, set<Served>>)
    requires Follows(hist, era, hist', era') && RowsOk(hist, era, rows, evidence)
    ensures RowsOk(hist', era', rows, evidence)
  {
    forall id | id in rows && id != RELAY ensures RowOk(hist', era', rows[id], evidence[id]) {
      AllGrows(hist, era, hist', era', ObjectKey(rows[id].scope.namespace, rows[id].scope.name), evidence[id]);
    }
  }

  lemma BeginPassOk(s: State, pass: Pass)
    requires Inv(s) && s.phase.Idle?
    ensures Inv(s.(hist := s.hist + [pass], phase := Begun))
  {
    assert SliceAt(s.hist + [pass], |s.hist|) == SliceAt(s.hist, |s.hist|);
    if s.build.Loaded? {
      FreshGrows(s.hist, pass, s.build.slice, s.build.captured);
    }
    if s.pushed.Some? {
      FreshGrows(s.hist, pass, s.pushed.value.slice, s.pushed.value.captured);
    }
    if s.relay.source.controller == s.controller {
      FreshGrows(s.hist, pass, s.relay.slice, s.relay.source.captured);
    }
    LeavesGrow(s.hist, EraOf(s), s.hist + [pass], EraOf(s), s.leaves);
    RowsGrow(s.hist, EraOf(s), s.hist + [pass], EraOf(s), s.rows, s.evidence);
  }

  lemma LoadOk(s: State)
    requires Inv(s) && s.build.Captured?
    ensures Inv(s.(build := Loaded(s.build.captured, s.slice, map[])))
  {
    var j := |s.hist| - (if s.phase.Begun? then 1 else 0);
    assert SliceAt(s.hist, j) == s.slice;
    assert Fresh(s.hist, s.slice, s.build.captured);
  }

  lemma ControllerStepOk(s: State, step: Step)
    requires Inv(s)
    ensures Inv(ControllerDo(s, step))
  {
    match step
    case BeginPass(pass) => if s.phase.Idle? { BeginPassOk(s, pass); }
    case LoadRegistry => if s.build.Captured? { LoadOk(s); }
    case _ =>
  }

  /** What a leaf reads came from the rebuild its source had seen, or a later one. */
  lemma ReadOk(hist: seq<Pass>, controller: nat, relay: Relay, l: Leaf)
    requires RelayOk(hist, controller, relay) && LeafOk(hist, Era(controller, relay.carried, relay.counter), l)
    ensures LeafOk(hist, Era(controller, relay.carried, relay.counter), ReadBy(l, relay))
  {
    if l.captured.Some? && l.key in relay.slice && relay.source.controller == controller {
      var c := relay.source.captured;
      var j :| c <= j <= |hist| && SliceAt(hist, j) == relay.slice && (relay.slice != map[] ==> j >= 1);
      assert GivenBy(hist, l.key, relay.slice[l.key], Max(c, 1));
    }
  }

  lemma AckOk(hist: seq<Pass>, era: Era, l: Leaf)
    requires LeafOk(hist, era, l)
    ensures LeafOk(hist, era, AckedBy(l))
  {
    if l.pending.Some? {
      var e, l' := l.pending.value, AckedBy(l);
      if e.seqNo < GetOr(l.credit, 0) {
        var b :| b in l.acked && b.seqNo >= GetOr(l.credit, 0);
        assert b in l'.acked;
      } else {
        assert e in l'.acked;
      }
    }
  }

  lemma ReportedRow(hist: seq<Pass>, era: Era, leaves: map<string, Leaf>, rows: R.Nodes,
                    evidence: map<string, set<Served>>, cs: seq<R.RosterChild>, id: string)
    requires RowsOk(hist, era, rows, evidence) && Reports(leaves, cs) && LeavesOk(hist, era, leaves)
    requires id in R.FoldRoster(rows, RELAY, cs)
    ensures var after := R.FoldRoster(rows, RELAY, cs);
            if id == RELAY then after[id].parent.None? && after[id].scope == rows[id].scope
            else after[id].parent == Some(RELAY) && id in evidence + AckedOf(leaves)
                 && RowOk(hist, era, after[id], (evidence + AckedOf(leaves))[id])
  {
    RegistryGate.SubtreeOwnership(rows, RELAY, cs, id);
    var last := RegistryGate.LastEntry(cs, id);
    if id != RELAY {
      assert last.Some?;
      assert id in leaves && LeafOk(hist, era, leaves[id]);
    }
  }

  lemma ReportOk(hist: seq<Pass>, era: Era, leaves: map<string, Leaf>, rows: R.Nodes,
                 evidence: map<string, set<Served>>, cs: seq<R.RosterChild>)
    requires RowsOk(hist, era, rows, evidence) && Reports(leaves, cs) && LeavesOk(hist, era, leaves)
    ensures RowsOk(hist, era, R.FoldRoster(rows, RELAY, cs), evidence + AckedOf(leaves))
  {
    RegistryGate.SubtreeOwnership(rows, RELAY, cs, RELAY);
    forall id | id in R.FoldRoster(rows, RELAY, cs)
      ensures var after := R.FoldRoster(rows, RELAY, cs);
              if id == RELAY then after[id].parent.None? && after[id].scope == rows[id].scope
              else after[id].parent == Some(RELAY) && id in evidence + AckedOf(leaves)
                   && RowOk(hist, era, after[id], (evidence + AckedOf(leaves))[id])
    {
      ReportedRow(hist, era, leaves, rows, evidence, cs, id);
    }
  }

  lemma PutLeaf(s: State, id: string, l: Leaf)
    requires Inv(s) && LeafOk(s.hist, EraOf(s), l)
    ensures Inv(WithLeaf(s, id, l))
  {
  }

  lemma LeafStepOk(s: State, id: string, step: Step)
    requires Inv(s) && id in s.leaves && (step == LeafCapture(id) || step == LeafRead(id) || step == LeafAck(id))
    ensures Inv(Do(s, step))
  {
    var l := s.leaves[id];
    assert LeafOk(s.hist, EraOf(s), l);
    match step
    case LeafCapture(_) => PutLeaf(s, id, l.(captured := Some(s.relay.counter)));
    case LeafRead(_) =>
      ReadOk(s.hist, s.controller, s.relay, l);
      PutLeaf(s, id, ReadBy(l, s.relay));
    case LeafAck(_) =>
      AckOk(s.hist, EraOf(s), l);
      PutLeaf(s, id, AckedBy(l));
  }

  lemma PutRelay(s: State, x: Relay, pushed: Option<View>)
    requires Inv(s) && RelayOk(s.hist, s.controller, x) && x.carried == s.relay.carried && s.relay.counter <= x.counter
    requires pushed.Some? ==> pushed == s.pushed
    ensures Inv(s.(relay := x, pushed := pushed))
  {
    var era' := Era(s.controller, x.carried, x.counter);
    LeavesGrow(s.hist, EraOf(s), s.hist, era', s.leaves);
    RowsGrow(s.hist, EraOf(s), s.hist, era', s.rows, s.evidence);
  }

  lemma ApplyStepOk(s: State, step: Step)
    requires Inv(s) && (step.Apply? || step.Advance?)
    ensures Inv(Do(s, step))
  {
    PutRelay(s, Do(s, step).relay, Do(s, step).pushed);
  }

  lemma PutRows(s: State, rows: R.Nodes, evidence: map<string, set<Served>>)
    requires Inv(s) && RowsOk(s.hist, EraOf(s), rows, evidence)
    ensures Inv(s.(rows := rows, evidence := evidence))
  {
  }

  lemma RosterStepOk(s: State, step: Step)
    requires Inv(s) && (step.Join? || step.Report?)
    ensures Inv(Do(s, step))
  {
    if step.Join? {
      PutLeaf(s, step.leaf, Leaf(step.key, None, None, None, {}));
    } else if Reports(s.leaves, step.children) {
      ReportOk(s.hist, EraOf(s), s.leaves, s.rows, s.evidence, step.children);
      PutRows(s, R.FoldRoster(s.rows, RELAY, step.children), s.evidence + AckedOf(s.leaves));
    }
  }

  lemma ReconnectOk(s: State)
    requires Inv(s)
    ensures Inv(Reconnected(s))
  {
  }

  lemma RestartOk(s: State)
    requires Inv(s)
    ensures Inv(Reconnected(s).(relay := FreshRelay(s.controller), leaves := map[]))
  {
    assert SliceAt(s.hist, 0) == map[];
    assert Fresh(s.hist, map[], 0);
  }

  /** Whatever was served so far is at or below what the relay carries over to the new controller. */
  lemma ReplaceOk(s: State)
    requires Inv(s)
    ensures Inv(Replaced(s))
  {
    var s' := Replaced(s);
    forall id | id in s.leaves ensures LeafOk(s'.hist, EraOf(s'), s.leaves[id]) {
      var l := s.leaves[id];
      assert LeafOk(s.hist, EraOf(s), l);
      forall e | e in l.acked ensures ServedOk(s'.hist, EraOf(s'), l.key, e) {
        assert ServedOk(s.hist, EraOf(s), l.key, e);
      }
    }
  }

  lemma StepKeepsInv(s: State, step: Step)
    requires Inv(s)
    ensures Inv(Do(s, step))
  {
    if step.LeafCapture? || step.LeafRead? || step.LeafAck? {
      if step.leaf in s.leaves {
        LeafStepOk(s, step.leaf, step);
      }
    } else if step.Apply? || step.Advance? {
      ApplyStepOk(s, step);
    } else if step.Join? || step.Report? {
      RosterStepOk(s, step);
    } else if step.Reconnect? {
      ReconnectOk(s);
    } else if step.Restart? {
      RestartOk(s);
    } else if step.Replace? {
      ReplaceOk(s);
    } else {
      ControllerStepOk(s, step);
    }
  }

  lemma {:induction false} RunKeepsInv(steps: seq<Step>)
    ensures Inv(RunFrom(INIT, steps))
  {
    if steps == [] {
      assert SliceAt([], 0) == map[];
      assert Fresh([], map[], 0);
    } else {
      RunKeepsInv(steps[..|steps| - 1]);
      StepKeepsInv(RunFrom(INIT, steps[..|steps| - 1]), steps[|steps| - 1]);
    }
  }

  /**
   An open dedicated gate is backed by something the leaf was served at that sequence. Whatever it was
   served above what its relay carried over came from the current controller, and of that, whatever came
   from a view captured at or past the stamp is content of the stamped rebuild or later.
   */
  lemma WithinCaptureIsHonest(steps: seq<Step>, key: ObjectKey, id: string, n: nat)
    requires n >= 1 && CountsLeaf(RunFrom(INIT, steps), key, id, n)
    ensures var s := RunFrom(INIT, steps);
            && (exists e :: e in s.evidence[id] && e.seqNo >= n)
            && (forall e :: e in s.evidence[id] && e.seqNo > s.relay.carried ==> e.source.controller == s.controller)
            && (forall e :: e in s.evidence[id] ==>
                  e.source.controller == s.controller && n <= Max(e.source.captured, 1) ==>
                  GivenBy(s.hist, key, e.content, n))
  {
    RunKeepsInv(steps);
    var s := RunFrom(INIT, steps);
    assert RowOk(s.hist, EraOf(s), s.rows[id], s.evidence[id]);
    assert R.AckedAtLeast(s.rows[id], n);
    forall e | e in s.evidence[id] && e.source.controller == s.controller && n <= Max(e.source.captured, 1)
      ensures GivenBy(s.hist, key, e.content, n)
    {
      assert ServedOk(s.hist, EraOf(s), key, e);
      var m := Max(e.source.captured, 1);
      var j :| m <= j <= |s.hist| && key in SliceAt(s.hist, j) && SliceAt(s.hist, j)[key] == e.content;
    }
  }

  // ---- Rebuilds of numbered content ----

  const KEY: ObjectKey := ObjectKey("ns", "gw")
  const LEAF := "leaf"

  function Numbered(v: nat): Pass {
    Pass(map[KEY := v], map[KEY := Content(v, 0)])
  }

  /** `n` rebuilds; the `j`-th gives the Gateway content `offset + j`. */
  function History(offset: nat, n: nat): (h: seq<Pass>)
    ensures |h| == n
  {
    if n == 0 then [] else History(offset, n - 1) + [Numbered(offset + n)]
  }

  /** The controller of `b` after `n` of its rebuilds. */
  function After(b: State, offset: nat, n: nat, build: Build): State {
    b.(hist := History(offset, n), phase := Idle, slice := SliceAt(History(offset, n), n), counter := n,
       stamps := if n == 0 then map[] else map[KEY := PublishStamp(Content(offset + n, 0), n)], build := build)
  }

  lemma RunSnoc(s: State, steps: seq<Step>, x: Step)
    ensures RunFrom(s, steps + [x]) == Do(RunFrom(s, steps), x)
  {
    assert (steps + [x])[..|steps|] == steps;
  }

  lemma Next(steps: seq<Step>, s: State, x: Step) returns (steps': seq<Step>, s': State)
    requires RunFrom(INIT, steps) == s
    ensures steps' == steps + [x] && s' == Do(s, x) && RunFrom(INIT, steps') == s'
  {
    RunSnoc(INIT, steps, x);
    steps', s' := steps + [x], Do(s, x);
  }

  function StoredAt(b: State, offset: nat, n: nat, build: Build): State
    requires n >= 1
  {
    After(b, offset, n - 1, build).(hist := History(offset, n), slice := map[KEY := offset + n], phase := Stored)
  }

  lemma EndOfPass(b: State, offset: nat, n: nat, build: Build)
    requires n >= 1
    ensures Do(Do(StoredAt(b, offset, n, build), BumpCounter), StoreStamps) == After(b, offset, n, build)
  {
    var last := Numbered(offset + n);
    assert History(offset, n)[n - 1] == last;
    var stamps := After(b, offset, n - 1, build).stamps;
    assert Restamp(stamps, last.published, n) == map[KEY := PublishStamp(Content(offset + n, 0), n)];
  }

  lemma StartOfPass(b: State, offset: nat, n: nat, build: Build)
    requires n >= 1
    ensures Do(Do(After(b, offset, n - 1, build), BeginPass(Numbered(offset + n))), StoreRegistry) ==
            StoredAt(b, offset, n, build)
  {
    assert History(offset, n) == History(offset, n - 1) + [Numbered(offset + n)];
  }

  /** The steps of rebuild `n` after its registry store. */
  lemma FinishPass(steps: seq<Step>, b: State, offset: nat, n: nat, build: Build) returns (more: seq<Step>)
    requires n >= 1 && RunFrom(INIT, steps) == StoredAt(b, offset, n, build)
    ensures RunFrom(INIT, more) == After(b, offset, n, build)
  {
    EndOfPass(b, offset, n, build);
    var a, s1 := Next(steps, StoredAt(b, offset, n, build), BumpCounter);
    var s2;
    more, s2 := Next(a, s1, StoreStamps);
  }

  lemma StartPass(steps: seq<Step>, b: State, offset: nat, n: nat, build: Build) returns (more: seq<Step>)
    requires n >= 1 && RunFrom(INIT, steps) == After(b, offset, n - 1, build)
    ensures RunFrom(INIT, more) == StoredAt(b, offset, n, build)
  {
    StartOfPass(b, offset, n, build);
    var a, s1 := Next(steps, After(b, offset, n - 1, build), BeginPass(Numbered(offset + n)));
    var s2;
    more, s2 := Next(a, s1, StoreRegistry);
  }

  predicate Rebuild(n: nat) {
    true
  }

  /** `steps` leads to the end of rebuild `n`. Only a proof that names `Rebuild(n)` looks inside. */
  ghost predicate Rests(steps: seq<Step>, b: State, offset: nat, n: nat, build: Build) {
    forall i: nat {:trigger Rebuild(i)} :: i == n ==> RunFrom(INIT, steps) == After(b, offset, i, build)
  }

  lemma NextPass(steps: seq<Step>, b: State, offset: nat, n: nat, build: Build) returns (more: seq<Step>)
    requires n >= 1 && Rests(steps, b, offset, n - 1, build)
    ensures Rests(more, b, offset, n, build)
  {
    assert Rebuild(n - 1);
    var a := StartPass(steps, b, offset, n, build);
    more := FinishPass(a, b, offset, n, build);
  }

  lemma {:induction false} NextPasses(steps: seq<Step>, b: State, offset: nat, m: nat, n: nat, build: Build)
    returns (more: seq<Step>)
    requires m <= n && Rests(steps, b, offset, m, build)
    ensures Rests(more, b, offset, n, build)
    decreases n - m
  {
    if m == n {
      return steps;
    }
    var a := NextPasses(steps, b, offset, m, n - 1, build);
    more := NextPass(a, b, offset, n, build);
  }

  lemma Passes(steps: seq<Step>, b: State, offset: nat, m: nat, n: nat, build: Build) returns (more: seq<Step>)
    requires m <= n && RunFrom(INIT, steps) == After(b, offset, m, build)
    ensures RunFrom(INIT, more) == After(b, offset, n, build)
  {
    more := NextPasses(steps, b, offset, m, n, build);
    assert Rebuild(n);
  }

  lemma NotGiven(offset: nat, m: nat, n: nat, v: nat)
    requires 1 <= n <= m && v < offset + n
    ensures !GivenBy(History(offset, m), KEY, v, n)
  {
    forall j | n <= j <= m ensures SliceAt(History(offset, m), j) == map[KEY := offset + j] {
      PassAt(offset, m, j);
    }
  }

  lemma {:induction false} PassAt(offset: nat, m: nat, j: nat)
    requires 1 <= j <= m
    ensures History(offset, m)[j - 1] == Numbered(offset + j)
  {
    if j < m {
      PassAt(offset, m - 1, j);
    }
  }

  // ---- A view whose stamps are read after later rebuilds ----

  /** Capture at counter `c` and load a non-empty slice; for `c == 0` the load precedes the first bump. */
  lemma LoadAt(c: nat) returns (steps: seq<Step>)
    ensures var m := Max(c, 1); RunFrom(INIT, steps) == After(INIT, 0, m, Loaded(c, map[KEY := m], map[]))
  {
    var none: seq<Step> := [];
    assert RunFrom(INIT, none) == After(INIT, 0, 0, NoBuild);
    if c >= 1 {
      var a := Passes(none, INIT, 0, 0, c, NoBuild);
      assert SliceAt(History(0, c), c) == map[KEY := c];
      var b, s1 := Next(a, After(INIT, 0, c, NoBuild), Capture);
      var s2;
      steps, s2 := Next(b, s1, LoadRegistry);
    } else {
      var a := StartPass(none, INIT, 0, 1, NoBuild);
      var b, s1 := Next(a, StoredAt(INIT, 0, 1, NoBuild), Capture);
      var d, s2 := Next(b, s1, LoadRegistry);
      assert s2 == StoredAt(INIT, 0, 1, Loaded(0, map[KEY := 1], map[]));
      steps := FinishPass(d, INIT, 0, 1, Loaded(0, map[KEY := 1], map[]));
    }
  }

  /** The relay has applied content of rebuild `Max(c, 1)` and reached `n`. */
  function Ahead(c: nat, n: nat): State {
    After(INIT, 0, n, NoBuild).(relay := Relay(map[KEY := Max(c, 1)], n, n, Source(0, c), 0))
  }

  function AheadView(c: nat, n: nat): View {
    View(c, map[KEY := Max(c, 1)], map[KEY := n])
  }

  lemma StampedLate(c: nat, n: nat)
    requires n >= 1
    ensures Do(Do(After(INIT, 0, n, Loaded(c, map[KEY := Max(c, 1)], map[])), ReadStamp(KEY)), Push) ==
            After(INIT, 0, n, NoBuild).(pushed := Some(AheadView(c, n)))
  {
    var none: map<ObjectKey, nat> := map[];
    assert none[KEY := n] == map[KEY := n];
  }

  lemma AppliedLate(c: nat, n: nat)
    ensures Do(Do(After(INIT, 0, n, NoBuild).(pushed := Some(AheadView(c, n))), Apply(n)), Advance) == Ahead(c, n)
  {
    var v := AheadView(c, n);
    assert KEY in v.metas && v.metas[KEY] == n && Advertises(v, n);
  }

  lemma RelayGetsAhead(c: nat, n: nat) returns (steps: seq<Step>)
    requires n >= Max(c, 1)
    ensures RunFrom(INIT, steps) == Ahead(c, n)
  {
    var build := Loaded(c, map[KEY := Max(c, 1)], map[]);
    var a := LoadAt(c);
    var b := Passes(a, INIT, 0, Max(c, 1), n, build);
    StampedLate(c, n);
    AppliedLate(c, n);
    var d, s1 := Next(b, After(INIT, 0, n, build), ReadStamp(KEY));
    var e, s2 := Next(d, s1, Push);
    var f, s3 := Next(e, s2, Apply(n));
    var s4;
    steps, s4 := Next(f, s3, Advance);
  }

  function LeafChild(n: nat): R.RosterChild {
    R.RosterChild(LEAF, ScopeOf(KEY), None, None, Some(n), None, 0, None, None)
  }

  lemma RosterOfOne(c: R.RosterChild)
    requires c.nodeId == LEAF
    ensures R.FoldRoster(ROWS, RELAY, [c]) ==
            map[RELAY := ROWS[RELAY].(isRelay := true), LEAF := R.ChildEntry(c, RELAY)]
  {
    var marked := R.MarkRelay(ROWS, RELAY);
    assert R.WithoutChildren(marked, RELAY) == marked;
    assert [c][..0] == [];
    assert R.FoldAll(marked, RELAY, []) == marked;
    assert R.FoldAll(marked, RELAY, [c]) == R.FoldOne(marked, RELAY, c);
  }

  function WithOne(c: nat, n: nat, l: Leaf): State {
    Ahead(c, n).(leaves := map[LEAF := l])
  }

  /** What the leaf is served at `n`: content of rebuild `Max(c, 1)`. */
  function Old(c: nat, n: nat): Served {
    Served(n, Max(c, 1), Source(0, c))
  }

  function Fooled(c: nat, n: nat): Leaf {
    Leaf(KEY, None, None, Some(n), {Old(c, n)})
  }

  lemma OneLeafStep(c: nat, n: nat, l: Leaf, l': Leaf)
    ensures WithLeaf(WithOne(c, n, l), LEAF, l') == WithOne(c, n, l')
            && WithLeaf(Ahead(c, n), LEAF, l') == WithOne(c, n, l')
  {
    assert map[LEAF := l][LEAF := l'] == map[LEAF := l'];
    var none: map<string, Leaf> := map[];
    assert none[LEAF := l'] == map[LEAF := l'];
  }

  lemma CapturesAhead(c: nat, n: nat)
    ensures Do(Do(Ahead(c, n), Join(LEAF, KEY)), LeafCapture(LEAF)) == WithOne(c, n, Leaf(KEY, Some(n), None, None, {}))
  {
    var l := Leaf(KEY, None, None, None, {});
    OneLeafStep(c, n, l, l);
    OneLeafStep(c, n, l, l.(captured := Some(n)));
  }

  lemma AcksOld(c: nat, n: nat)
    ensures Do(Do(WithOne(c, n, Leaf(KEY, Some(n), None, None, {})), LeafRead(LEAF)), LeafAck(LEAF)) ==
            WithOne(c, n, Fooled(c, n))
  {
    var e := Old(c, n);
    var l0, l1 := Leaf(KEY, Some(n), None, None, {}), Leaf(KEY, None, Some(e), None, {});
    assert ReadBy(l0, Ahead(c, n).relay) == l1;
    assert AckedBy(l1) == Fooled(c, n);
    OneLeafStep(c, n, l0, l1);
    OneLeafStep(c, n, l1, Fooled(c, n));
  }

  lemma LeafIsFooled(c: nat, n: nat) returns (steps: seq<Step>)
    requires n >= Max(c, 1)
    ensures RunFrom(INIT, steps) == WithOne(c, n, Fooled(c, n))
  {
    var a := RelayGetsAhead(c, n);
    CapturesAhead(c, n);
    AcksOld(c, n);
    var b, s1 := Next(a, Ahead(c, n), Join(LEAF, KEY));
    var d, s2 := Next(b, s1, LeafCapture(LEAF));
    var e, s3 := Next(d, s2, LeafRead(LEAF));
    var s4;
    steps, s4 := Next(e, s3, LeafAck(LEAF));
  }

  // ---- The gate over it ----

  /** The controller's rows after the report. */
  function OneLeafRows(n: nat): R.Nodes {
    map[RELAY := ROWS[RELAY].(isRelay := true), LEAF := R.ChildEntry(LeafChild(n), RELAY)]
  }

  lemma ReportedState(s: State, c: nat, n: nat)
    requires s.leaves == map[LEAF := Fooled(c, n)] && s.rows == ROWS && s.evidence == map[]
    ensures Do(s, Report([LeafChild(n)])) == s.(rows := OneLeafRows(n), evidence := map[LEAF := {Old(c, n)}])
  {
    var cs := [LeafChild(n)];
    assert cs[0].nodeId == LEAF && Reports(s.leaves, cs);
    RosterOfOne(LeafChild(n));
    assert s.evidence + AckedOf(s.leaves) == map[LEAF := {Old(c, n)}];
  }

  lemma GateOpens(s: State, n: nat, stamp: nat)
    requires 1 <= stamp <= n && s.rows == OneLeafRows(n) && LEAF in s.evidence
    requires KEY in s.stamps && s.stamps[KEY].seqNo == stamp
    ensures CountsLeaf(s, KEY, LEAF, stamp)
  {
    assert LEAF in OneLeafRows(n) && R.Serves(OneLeafRows(n)[LEAF], KEY.ns, KEY.name);
  }

  /** For every capture and every later stamp, a run that opens the gate over older content. */
  lemma PastCapture(c: nat, n: nat) returns (steps: seq<Step>, e: Served)
    requires n > Max(c, 1)
    ensures var s := RunFrom(INIT, steps);
            && CountsLeaf(s, KEY, LEAF, n) && e in s.evidence[LEAF] && e.seqNo >= n
            && e.source == Source(s.controller, c) && !GivenBy(s.hist, KEY, e.content, n)
  {
    var a := LeafIsFooled(c, n);
    var s0 := WithOne(c, n, Fooled(c, n));
    ReportedState(s0, c, n);
    NotGiven(0, n, n, Max(c, 1));
    var s;
    steps, s := Next(a, s0, Report([LeafChild(n)]));
    GateOpens(s, n, n);
    e := Old(c, n);
  }

  /**
   What a leaf behind a namespace relay was served from a view of the current controller captured at `c`
   is honest for the open gate of its own Gateway at stamp `n`, in every run, exactly when `n` does not
   exceed the capture (or 1, for content that cannot predate the first rebuild). Both are known before
   the view is sent.
   */
  lemma NamespaceGateExact(c: nat, n: nat)
    requires n >= 1
    ensures n <= Max(c, 1) <==>
            forall steps: seq<Step>, key: ObjectKey, id: string, e: Served ::
              (CountsLeaf(RunFrom(INIT, steps), key, id, n) && e in RunFrom(INIT, steps).evidence[id]
               && e.seqNo >= n && e.source == Source(RunFrom(INIT, steps).controller, c)) ==>
                GivenBy(RunFrom(INIT, steps).hist, key, e.content, n)
  {
    if n <= Max(c, 1) {
      forall steps: seq<Step>, key: ObjectKey, id: string, e: Served
        | CountsLeaf(RunFrom(INIT, steps), key, id, n) && e in RunFrom(INIT, steps).evidence[id]
          && e.seqNo >= n && e.source == Source(RunFrom(INIT, steps).controller, c)
        ensures GivenBy(RunFrom(INIT, steps).hist, key, e.content, n)
      {
        WithinCaptureIsHonest(steps, key, id, n);
      }
    } else {
      var steps, e := PastCapture(c, n);
    }
  }

  // ---- A new controller ----

  /** The state in which a new controller has made `n` rebuilds over a relay that reached `k`. */
  function Succeeded(k: nat, n: nat): State {
    After(Replaced(WithOne(k, k, Fooled(k, k))), k, n, NoBuild)
  }

  lemma ControllerSucceeds(k: nat, n: nat) returns (steps: seq<Step>)
    requires k >= 1
    ensures RunFrom(INIT, steps) == Succeeded(k, n)
  {
    var s0 := WithOne(k, k, Fooled(k, k));
    var a := LeafIsFooled(k, k);
    var b, s1 := Next(a, s0, Replace);
    assert s1 == After(s1, k, 0, NoBuild);
    steps := Passes(b, s1, k, 0, n, NoBuild);
  }

  /** A relay that has reached `k` opens the next controller's dedicated gates up to `k` over old content. */
  lemma CarriedSequenceOpens(n: nat, k: nat) returns (steps: seq<Step>, e: Served)
    requires 1 <= n <= k
    ensures var s := RunFrom(INIT, steps);
            && CountsLeaf(s, KEY, LEAF, n) && s.relay.carried == k
            && e in s.evidence[LEAF] && e.seqNo >= n && n <= Max(e.source.captured, 1)
            && !GivenBy(s.hist, KEY, e.content, n)
  {
    var a := ControllerSucceeds(k, n);
    ReportedState(Succeeded(k, n), k, k);
    NotGiven(k, n, n, k);
    var s;
    steps, s := Next(a, Succeeded(k, n), Report([LeafChild(k)]));
    GateOpens(s, k, n);
    e := Old(k, k);
  }

  /**
   Over a relay that carries `k`, what a leaf was served from views captured at or past the stamp is
   honest for the open gate at stamp `n`, in every run, exactly when `n > k`.
   */
  lemma CarriedExact(n: nat, k: nat)
    requires n >= 1
    ensures n > k <==>
            forall steps: seq<Step>, key: ObjectKey, id: string, e: Served ::
              (CountsLeaf(RunFrom(INIT, steps), key, id, n) && RunFrom(INIT, steps).relay.carried == k
               && e in RunFrom(INIT, steps).evidence[id] && e.seqNo >= n && n <= Max(e.source.captured, 1)) ==>
                GivenBy(RunFrom(INIT, steps).hist, key, e.content, n)
  {
    if n > k {
      forall steps: seq<Step>, key: ObjectKey, id: string, e: Served
        | CountsLeaf(RunFrom(INIT, steps), key, id, n) && RunFrom(INIT, steps).relay.carried == k
          && e in RunFrom(INIT, steps).evidence[id] && e.seqNo >= n && n <= Max(e.source.captured, 1)
        ensures GivenBy(RunFrom(INIT, steps).hist, key, e.content, n)
      {
        WithinCaptureIsHonest(steps, key, id, n);
      }
    } else {
      var steps, e := CarriedSequenceOpens(n, k);
    }
  }
}
