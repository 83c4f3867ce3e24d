/**
 The publish/ack protocol behind the `Programmed` gate, as interleaved atomic steps: the rebuild
 loop stores the routing cells, ticking the rebuild watch once on the way and once after stamping;
 each stream of a discovery server reads the watch, looks the view of its scope up in the one-slot
 cache, builds it on a miss, and pushes it; nodes ack; relays apply what they are pushed, serve it
 on, and report their leaves upward; a controller may be replaced by one that counts from zero.
 */
module ConvergenceGate {
  import opened Options
  import opened PublishIndex
  import R = NodeRegistry
  import RegistryGate

  // ---- Cells ----

  /**
   The routing cells a view is materialized from. `SharedStatus` and `DedicatedStatus` are the two
   scoped slices of the listener-status map; `Dedicated(k)` is one slice of the dedicated registry.
   */
  datatype Cell =
    | Ingress | GatewayRoutes | Tls | ClientCerts | SharedStatus
    | DedicatedStatus | Passthrough | Terminate | Tcp | Udp
    | Dedicated(key: ObjectKey)

  /** The cells a rebuild stores before its first tick of the rebuild watch. */
  predicate Early(c: Cell) {
    c.Ingress? || c.GatewayRoutes? || c.Tls? || c.ClientCerts? || c.SharedStatus?
  }

  /** Cell contents, abstractly; equal values stand for equal content hashes. */
  type Value = nat

  type World = map<Cell, Value>

  /** The cells a scope's view is built from. */
  predicate Covers(scope: R.NodeScope, c: Cell) {
    match scope
    case SharedPool => !c.Dedicated?
    case Gateway(ns, name) => c == Dedicated(ObjectKey(ns, name))
    case Namespace(_) => false
  }

  ghost predicate FullFor(scope: R.NodeScope, w: World) {
    forall c :: c in w <==> Covers(scope, c)
  }

  /** Before the first rebuild the shared cells hold default tables and the registry is empty. */
  const INITIAL: World :=
    map[Ingress := 0, GatewayRoutes := 0, Tls := 0, ClientCerts := 0, SharedStatus := 0,
        DedicatedStatus := 0, Passthrough := 0, Terminate := 0, Tcp := 0, Udp := 0]

  function InitialAt(c: Cell): Option<Value> {
    if c.Dedicated? then None else Some(0)
  }

  /** The cells `cs` of `w` replaced by those of `from`, absence included. */
  function Overlay(w: World, from: World, cs: set<Cell>): World {
    map c | c in w.Keys + from.Keys && (if c in cs then c in from else c in w) ::
      if c in cs && c in from then from[c] else if c in w then w[c] else 0
  }

  // ---- State ----

  /** One pass of the rebuild loop: what it stores and what it stamps. */
  datatype Pass = Pass(cells: World, published: map<ObjectKey, Content>)

  /** `ticked`: the tick between the early and the late cells has happened. */
  datatype Phase = Idle | Storing(todo: set<Cell>, ticked: bool) | Bumped | Stamped

  datatype View = View(scope: R.NodeScope, version: string, seqNo: nat, world: World)

  /** The cached view of a scope, tagged with the generation its builder had read. */
  datatype Slot = Slot(tag: nat, view: View)

  /** Where a stream's lookup stands; every stage remembers the generation it started from. */
  datatype Call =
    | NoCall
    | Holding(generation: nat)
    | Missed(generation: nat)
    | Building(generation: nat, captured: nat, got: World)
    | Absent(generation: nat)

  datatype Stream = Stream(
    scope: R.NodeScope, session: nat, call: Call, pending: Option<View>, baseline: Option<World>)

  /** One discovery server: what it serves from, its view cache, its streams and its node registry. */
  datatype Tier = Tier(
    cells: World,
    counter: nat,
    generation: nat,
    slots: map<R.NodeScope, Slot>,
    streams: map<string, Stream>,
    registry: R.Registry)

  /** `stale`: the view came from a controller that has been replaced since. */
  datatype Applying = Applying(view: View, todo: set<Cell>, stale: bool)

  /** The session a reported leaf was in, and the relay's carried sequence, when the report was taken. */
  datatype Origin = Origin(session: nat, carried: nat)

  datatype Report = Report(children: seq<R.RosterChild>, origins: map<string, Origin>)

  /**
   `carried` is the greatest sequence the relay had reached under earlier controllers; `outbox` holds
   the reports under way on its stream. Both `carried` and `origins` are history: no step reads them.
   */
  datatype Relay = Relay(
    tier: Tier, applying: Option<Applying>, tickOwed: bool, carried: nat, outbox: seq<Report>)

  /** `acked` records which worlds were acknowledged in each session; it is history like `origins`. */
  datatype State = State(
    hist: seq<Pass>,
    phase: Phase,
    stamps: Stamps,
    root: Tier,
    relays: map<string, Relay>,
    origins: map<string, Origin>,
    sessions: nat,
    acked: map<nat, set<World>>)

  const FRESH_TIER: Tier := Tier(INITIAL, 0, 0, map[], map[], R.Registry(map[], 0, 0))
  const FRESH_RELAY: Relay := Relay(FRESH_TIER, None, false, 0, [])
  const INIT: State := State([], Idle, map[], FRESH_TIER, map[], map[], 0, map[])

  // ---- Server steps ----

  /** `full` marks the resync after a Nack, which ignores the baseline and any view in flight. */
  datatype TierStep =
    | Connect(node: string, scope: R.NodeScope, now: nat)
    | Wake(node: string)
    | Ack(node: string, now: nat)
    | StaleAck(node: string, version: string, now: nat)
    | Sleep(node: string)
    | Hit(node: string, full: bool)
    | Miss(node: string)
    | Capture(node: string)
    | Read(node: string, cells: set<Cell>)
    | ReadAbsent(node: string)
    | Store(node: string, version: string, full: bool)
    | Deny(node: string, version: string, full: bool)
    | Disconnect(node: string)
    | Evict(node: string)
    | Target(node: string, version: string)
    | Ports(node: string, ports: set<R.Port>)

  function WithRegistry(t: Tier, op: R.Op): Tier {
    t.(registry := R.Step(t.registry, op))
  }

  function WithStream(t: Tier, n: string, st: Stream): Tier {
    t.(streams := t.streams[n := st])
  }

  function WithCall(t: Tier, n: string, call: Call): Tier
    requires n in t.streams
  {
    WithStream(t, n, t.streams[n].(call := call))
  }

  predicate InCall(t: Tier, n: string) {
    n in t.streams && !t.streams[n].call.NoCall?
  }

  /** Whether the slot of this stream's scope satisfies the generation it read. */
  predicate Cached(t: Tier, n: string)
    requires InCall(t, n)
  {
    t.streams[n].scope in t.slots && t.slots[t.streams[n].scope].tag >= t.streams[n].call.generation
  }

  /** The view a finished build amounts to; a Gateway that is not cut over yields an empty world at 0. */
  ghost function Built(st: Stream, version: string): Option<View> {
    match st.call
    case Building(_, captured, got) =>
      if FullFor(st.scope, got) then Some(View(st.scope, version, captured, got)) else None
    case Absent(_) => Some(View(st.scope, version, 0, map[]))
    case _ => None
  }

  /** Ends a lookup: a view in flight is left alone, an unchanged world advances the node, else push. */
  function Serve(t: Tier, n: string, v: View, full: bool): Tier
    requires n in t.streams
  {
    var st := t.streams[n];
    if full then WithStream(t, n, st.(call := NoCall, pending := Some(v)))
    else if st.pending.Some? then WithCall(t, n, NoCall)
    else if st.baseline == Some(v.world) then WithRegistry(WithCall(t, n, NoCall), R.AdvanceAckedSeq(n, v.seqNo))
    else WithStream(t, n, st.(call := NoCall, pending := Some(v)))
  }

  /** Reading the watch, the cache and the cells; a step whose guard fails changes nothing. */
  ghost function LookupDo(t: Tier, step: TierStep): Tier {
    match step
    case Wake(n) => if n in t.streams && !InCall(t, n) then WithCall(t, n, Holding(t.generation)) else t
    case Sleep(n) => if InCall(t, n) && t.streams[n].call.Holding? then WithCall(t, n, NoCall) else t
    case Hit(n, full) =>
      if InCall(t, n) && t.streams[n].call.Holding? && Cached(t, n)
      then Serve(t, n, t.slots[t.streams[n].scope].view, full)
      else t
    case Miss(n) =>
      if InCall(t, n) && t.streams[n].call.Holding? && !Cached(t, n)
      then WithCall(t, n, Missed(t.streams[n].call.generation))
      else t
    case Capture(n) =>
      if InCall(t, n) && t.streams[n].call.Missed?
      then WithCall(t, n, Building(t.streams[n].call.generation, t.counter, map[]))
      else t
    case Read(n, cs) =>
      if InCall(t, n) && t.streams[n].call.Building? then
        var call := t.streams[n].call;
        var loaded := map c | c in t.cells && c in cs && Covers(t.streams[n].scope, c) :: t.cells[c];
        WithCall(t, n, call.(got := call.got + loaded))
      else t
    case ReadAbsent(n) =>
      if InCall(t, n) && t.streams[n].call.Building? && t.streams[n].scope.Gateway?
         && (forall c :: c in t.cells ==> !Covers(t.streams[n].scope, c))
      then WithCall(t, n, Absent(t.streams[n].call.generation))
      else t
    case Store(n, version, full) =>
      if InCall(t, n) && Built(t.streams[n], version).Some? then
        if Cached(t, n) then Serve(t, n, t.slots[t.streams[n].scope].view, full)
        else
          var v := Built(t.streams[n], version).value;
          Serve(t.(slots := t.slots[v.scope := Slot(t.streams[n].call.generation, v)]), n, v, full)
      else t
    case Deny(n, version, full) =>
      if InCall(t, n) && t.streams[n].call.Holding? && t.streams[n].scope.Gateway?
      then Serve(t, n, View(t.streams[n].scope, version, 0, map[]), full)
      else t
    case _ => t
  }

  /** Membership, acknowledgements and the facts a node reports about itself. */
  function NodeDo(t: Tier, session: nat, step: TierStep): Tier {
    match step
    case Connect(n, scope, now) =>
      WithRegistry(WithStream(t, n, Stream(scope, session, NoCall, None, None)), R.Connect(n, scope, now))
    case Ack(n, now) =>
      if InCall(t, n) && t.streams[n].call.Holding? && t.streams[n].pending.Some? then
        var v := t.streams[n].pending.value;
        WithRegistry(WithStream(t, n, t.streams[n].(pending := None, baseline := Some(v.world))),
                     R.RecordAck(n, v.version, v.seqNo, now))
      else t
    case StaleAck(n, version, now) =>
      if InCall(t, n) && t.streams[n].call.Holding? then WithRegistry(t, R.RecordAck(n, version, 0, now)) else t
    case Disconnect(n) =>
      if n in t.streams then WithRegistry(t.(streams := t.streams - {n}), R.Disconnect(n)) else t
    case Evict(n) => WithRegistry(t, R.EvictChildren(n))
    case Target(n, version) => if n in t.streams then WithRegistry(t, R.RecordTarget(n, version)) else t
    case Ports(n, ports) => if n in t.streams then WithRegistry(t, R.RecordBoundPorts(n, ports)) else t
    case _ => t
  }

  predicate IsLookup(step: TierStep) {
    step.Wake? || step.Sleep? || step.Hit? || step.Miss? || step.Capture? || step.Read? || step.ReadAbsent?
    || step.Store? || step.Deny?
  }

  ghost function TierDo(t: Tier, session: nat, step: TierStep): Tier {
    if IsLookup(step) then LookupDo(t, step) else NodeDo(t, session, step)
  }

  function AckedBy(acked: map<nat, set<World>>, t: Tier, step: TierStep): map<nat, set<World>> {
    if step.Ack? && InCall(t, step.node) && t.streams[step.node].call.Holding? && t.streams[step.node].pending.Some?
    then
      var st := t.streams[step.node];
      acked[st.session := (if st.session in acked then acked[st.session] else {}) + {st.pending.value.world}]
    else acked
  }

  // ---- Relay steps ----

  /**
   Starts applying the view pushed on the relay's stream. A tick still owed is forgone, as when the
   session ended before the ack of the last view could be sent.
   */
  function BeginApplyOn(x: Relay, st: Stream): Relay {
    if x.applying.None? && st.scope == R.SharedPool && st.pending.Some?
    then x.(applying := Some(Applying(st.pending.value, st.pending.value.world.Keys, false)), tickOwed := false)
    else x
  }

  function ApplyCellsTo(x: Relay, cs: set<Cell>): Relay {
    if x.applying.Some? then
      var a := x.applying.value;
      var done := map c | c in a.todo && c in cs && c in a.view.world :: a.view.world[c];
      x.(tier := x.tier.(cells := x.tier.cells + done), applying := Some(a.(todo := a.todo - cs)))
    else x
  }

  /** All cells stored: only now does the relay raise its counter, and owe its streams a tick. */
  function FinishApplyOn(x: Relay): Relay {
    if x.applying.Some? && x.applying.value.todo == {}
    then x.(tier := x.tier.(counter := Max(x.tier.counter, x.applying.value.view.seqNo)),
            applying := None, tickOwed := true)
    else x
  }

  function TickOn(x: Relay): Relay {
    if x.tickOwed then x.(tier := x.tier.(generation := x.tier.generation + 1), tickOwed := false) else x
  }

  /** A report restates every row of the relay's own registry. */
  ghost predicate Reports(nodes: R.Nodes, cs: seq<R.RosterChild>) {
    && (forall i :: 0 <= i < |cs| ==> cs[i].nodeId in nodes && cs[i] == RegistryGate.Restate(nodes[cs[i].nodeId]))
    && (forall id :: id in nodes ==> exists i :: 0 <= i < |cs| && cs[i].nodeId == id)
  }

  function OriginsOf(x: Relay): map<string, Origin> {
    map id | id in x.tier.streams :: Origin(x.tier.streams[id].session, x.carried)
  }

  /** The relay outlives its controller, with the sequence it has reached or is about to reach. */
  function Orphaned(x: Relay): Relay {
    var applying := if x.applying.Some? then Some(x.applying.value.(stale := true)) else None;
    var reached := if x.applying.Some? then x.applying.value.view.seqNo else 0;
    x.(applying := applying, carried := Max(x.carried, Max(x.tier.counter, reached)), outbox := [])
  }

  // ---- Steps ----

  /** `Read`, `StoreCells` and `ApplyCells` stand for any number of consecutive loads or stores. */
  datatype Step =
    | BeginPass(pass: Pass)
    | StoreCells(cells: set<Cell>)
    | Tick
    | BumpCounter
    | StoreStamps
    | EndTick
    | Replace
    | AtRoot(step: TierStep)
    | StartRelay(relay: string)
    | AtRelay(relay: string, step: TierStep)
    | BeginApply(relay: string)
    | ApplyCells(relay: string, cells: set<Cell>)
    | FinishApply(relay: string)
    | RelayTick(relay: string)
    | SendReport(relay: string, children: seq<R.RosterChild>)
    | DeliverReport(relay: string)

  predicate Rebuilds(step: Step) {
    step.BeginPass? || step.StoreCells? || step.Tick? || step.BumpCounter? || step.StoreStamps? || step.EndTick?
  }

  /** The rebuild loop, in its own order. */
  ghost function RebuildDo(s: State, step: Step): State {
    match step
    case BeginPass(pass) =>
      if s.phase.Idle?
      then s.(hist := s.hist + [pass], phase := Storing(s.root.cells.Keys + pass.cells.Keys, false))
      else s
    case StoreCells(cs) =>
      if s.phase.Storing? && s.hist != [] && cs <= s.phase.todo && (s.phase.ticked || forall c :: c in cs ==> Early(c))
      then s.(root := s.root.(cells := Overlay(s.root.cells, s.hist[|s.hist| - 1].cells, cs)),
              phase := Storing(s.phase.todo - cs, s.phase.ticked))
      else s
    case Tick =>
      if s.phase.Storing? && !s.phase.ticked && (forall c :: c in s.phase.todo ==> !Early(c))
      then s.(phase := Storing(s.phase.todo, true), root := s.root.(generation := s.root.generation + 1))
      else s
    case BumpCounter =>
      if s.phase == Storing({}, true) then s.(root := s.root.(counter := s.root.counter + 1), phase := Bumped) else s
    case StoreStamps =>
      if s.phase.Bumped? && s.hist != []
      then s.(stamps := Restamp(s.stamps, s.hist[|s.hist| - 1].published, s.root.counter), phase := Stamped)
      else s
    case EndTick =>
      if s.phase.Stamped? then s.(root := s.root.(generation := s.root.generation + 1), phase := Idle) else s
    case _ => s
  }

  function WithRelay(s: State, r: string, x: Relay): State {
    s.(relays := s.relays[r := x])
  }

  /** A relay's stream that opens or closes takes the reports under way with it. */
  function Unlinked(relays: map<string, Relay>, ts: TierStep): map<string, Relay> {
    if (ts.Connect? || ts.Disconnect?) && ts.node in relays
    then relays[ts.node := relays[ts.node].(outbox := [])]
    else relays
  }

  function NextSession(sessions: nat, ts: TierStep): nat {
    if ts.Connect? then sessions + 1 else sessions
  }

  /** A relay process starting, and the stages of its applies. */
  function RelayDo(s: State, step: Step): State {
    match step
    case StartRelay(r) => if r in s.root.streams then s else WithRelay(s, r, FRESH_RELAY)
    case BeginApply(r) =>
      if r in s.relays && r in s.root.streams then WithRelay(s, r, BeginApplyOn(s.relays[r], s.root.streams[r])) else s
    case ApplyCells(r, cs) => if r in s.relays then WithRelay(s, r, ApplyCellsTo(s.relays[r], cs)) else s
    case FinishApply(r) => if r in s.relays then WithRelay(s, r, FinishApplyOn(s.relays[r])) else s
    case RelayTick(r) => if r in s.relays then WithRelay(s, r, TickOn(s.relays[r])) else s
    case _ => s
  }

  /** The oldest report under way reaches the controller. */
  function Delivered(s: State, r: string): State
    requires r in s.relays && s.relays[r].outbox != []
  {
    var rep := s.relays[r].outbox[0];
    WithRelay(s, r, s.relays[r].(outbox := s.relays[r].outbox[1..]))
      .(root := WithRegistry(s.root, R.ApplyRoster(r, rep.children)), origins := s.origins + rep.origins)
  }

  /** Sending and folding of roster reports. */
  ghost function ReportDo(s: State, step: Step): State {
    match step
    case SendReport(r, cs) =>
      if r in s.relays && r in s.root.streams && Reports(s.relays[r].tier.registry.nodes, cs)
      then WithRelay(s, r, s.relays[r].(outbox := s.relays[r].outbox + [Report(cs, OriginsOf(s.relays[r]))]))
      else s
    case DeliverReport(r) =>
      if r in s.relays && r in s.root.streams && s.relays[r].outbox != [] then Delivered(s, r) else s
    case _ => s
  }

  ghost function Do(s: State, step: Step): State {
    if Rebuilds(step) then RebuildDo(s, step)
    else match step
      case Replace =>
        s.(hist := [], phase := Idle, stamps := map[], root := FRESH_TIER, origins := map[],
           relays := map r | r in s.relays :: Orphaned(s.relays[r]))
      case AtRoot(ts) =>
        s.(root := TierDo(s.root, s.sessions, ts), acked := AckedBy(s.acked, s.root, ts),
           sessions := NextSession(s.sessions, ts), relays := Unlinked(s.relays, ts))
      case AtRelay(r, ts) =>
        if r in s.relays
        then s.(relays := s.relays[r := s.relays[r].(tier := TierDo(s.relays[r].tier, s.sessions, ts))],
                acked := AckedBy(s.acked, s.relays[r].tier, ts), sessions := NextSession(s.sessions, ts))
        else s
      case SendReport(_, _) => ReportDo(s, step)
      case DeliverReport(_) => ReportDo(s, step)
      case _ => RelayDo(s, step)
  }

  ghost function RunFrom(s: State, steps: seq<Step>): State {
    if steps == [] then s else Do(RunFrom(s, steps[..|steps| - 1]), steps[|steps| - 1])
  }

  // ---- What the gate is meant to guarantee ----

  /** Cell `c` as the `j`-th rebuild of this controller left it; rebuild 0 is the initial state. */
  function CellAt(hist: seq<Pass>, j: int, c: Cell): Option<Value>
    requires 0 <= j <= |hist|
  {
    if j == 0 then InitialAt(c) else Lookup(hist[j - 1].cells, c)
  }

  /** `v` is what some rebuild at or after sequence `n` stored in `c`; nothing is claimed below 1. */
  ghost predicate FreshAt(hist: seq<Pass>, c: Cell, v: Value, n: int) {
    n <= 0 || exists j :: n <= j <= |hist| && CellAt(hist, j, c) == Some(v)
  }

  /** Every early cell of `w` is of rebuild `n` or later, every late one of `n - lag` or later. */
  ghost predicate AtLeast(hist: seq<Pass>, w: World, n: int, lag: nat) {
    forall c :: c in w ==> FreshAt(hist, c, w[c], if Early(c) then n else n - lag)
  }

  /** In its session the node acknowledged a full world of its scope that is at least that new. */
  ghost predicate HasAcked(hist: seq<Pass>, acked: map<nat, set<World>>, session: nat, scope: R.NodeScope, n: int,
                           lag: nat) {
    session in acked && exists w :: w in acked[session] && FullFor(scope, w) && AtLeast(hist, w, n, lag)
  }

  /** Rebuilds whose stamps are stored. */
  function StampedCount(s: State): nat {
    if s.phase.Idle? || s.phase.Stamped? || s.hist == [] then |s.hist| else |s.hist| - 1
  }

  /** The stamp's rebuild (`hist[seqNo - 1]`) and every stamped one since published the stamped content. */
  ghost predicate StampHolds(s: State, key: ObjectKey) {
    key in s.stamps ==>
      && 1 <= s.stamps[key].seqNo <= StampedCount(s)
      && forall i :: s.stamps[key].seqNo - 1 <= i < StampedCount(s) ==>
           key in s.hist[i].published && s.hist[i].published[key] == s.stamps[key].content
  }

  /**
   What a row that counts as acked at `n` tells. A direct node has acknowledged, in this session, a
   world of rebuild `n` or later. A folded leaf has done so in the session it was reported in, its late
   cells one rebuild older at most, unless `n` is a sequence the relay carried over.
   */
  ghost predicate RowHonest(s: State, id: string, n: nat)
    requires id in s.root.registry.nodes
  {
    var row := s.root.registry.nodes[id];
    if row.parent.None?
    then id in s.root.streams && HasAcked(s.hist, s.acked, s.root.streams[id].session, row.scope, n, 0)
    else id in s.origins &&
         (n > s.origins[id].carried ==> HasAcked(s.hist, s.acked, s.origins[id].session, row.scope, n, 1))
  }

  predicate SharedGateOpen(s: State, key: ObjectKey) {
    key in s.stamps && R.AllSharedNodesAcked(s.root.registry.nodes, s.stamps[key].seqNo)
  }

  predicate DedicatedGateOpen(s: State, key: ObjectKey) {
    key in s.stamps && R.GatewayNodeAcked(s.root.registry.nodes, key.ns, key.name, s.stamps[key].seqNo)
  }

  /** An open gate is honest for `key`, in shared mode and in dedicated mode. */
  ghost predicate GateHonest(s: State, key: ObjectKey) {
    && StampHolds(s, key)
    && (SharedGateOpen(s, key) ==>
          forall id :: id in s.root.registry.nodes && R.IsSharedLeaf(s.root.registry.nodes[id]) ==>
            RowHonest(s, id, s.stamps[key].seqNo))
    && (DedicatedGateOpen(s, key) ==>
          forall id :: id in s.root.registry.nodes && R.Serves(s.root.registry.nodes[id], key.ns, key.name) ==>
            RowHonest(s, id, s.stamps[key].seqNo))
  }
}
