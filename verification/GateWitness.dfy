/** Runs in which the one-slot view cache serves a node one rebuild less than it already holds. */
module GateWitness {
  import opened Options
  import opened PublishIndex
  import opened ConvergenceGate
  import opened GateRuns
  import R = NodeRegistry

  // ---- Steps of one server, the controller or a relay ----

  datatype Site = Controller | Behind(relay: string)

  predicate Exists(s: State, site: Site) {
    site.Behind? ==> site.relay in s.relays
  }

  function TierAt(s: State, site: Site): Tier
    requires Exists(s, site)
  {
    if site.Controller? then s.root else s.relays[site.relay].tier
  }

  function PutTier(s: State, site: Site, t: Tier): State
    requires Exists(s, site)
  {
    if site.Controller? then s.(root := t) else WithRelay(s, site.relay, s.relays[site.relay].(tier := t))
  }

  lemma PutTwice(s: State, site: Site, t: Tier, t': Tier)
    requires Exists(s, site)
    ensures Exists(PutTier(s, site, t), site) && TierAt(PutTier(s, site, t), site) == t
    ensures PutTier(PutTier(s, site, t), site, t') == PutTier(s, site, t')
  {
  }

  lemma StreamTwice(t: Tier, n: string, st: Stream, st': Stream)
    ensures WithStream(WithStream(t, n, st), n, st') == WithStream(t, n, st')
  {
  }

  function At(site: Site, ts: TierStep): Step {
    if site.Controller? then AtRoot(ts) else AtRelay(site.relay, ts)
  }

  lemma Look(steps: seq<Step>, s: State, site: Site, ts: TierStep, t: Tier) returns (steps': seq<Step>, s': State)
    requires Reaches(steps, s) && Exists(s, site) && IsLookup(ts) && LookupDo(TierAt(s, site), ts) == t
    ensures Reaches(steps', s') && s' == PutTier(s, site, t) && Exists(s', site) && TierAt(s', site) == t
  {
    LookupAtRoot(s, ts);
    if site.Behind? {
      LookupAtRelay(s, site.relay, ts);
    }
    steps', s' := Next(steps, s, At(site, ts));
  }

  function Joined(t: Tier, n: string, session: nat): Tier {
    t.(streams := t.streams[n := Shared(session, NoCall, None, None)],
       registry := R.Step(t.registry, R.Connect(n, R.SharedPool, 0)))
  }

  /** A node connects; a relay does so with nothing under way. */
  lemma Join(steps: seq<Step>, s: State, site: Site, n: string) returns (steps': seq<Step>, s': State)
    requires Reaches(steps, s) && Exists(s, site) && (site.Controller? && n in s.relays ==> s.relays[n].outbox == [])
    ensures Reaches(steps', s')
            && s' == PutTier(s, site, Joined(TierAt(s, site), n, s.sessions)).(sessions := s.sessions + 1)
    ensures Exists(s', site) && TierAt(s', site) == Joined(TierAt(s, site), n, s.sessions)
  {
    var ts := Connect(n, R.SharedPool, 0);
    steps', s' := Next(steps, s, At(site, ts));
    assert site.Controller? ==> Unlinked(s.relays, ts) == s.relays by {
      if site.Controller? && n in s.relays {
        assert s.relays[n].(outbox := []) == s.relays[n];
      }
    }
  }

  function AckedTier(t: Tier, n: string, k: nat, v: View): Tier {
    t.(streams := t.streams[n := Shared(k, Holding(t.generation), None, Some(v.world))],
       registry := R.Step(t.registry, R.RecordAck(n, v.version, v.seqNo, 0)))
  }

  function WithAck(acked: map<nat, set<World>>, k: nat, w: World): map<nat, set<World>> {
    acked[k := (if k in acked then acked[k] else {}) + {w}]
  }

  lemma AckedStep(t: Tier, n: string, k: nat, v: View, g: nat, baseline: Option<World>, session: nat)
    requires n in t.streams && t.streams[n] == Shared(k, Holding(g), Some(v), baseline)
    ensures TierDo(t, session, Ack(n, 0)) == t.(streams := t.streams[n := Shared(k, Holding(g), None, Some(v.world))],
                                                registry := R.Step(t.registry, R.RecordAck(n, v.version, v.seqNo, 0)))
    ensures forall acked :: AckedBy(acked, t, Ack(n, 0)) == WithAck(acked, k, v.world)
  {
  }

  /** The client's ack arrives: the generation is read, then the pending view is promoted and recorded. */
  lemma AckPending(steps: seq<Step>, s: State, site: Site, n: string, k: nat, v: View, baseline: Option<World>)
    returns (steps': seq<Step>, s': State)
    requires Reaches(steps, s) && Exists(s, site) && n in TierAt(s, site).streams
    requires TierAt(s, site).streams[n] == Shared(k, NoCall, Some(v), baseline)
    ensures Reaches(steps', s')
    ensures s' == PutTier(s, site, AckedTier(TierAt(s, site), n, k, v)).(acked := WithAck(s.acked, k, v.world))
    ensures Exists(s', site) && TierAt(s', site) == AckedTier(TierAt(s, site), n, k, v)
  {
    var t := TierAt(s, site);
    var t1 := WithStream(t, n, Shared(k, Holding(t.generation), Some(v), baseline));
    var a, s1 := Look(steps, s, site, Wake(n), t1);
    AckedStep(t1, n, k, v, t.generation, baseline, s1.sessions);
    AckedTwice(t, n, k, v, baseline);
    PutTwice(s, site, t1, AckedTier(t, n, k, v));
    steps', s' := Next(a, s1, At(site, Ack(n, 0)));
  }

  lemma AckedTwice(t: Tier, n: string, k: nat, v: View, baseline: Option<World>)
    ensures var t1 := WithStream(t, n, Shared(k, Holding(t.generation), Some(v), baseline));
            t1.(streams := t1.streams[n := Shared(k, Holding(t.generation), None, Some(v.world))],
                registry := R.Step(t1.registry, R.RecordAck(n, v.version, v.seqNo, 0))) == AckedTier(t, n, k, v)
  {
  }

  lemma WakeUp(steps: seq<Step>, s: State, site: Site, n: string, k: nat, baseline: Option<World>)
    returns (steps': seq<Step>, s': State)
    requires Reaches(steps, s) && Exists(s, site) && n in TierAt(s, site).streams
    requires TierAt(s, site).streams[n] == Shared(k, NoCall, None, baseline)
    ensures Reaches(steps', s') && Exists(s', site)
    ensures var t := TierAt(s, site);
            s' == PutTier(s, site, WithStream(t, n, Shared(k, Holding(t.generation), None, baseline)))
  {
    var t := TierAt(s, site);
    steps', s' := Look(steps, s, site, Wake(n), WithStream(t, n, Shared(k, Holding(t.generation), None, baseline)));
  }

  /** No cached view satisfies generation `g`. */
  predicate Uncached(t: Tier, g: nat) {
    R.SharedPool in t.slots ==> t.slots[R.SharedPool].tag < g
  }

  lemma MissAt(steps: seq<Step>, s: State, site: Site, n: string, k: nat, g: nat, baseline: Option<World>)
    returns (steps': seq<Step>, s': State)
    requires Reaches(steps, s) && Exists(s, site) && n in TierAt(s, site).streams
    requires TierAt(s, site).streams[n] == Shared(k, Holding(g), None, baseline) && Uncached(TierAt(s, site), g)
    ensures Reaches(steps', s') && Exists(s', site)
    ensures s' == PutTier(s, site, WithStream(TierAt(s, site), n, Shared(k, Missed(g), None, baseline)))
  {
    steps', s' := Look(steps, s, site, Miss(n), WithStream(TierAt(s, site), n, Shared(k, Missed(g), None, baseline)));
  }

  lemma CaptureAndRead(steps: seq<Step>, s: State, site: Site, n: string, k: nat, g: nat, baseline: Option<World>)
    returns (steps': seq<Step>, s': State)
    requires Reaches(steps, s) && Exists(s, site) && n in TierAt(s, site).streams
    requires TierAt(s, site).streams[n] == Shared(k, Missed(g), None, baseline)
    requires FullFor(R.SharedPool, TierAt(s, site).cells)
    ensures Reaches(steps', s') && Exists(s', site)
    ensures var t := TierAt(s, site);
            s' == PutTier(s, site, WithStream(t, n, Shared(k, Building(g, t.counter, t.cells), None, baseline)))
  {
    var t := TierAt(s, site);
    var t1 := WithStream(t, n, Shared(k, Building(g, t.counter, map[]), None, baseline));
    var a, s1 := Look(steps, s, site, Capture(n), t1);
    ReadAll(t1, n, k, g, t.counter, baseline);
    var t2 := WithStream(t, n, Shared(k, Building(g, t.counter, t.cells), None, baseline));
    assert WithStream(t1, n, Shared(k, Building(g, t.counter, t.cells), None, baseline)) == t2;
    steps', s' := Look(a, s1, site, Read(n, t.cells.Keys), t2);
  }

  function StoredTier(t: Tier, n: string, k: nat, g: nat, v: View, baseline: Option<World>): Tier {
    WithStream(t.(slots := t.slots[R.SharedPool := Slot(g, v)]), n, Shared(k, NoCall, Some(v), baseline))
  }

  lemma StoreAt(steps: seq<Step>, s: State, site: Site, n: string, k: nat, g: nat, captured: nat, got: World,
                baseline: Option<World>)
    returns (steps': seq<Step>, s': State)
    requires Reaches(steps, s) && Exists(s, site) && n in TierAt(s, site).streams
    requires TierAt(s, site).streams[n] == Shared(k, Building(g, captured, got), None, baseline)
    requires FullFor(R.SharedPool, got) && baseline != Some(got) && Uncached(TierAt(s, site), g)
    ensures Reaches(steps', s') && Exists(s', site)
    ensures s' == PutTier(s, site,
                          StoredTier(TierAt(s, site), n, k, g, View(R.SharedPool, "", captured, got), baseline))
  {
    StoreBuilt(TierAt(s, site), n, k, g, captured, got, baseline);
    steps', s' := Look(steps, s, site, Store(n, "", false),
                       StoredTier(TierAt(s, site), n, k, g, View(R.SharedPool, "", captured, got), baseline));
  }

  /** The slot satisfies the generation read, and its world is new to the node. */
  lemma HitAt(steps: seq<Step>, s: State, site: Site, n: string, k: nat, g: nat, slot: Slot, baseline: Option<World>)
    returns (steps': seq<Step>, s': State)
    requires Reaches(steps, s) && Exists(s, site) && n in TierAt(s, site).streams
    requires TierAt(s, site).streams[n] == Shared(k, Holding(g), None, baseline)
    requires R.SharedPool in TierAt(s, site).slots && TierAt(s, site).slots[R.SharedPool] == slot && slot.tag >= g
    requires baseline != Some(slot.view.world)
    ensures Reaches(steps', s') && Exists(s', site)
    ensures s' == PutTier(s, site, WithStream(TierAt(s, site), n, Shared(k, NoCall, Some(slot.view), baseline)))
  {
    steps', s' := Look(steps, s, site, Hit(n, false),
                       WithStream(TierAt(s, site), n, Shared(k, NoCall, Some(slot.view), baseline)));
  }

  /** A lookup that misses and builds with nothing in between. */
  lemma BuildAt(steps: seq<Step>, s: State, site: Site, n: string, k: nat, g: nat, baseline: Option<World>)
    returns (steps': seq<Step>, s': State)
    requires Reaches(steps, s) && Exists(s, site) && n in TierAt(s, site).streams
    requires TierAt(s, site).streams[n] == Shared(k, Holding(g), None, baseline) && Uncached(TierAt(s, site), g)
    requires FullFor(R.SharedPool, TierAt(s, site).cells) && baseline != Some(TierAt(s, site).cells)
    ensures Reaches(steps', s') && Exists(s', site)
    ensures var t := TierAt(s, site); s' == PutTier(s, site, StoredTier(t, n, k, g, ViewAt(t, t.cells), baseline))
  {
    var t := TierAt(s, site);
    var a, s1 := MissAt(steps, s, site, n, k, g, baseline);
    var t1 := WithStream(t, n, Shared(k, Missed(g), None, baseline));
    PutTwice(s, site, t1, t1);
    var b, s2 := CaptureAndRead(a, s1, site, n, k, g, baseline);
    var t2 := WithStream(t, n, Shared(k, Building(g, t.counter, t.cells), None, baseline));
    StreamTwice(t, n, t1.streams[n], t2.streams[n]);
    PutTwice(s, site, t1, t2);
    PutTwice(s, site, t2, StoredTier(t, n, k, g, ViewAt(t, t.cells), baseline));
    StoredTwice(t, n, t2.streams[n], k, g, ViewAt(t, t.cells), baseline);
    steps', s' := StoreAt(b, s2, site, n, k, g, t.counter, t.cells, baseline);
  }

  lemma StoredTwice(t: Tier, n: string, st: Stream, k: nat, g: nat, v: View, baseline: Option<World>)
    ensures StoredTier(WithStream(t, n, st), n, k, g, v, baseline) == StoredTier(t, n, k, g, v, baseline)
  {
  }

  // ---- The race of two lookups over one rebuild ----

  /** Rebuild `q`'s early cells and the previous one's late cells. */
  function Mixed(base: World, q: nat): World
    requires q >= 1
  {
    Half(base, q, q - 1)
  }

  function WholeView(base: World, q: nat): View {
    View(R.SharedPool, "", q, All(base, q))
  }

  function MixedView(base: World, q: nat): View
    requires q >= 1
  {
    View(R.SharedPool, "", q - 1, Mixed(base, q))
  }

  ghost predicate Two(s: State, n: string, sn: Stream, b: string, sb: Stream) {
    n in s.root.streams && b in s.root.streams && s.root.streams[n] == sn && s.root.streams[b] == sb
  }

  /** Only the controller's streams and cache have moved. */
  ghost predicate OnlyServed(s: State, s': State) {
    && s' == s.(root := s.root.(streams := s'.root.streams, slots := s'.root.slots))
    && s'.root.streams.Keys == s.root.streams.Keys
  }

  lemma StageKept(s: State, s': State, base: World, q: nat)
    requires OnlyServed(s, s')
    ensures q >= 1 && s == Ticked(s, base, 0, q) ==> s' == Ticked(s', base, 0, q)
    ensures q >= 1 && s == Unticked(s, base, 0, q) ==> s' == Unticked(s', base, 0, q)
  {
  }

  /** Two streams open before rebuild `q`; the first has already read the generation. */
  lemma Opened(steps: seq<Step>, s: State, base: World, q: nat, n: string, b: string)
    returns (steps': seq<Step>, s': State)
    requires Reaches(steps, s) && q >= 1 && s == Resting(s, base, 0, q - 1) && s.root.slots == map[] && n != b
    requires (n in s.relays ==> s.relays[n].outbox == []) && b !in s.relays
    ensures Reaches(steps', s') && s' == Resting(s', base, 0, q - 1) && s'.root.slots == map[]
    ensures Two(s', n, Shared(s.sessions, Holding(2 * q - 2), None, None), b,
                Shared(s.sessions + 1, NoCall, None, None))
    ensures s'.relays == s.relays && s'.acked == s.acked && s'.origins == s.origins && s'.sessions == s.sessions + 2
    ensures s'.root.streams.Keys == s.root.streams.Keys + {n, b}
    ensures s'.root.registry.nodes ==
            s.root.registry.nodes[n := R.Fresh(n, R.SharedPool, 0)][b := R.Fresh(b, R.SharedPool, 0)]
  {
    var a, s1 := Join(steps, s, Controller, n);
    var c, s2 := Join(a, s1, Controller, b);
    steps', s' := WakeUp(c, s2, Controller, n, s.sessions, None);
  }

  lemma FullWorlds(base: World, early: nat, late: nat)
    requires FullFor(R.SharedPool, base)
    ensures FullFor(R.SharedPool, Half(base, early, late)) && FullFor(R.SharedPool, All(base, late))
    ensures Tcp in base && Ingress in base && Half(base, early, late)[Tcp] == late
    ensures early != late ==> Half(base, early, late) != All(base, early)
  {
    assert Covers(R.SharedPool, Tcp) && Covers(R.SharedPool, Ingress);
  }

  /** Between the two ticks of rebuild `q` the second stream starts a build from half of its cells. */
  lemma BuiltFromHalf(steps: seq<Step>, s: State, base: World, q: nat, n: string, ka: nat, b: string, kb: nat)
    returns (steps': seq<Step>, s': State)
    requires Reaches(steps, s) && q >= 1 && s == Ticked(s, base, 0, q) && s.root.slots == map[] && n != b
    requires FullFor(R.SharedPool, base)
    requires Two(s, n, Shared(ka, Holding(2 * q - 2), None, None), b, Shared(kb, NoCall, None, None))
    ensures Reaches(steps', s') && s'.root.slots == map[] && OnlyServed(s, s')
    ensures Two(s', n, Shared(ka, Missed(2 * q - 2), None, None),
                b, Shared(kb, Building(2 * q - 1, q - 1, Mixed(base, q)), None, None))
  {
    FullWorlds(base, q, q - 1);
    assert Val(0, q) == q && Val(0, q - 1) == q - 1;
    var a, s1 := MissAt(steps, s, Controller, n, ka, 2 * q - 2, None);
    var c, s2 := WakeUp(a, s1, Controller, b, kb, None);
    steps', s' := HalfBuild(c, s2, b, kb, 2 * q - 1);
    HalfFacts(s.root, n, Shared(ka, Missed(2 * q - 2), None, None), b, s1.root, s2.root, s'.root);
  }

  lemma HalfBuild(steps: seq<Step>, s: State, b: string, kb: nat, g: nat) returns (steps': seq<Step>, s': State)
    requires Reaches(steps, s) && b in s.root.streams && s.root.streams[b] == Shared(kb, Holding(g), None, None)
    requires Uncached(s.root, g) && FullFor(R.SharedPool, s.root.cells)
    ensures Reaches(steps', s')
    ensures s' == s.(root := WithStream(s.root, b, Shared(kb, Building(g, s.root.counter, s.root.cells), None, None)))
  {
    var a, s1 := MissAt(steps, s, Controller, b, kb, g, None);
    steps', s' := CaptureAndRead(a, s1, Controller, b, kb, g, None);
    StreamTwice(s.root, b, Shared(kb, Missed(g), None, None),
                Shared(kb, Building(g, s.root.counter, s.root.cells), None, None));
  }

  lemma HalfFacts(t: Tier, n: string, sn: Stream, b: string, t1: Tier, t2: Tier, t3: Tier)
    requires n in t.streams && b in t.streams && n != b
    requires t1 == WithStream(t, n, sn) && b in t2.streams && t2 == WithStream(t1, b, t2.streams[b])
    requires b in t3.streams && t3 == WithStream(t2, b, t3.streams[b])
    ensures t3 == t.(streams := t3.streams) && t3.streams.Keys == t.streams.Keys && n in t3.streams
            && t3.streams[n] == sn
  {
  }

  /** After the stamp the first stream captures, builds the whole world, and files it under its old tag. */
  lemma FiledLate(steps: seq<Step>, s: State, base: World, q: nat, n: string, ka: nat, b: string, sb: Stream)
    returns (steps': seq<Step>, s': State)
    requires Reaches(steps, s) && q >= 1 && s == Unticked(s, base, 0, q) && s.root.slots == map[] && n != b
    requires FullFor(R.SharedPool, base)
    requires Two(s, n, Shared(ka, Missed(2 * q - 2), None, None), b, sb)
    ensures Reaches(steps', s') && OnlyServed(s, s')
    ensures s'.root.slots == map[R.SharedPool := Slot(2 * q - 2, WholeView(base, q))]
    ensures Two(s', n, Shared(ka, NoCall, Some(WholeView(base, q)), None), b, sb)
  {
    FullWorlds(base, q, q);
    assert Val(0, q) == q;
    var a, s1 := CaptureAndRead(steps, s, Controller, n, ka, 2 * q - 2, None);
    steps', s' := StoreAt(a, s1, Controller, n, ka, 2 * q - 2, q, All(base, q), None);
    assert s.root.slots[R.SharedPool := Slot(2 * q - 2, WholeView(base, q))] ==
           map[R.SharedPool := Slot(2 * q - 2, WholeView(base, q))];
  }

  /** Both lookups of the race, up to the push of the whole world. */
  lemma Raced(steps: seq<Step>, s: State, base: World, q: nat, n: string, ka: nat, b: string, kb: nat)
    returns (steps': seq<Step>, s': State)
    requires Reaches(steps, s) && q >= 1 && s == Resting(s, base, 0, q - 1) && s.root.slots == map[] && n != b
    requires FullFor(R.SharedPool, base)
    requires Two(s, n, Shared(ka, Holding(2 * q - 2), None, None), b, Shared(kb, NoCall, None, None))
    ensures Reaches(steps', s') && s' == Unticked(s', base, 0, q)
    ensures s' == s.(hist := s'.hist, phase := s'.phase, stamps := s'.stamps, root := s'.root)
    ensures s'.root.registry == s.root.registry && s'.root.streams.Keys == s.root.streams.Keys
    ensures s'.root.slots == map[R.SharedPool := Slot(2 * q - 2, WholeView(base, q))]
    ensures Two(s', n, Shared(ka, NoCall, Some(WholeView(base, q)), None),
                b, Shared(kb, Building(2 * q - 1, q - 1, Mixed(base, q)), None, None))
  {
    var a := FirstHalf(steps, s, base, 0, q);
    var c, s1 := BuiltFromHalf(a, Ticked(s, base, 0, q), base, q, n, ka, b, kb);
    StageKept(Ticked(s, base, 0, q), s1, base, q);
    var d := SecondHalf(c, s1, base, 0, q);
    steps', s' := FiledLate(d, Unticked(s1, base, 0, q), base, q, n, ka, b,
                            Shared(kb, Building(2 * q - 1, q - 1, Mixed(base, q)), None, None));
    StageKept(Unticked(s1, base, 0, q), s', base, q);
  }

  /** The ack, the other stream's store under the newer tag, and the hit that serves it. */
  lemma Overtaken(steps: seq<Step>, s: State, base: World, q: nat, n: string, ka: nat, b: string, kb: nat)
    returns (steps': seq<Step>, s': State)
    requires Reaches(steps, s) && q >= 1 && s == Unticked(s, base, 0, q) && n != b && FullFor(R.SharedPool, base)
    requires s.root.slots == map[R.SharedPool := Slot(2 * q - 2, WholeView(base, q))] && n in s.root.registry.nodes
    requires Two(s, n, Shared(ka, NoCall, Some(WholeView(base, q)), None),
                 b, Shared(kb, Building(2 * q - 1, q - 1, Mixed(base, q)), None, None))
    ensures Reaches(steps', s') && s' == Unticked(s', base, 0, q)
    ensures Two(s', n, Shared(ka, NoCall, Some(MixedView(base, q)), Some(All(base, q))),
                b, Shared(kb, NoCall, Some(MixedView(base, q)), None))
    ensures s'.root.registry.nodes.Keys == s.root.registry.nodes.Keys
    ensures s'.root.registry.nodes[n].parent == s.root.registry.nodes[n].parent
    ensures s'.root.registry.nodes[n].lastAckedSeq == R.Raise(s.root.registry.nodes[n].lastAckedSeq, q)
    ensures s'.acked == WithAck(s.acked, ka, All(base, q)) && s'.relays == s.relays && s'.origins == s.origins
    ensures s'.sessions == s.sessions && s'.root.streams.Keys == s.root.streams.Keys
  {
    var a, s1 := AckPending(steps, s, Controller, n, ka, WholeView(base, q), None);
    assert s1 == Unticked(s1, base, 0, q);
    steps', s' := Swapped(a, s1, base, q, n, ka, b, kb);
    StageKept(s1, s', base, q);
    RecordedAck(s.root.registry, n, q);
  }

  lemma RecordedAck(reg: R.Registry, n: string, q: nat)
    requires n in reg.nodes
    ensures var nodes' := R.Step(reg, R.RecordAck(n, "", q, 0)).nodes;
            && nodes'.Keys == reg.nodes.Keys && nodes'[n].parent == reg.nodes[n].parent
            && nodes'[n].lastAckedSeq == R.Raise(reg.nodes[n].lastAckedSeq, q)
  {
  }

  lemma Swapped(steps: seq<Step>, s: State, base: World, q: nat, n: string, ka: nat, b: string, kb: nat)
    returns (steps': seq<Step>, s': State)
    requires Reaches(steps, s) && q >= 1 && s == Unticked(s, base, 0, q) && n != b && FullFor(R.SharedPool, base)
    requires s.root.slots == map[R.SharedPool := Slot(2 * q - 2, WholeView(base, q))]
    requires Two(s, n, Shared(ka, Holding(2 * q - 1), None, Some(All(base, q))),
                 b, Shared(kb, Building(2 * q - 1, q - 1, Mixed(base, q)), None, None))
    ensures Reaches(steps', s') && OnlyServed(s, s')
    ensures Two(s', n, Shared(ka, NoCall, Some(MixedView(base, q)), Some(All(base, q))),
                b, Shared(kb, NoCall, Some(MixedView(base, q)), None))
  {
    FullWorlds(base, q, q - 1);
    var v := MixedView(base, q);
    var a, s1 := StoreAt(steps, s, Controller, b, kb, 2 * q - 1, q - 1, Mixed(base, q), None);
    SwapFacts(s.root, n, ka, b, kb, 2 * q - 1, v, Some(All(base, q)));
    steps', s' := HitAt(a, s1, Controller, n, ka, 2 * q - 1, Slot(2 * q - 1, v), Some(All(base, q)));
  }

  lemma SwapFacts(t: Tier, n: string, ka: nat, b: string, kb: nat, g: nat, v: View, baseline: Option<World>)
    requires n in t.streams && b in t.streams && n != b
    ensures var t1 := StoredTier(t, b, kb, g, v, None);
            var t2 := WithStream(t1, n, Shared(ka, NoCall, Some(v), baseline));
            && n in t1.streams && t1.streams[n] == t.streams[n]
            && R.SharedPool in t1.slots && t1.slots[R.SharedPool] == Slot(g, v)
            && t2 == t.(streams := t2.streams, slots := t2.slots) && t2.streams.Keys == t.streams.Keys
            && t2.streams[n] == Shared(ka, NoCall, Some(v), baseline)
            && t2.streams[b] == Shared(kb, NoCall, Some(v), None)
  {
  }
}
