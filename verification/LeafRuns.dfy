/** A run in which a relay serves a leaf any number of rebuilds less than it already holds. */
module LeafRuns {
  import opened Options
  import opened PublishIndex
  import opened ConvergenceGate
  import opened GateRuns
  import opened GateWitness
  import opened RelayRuns
  import R = NodeRegistry

  const SITE := Behind(RELAY)

  /** The two leaves' streams, with the relay's cache and counts. */
  ghost predicate Leaves2(s: State, sx: Stream, sy: Stream, slots: map<R.NodeScope, Slot>, w: World, counter: nat,
                          generation: nat) {
    && RELAY in s.relays && s.relays[RELAY].carried == 0 && s.relays[RELAY].applying.None?
    && s.relays[RELAY].outbox == []
    && (var t := s.relays[RELAY].tier;
        && "x" in t.streams && "y" in t.streams && t.streams["x"] == sx && t.streams["y"] == sy
        && t.slots == slots && t.cells == w && t.counter == counter && t.generation == generation
        && "x" in t.registry.nodes && t.registry.nodes["x"].parent.None?)
  }

  /** The first leaf has not acked anything yet. */
  ghost predicate NoCredit(s: State) {
    RELAY in s.relays
    && (var nodes := s.relays[RELAY].tier.registry.nodes;
        "x" in nodes && nodes["x"].lastAckedSeq.None?)
  }

  /** Two leaves join a fresh relay; the first misses before anything was applied. */
  lemma LeavesOpen(base: World, p: nat) returns (steps: seq<Step>, s: State)
    requires FullFor(R.SharedPool, base) && INITIAL == All(base, 0)
    ensures Reaches(steps, s) && s == Resting(s, base, 0, p) && s.root.streams == map[] && s.root.slots == map[]
    ensures Leaves2(s, Shared(0, Missed(0), None, None), Shared(1, NoCall, None, None), map[], All(base, 0), 0, 0)
    ensures NoCredit(s)
  {
    var a := AtRest(base, p);
    var b, s1 := Started(a, Resting(INIT, base, 0, p));
    var c, s2 := Join(b, s1, SITE, "x");
    var d, s3 := Join(c, s2, SITE, "y");
    var e, s4 := WakeUp(d, s3, SITE, "x", 0, None);
    steps, s := MissAt(e, s4, SITE, "x", 0, 0, None);
  }

  /** The relay is pushed the controller's world and applies it. */
  lemma Follows(steps: seq<Step>, s: State, base: World, m: nat, n: nat, k: nat, baseline: Option<World>,
                sx: Stream, sy: Stream, slots: map<R.NodeScope, Slot>, generation: nat)
    returns (steps': seq<Step>, s': State)
    requires Reaches(steps, s) && s == Resting(s, base, 0, n) && FullFor(R.SharedPool, base) && m <= n
    requires Leaves2(s, sx, sy, slots, All(base, m), m, generation) && NoCredit(s)
    requires RELAY in s.root.streams && s.root.streams[RELAY] == Shared(k, NoCall, None, baseline)
    requires baseline != Some(All(base, n)) && Uncached(s.root, 2 * n)
    ensures Reaches(steps', s') && s' == Resting(s', base, 0, n)
    ensures Leaves2(s', sx, sy, slots, All(base, n), n, generation) && NoCredit(s') && s'.relays[RELAY].tickOwed
    ensures RELAY in s'.root.streams && s'.root.streams[RELAY] == Shared(k, NoCall, Some(WholeView(base, n)), baseline)
    ensures s'.root.slots == s.root.slots[R.SharedPool := Slot(2 * n, WholeView(base, n))]
  {
    FullWorlds(base, n, n);
    FullWorlds(base, m, m);
    var a, s1 := WakeUp(steps, s, Controller, RELAY, k, baseline);
    var b, s2 := BuildAt(a, s1, Controller, RELAY, k, 2 * n, baseline);
    steps', s' := Applied(b, s2, RELAY, WholeView(base, n));
  }

  lemma Ticks(steps: seq<Step>, s: State, sx: Stream, sy: Stream, slots: map<R.NodeScope, Slot>, w: World, counter: nat,
              generation: nat)
    returns (steps': seq<Step>, s': State)
    requires Reaches(steps, s) && Leaves2(s, sx, sy, slots, w, counter, generation) && NoCredit(s)
             && s.relays[RELAY].tickOwed
    ensures Reaches(steps', s') && s' == s.(relays := s'.relays)
    ensures Leaves2(s', sx, sy, slots, w, counter, generation + 1) && NoCredit(s')
  {
    steps', s' := Next(steps, s, RelayTick(RELAY));
  }

  /** The second leaf starts building the world of sequence `p`. */
  lemma SecondBuilds(steps: seq<Step>, s: State, base: World, p: nat) returns (steps': seq<Step>, s': State)
    requires Reaches(steps, s) && FullFor(R.SharedPool, base) && NoCredit(s)
    requires Leaves2(s, Shared(0, Missed(0), None, None), Shared(1, NoCall, None, None), map[], All(base, p), p, 1)
    ensures Reaches(steps', s') && s' == s.(relays := s'.relays) && NoCredit(s')
    ensures Leaves2(s', Shared(0, Missed(0), None, None), Shared(1, Building(1, p, All(base, p)), None, None),
                    map[], All(base, p), p, 1)
  {
    FullWorlds(base, p, p);
    var a, s1 := WakeUp(steps, s, SITE, "y", 1, None);
    var b, s2 := MissAt(a, s1, SITE, "y", 1, 1, None);
    steps', s' := CaptureAndRead(b, s2, SITE, "y", 1, 1, None);
  }

  /** The relay's ack, and the lookup after it that finds nothing new. */
  lemma RelayAcks(steps: seq<Step>, s: State, base: World, p: nat, k: nat) returns (steps': seq<Step>, s': State)
    requires Reaches(steps, s) && s == Resting(s, base, 0, p) && RELAY in s.root.streams
    requires s.root.streams[RELAY] == Shared(k, NoCall, Some(WholeView(base, p)), None)
    requires R.SharedPool in s.root.slots && s.root.slots[R.SharedPool] == Slot(2 * p, WholeView(base, p))
    ensures Reaches(steps', s') && s' == Resting(s', base, 0, p) && s'.relays == s.relays
            && s'.root.slots == s.root.slots
    ensures RELAY in s'.root.streams && s'.root.streams[RELAY] == Shared(k, NoCall, None, Some(All(base, p)))
  {
    var a, s1 := AckPending(steps, s, Controller, RELAY, k, WholeView(base, p), None);
    steps', s' := Next(a, s1, AtRoot(Hit(RELAY, false)));
  }

  /** The first leaf captures `q` under its old generation, and acks it. */
  lemma FirstAcks(steps: seq<Step>, s: State, base: World, q: nat, sy: Stream) returns (steps': seq<Step>, s': State)
    requires Reaches(steps, s) && FullFor(R.SharedPool, base) && NoCredit(s)
    requires Leaves2(s, Shared(0, Missed(0), None, None), sy, map[], All(base, q), q, 1)
    ensures Reaches(steps', s') && s'.hist == s.hist
    ensures Leaves2(s', Shared(0, Holding(1), None, Some(All(base, q))), sy,
                    map[R.SharedPool := Slot(0, WholeView(base, q))], All(base, q), q, 1)
    ensures s'.relays[RELAY].tier.registry.nodes["x"].lastAckedSeq == Some(q)
  {
    FullWorlds(base, q, q);
    var a, s1 := CaptureAndRead(steps, s, SITE, "x", 0, 0, None);
    var b, s2 := StoreAt(a, s1, SITE, "x", 0, 0, q, All(base, q), None);
    var none: map<R.NodeScope, Slot> := map[];
    assert none[R.SharedPool := Slot(0, WholeView(base, q))] == map[R.SharedPool := Slot(0, WholeView(base, q))];
    steps', s' := AckPending(b, s2, SITE, "x", 0, WholeView(base, q), None);
  }

  /** The second leaf files its older world under the newer generation, and the first is served it. */
  lemma FirstServedOld(steps: seq<Step>, s: State, base: World, p: nat, q: nat) returns (steps': seq<Step>, s': State)
    requires Reaches(steps, s) && FullFor(R.SharedPool, base) && p < q
    requires Leaves2(s, Shared(0, Holding(1), None, Some(All(base, q))),
                     Shared(1, Building(1, p, All(base, p)), None, None),
                     map[R.SharedPool := Slot(0, WholeView(base, q))], All(base, q), q, 1)
    requires s.relays[RELAY].tier.registry.nodes["x"].lastAckedSeq == Some(q)
    ensures Reaches(steps', s') && s'.hist == s.hist && RELAY in s'.relays && s'.relays[RELAY].carried == 0
    ensures var t := s'.relays[RELAY].tier;
            && "x" in t.streams && t.streams["x"] == Shared(0, NoCall, Some(WholeView(base, p)), Some(All(base, q)))
            && "x" in t.registry.nodes && t.registry.nodes["x"].lastAckedSeq == Some(q)
  {
    FullWorlds(base, p, p);
    FullWorlds(base, q, q);
    assert All(base, q)[Tcp] != All(base, p)[Tcp];
    var a, s1 := StoreAt(steps, s, SITE, "y", 1, 1, p, All(base, p), None);
    steps', s' := HitAt(a, s1, SITE, "x", 0, 1, Slot(1, WholeView(base, p)), Some(All(base, q)));
  }

  /** Up to the push of rebuild `p`, with the second leaf building from it. */
  lemma FirstRound(base: World, p: nat) returns (steps: seq<Step>, s: State, k: nat)
    requires FullFor(R.SharedPool, base) && INITIAL == All(base, 0)
    ensures Reaches(steps, s) && s == Resting(s, base, 0, p) && NoCredit(s) && RELAY in s.root.streams
    ensures Leaves2(s, Shared(0, Missed(0), None, None), Shared(1, Building(1, p, All(base, p)), None, None),
                    map[], All(base, p), p, 1)
    ensures s.root.streams[RELAY] == Shared(k, NoCall, Some(WholeView(base, p)), None)
    ensures s.root.slots == map[R.SharedPool := Slot(2 * p, WholeView(base, p))]
  {
    var sx, sy := Shared(0, Missed(0), None, None), Shared(1, NoCall, None, None);
    var none: map<R.NodeScope, Slot> := map[];
    var a, s1 := LeavesOpen(base, p);
    k := s1.sessions;
    var b, s2 := Join(a, s1, Controller, RELAY);
    assert none[R.SharedPool := Slot(2 * p, WholeView(base, p))] ==
           map[R.SharedPool := Slot(2 * p, WholeView(base, p))];
    var c, s3 := Follows(b, s2, base, 0, p, k, None, sx, sy, map[], 0);
    var d, s4 := Ticks(c, s3, sx, sy, map[], All(base, p), p, 0);
    steps, s := SecondBuilds(d, s4, base, p);
  }

  /** Rebuild `q` reaches the relay, which has not ticked for it yet. */
  lemma SecondRound(base: World, p: nat, q: nat) returns (steps: seq<Step>, s: State)
    requires FullFor(R.SharedPool, base) && INITIAL == All(base, 0) && p < q
    ensures Reaches(steps, s) && s.hist == History(base, 0, q) && NoCredit(s)
    ensures Leaves2(s, Shared(0, Missed(0), None, None), Shared(1, Building(1, p, All(base, p)), None, None),
                    map[], All(base, q), q, 1)
  {
    FullWorlds(base, p, p);
    FullWorlds(base, q, q);
    assert All(base, q)[Tcp] != All(base, p)[Tcp];
    var a, s1, k := FirstRound(base, p);
    var b, s2 := RelayAcks(a, s1, base, p, k);
    var c := Passes(b, s2, base, 0, p, q);
    steps, s := Follows(c, Resting(s2, base, 0, q), base, p, q, k, Some(All(base, p)),
                        Shared(0, Missed(0), None, None),
                        Shared(1, Building(1, p, All(base, p)), None, None), map[], 1);
  }

  /** For every `p < q`: a leaf credited with `q` is pushed the world of rebuild `p`. */
  lemma LeafServedOld(p: nat, q: nat) returns (steps: seq<Step>, s: State, base: World)
    requires p < q
    ensures Reaches(steps, s) && s.hist == History(base, 0, q) && FullFor(R.SharedPool, base)
    ensures RELAY in s.relays && s.relays[RELAY].carried == 0
    ensures var t := s.relays[RELAY].tier;
            && "x" in t.streams && t.streams["x"] == Shared(0, NoCall, Some(WholeView(base, p)), Some(All(base, q)))
            && "x" in t.registry.nodes && t.registry.nodes["x"].lastAckedSeq == Some(q)
  {
    base := Base();
    var a, s1 := SecondRound(base, p, q);
    var b, s2 := FirstAcks(a, s1, base, q, Shared(1, Building(1, p, All(base, p)), None, None));
    steps, s := FirstServedOld(b, s2, base, p, q);
  }
}
