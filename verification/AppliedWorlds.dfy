/**
 The stronger reading of `last_acked_seq`: the world a node acknowledged last, not just some world it
 acknowledged, is as new as the sequence it is credited with. At the controller that world trails by
 one rebuild at most, in late cells only, and does so in some runs; behind a relay there is no bound.
 */
module AppliedWorlds {
  import opened Options
  import opened PublishIndex
  import opened ConvergenceGate
  import opened GateInvariant
  import opened GateSoundness
  import opened GateRuns
  import opened GateWitness
  import opened RelayRuns
  import opened LeafRuns
  import R = NodeRegistry

  /** The node's latest world is of its credited sequence or later, late cells `lag` rebuilds older at most. */
  ghost predicate LatestApplied(hist: seq<Pass>, t: Tier, n: string, floor: nat, lag: nat) {
    n in t.streams && Credit(t, n) > floor ==>
      t.streams[n].baseline.Some? && AtLeast(hist, t.streams[n].baseline.value, Credit(t, n), lag)
  }

  // ---- Nodes of the controller ----

  ghost predicate DirectApplied(s: State, n: string, lag: nat) {
    LatestApplied(s.hist, s.root, n, 0, lag)
  }

  /** The view being served to `n` is at most `d` sequences behind what `n` is credited with. */
  ghost predicate ServedWithin(s: State, n: string, d: nat) {
    n in s.root.streams && s.root.streams[n].pending.Some? && s.root.streams[n].pending.value.world != map[] ==>
      Credit(s.root, n) <= s.root.streams[n].pending.value.seqNo + d
  }

  lemma StateTrailsByOne(s: State, n: string)
    requires Inv(s)
    ensures DirectApplied(s, n, 1) && ServedWithin(s, n, 1)
  {
    if n in s.root.streams {
      assert MarkOk(s.hist, s.root.streams[n], Credit(s.root, n), Mark(s.root, s.relays, n), s.root.counter,
                    s.root.generation);
    }
  }

  /** At every point of every run, no node of the controller trails its credit by more than one rebuild. */
  lemma AppliedWorldsTrailByOne(steps: seq<Step>, n: string)
    ensures forall k :: 0 <= k <= |steps| ==>
              DirectApplied(RunFrom(INIT, steps[..k]), n, 1) && ServedWithin(RunFrom(INIT, steps[..k]), n, 1)
  {
    forall k | 0 <= k <= |steps|
      ensures DirectApplied(RunFrom(INIT, steps[..k]), n, 1) && ServedWithin(RunFrom(INIT, steps[..k]), n, 1)
    {
      RunOk(steps[..k]);
      StateTrailsByOne(RunFrom(INIT, steps[..k]), n);
    }
  }

  /** For every `q` a node credited with `q` is served sequence `q - 1`, with its late cells. */
  lemma ServedOneLess(base: World, q: nat) returns (steps: seq<Step>, s: State)
    requires FullFor(R.SharedPool, base) && INITIAL == All(base, 0) && q >= 1
    ensures Reaches(steps, s) && s.hist == History(base, 0, q)
    ensures "n" in s.root.streams
    ensures s.root.streams["n"] == Shared(0, NoCall, Some(MixedView(base, q)), Some(All(base, q)))
    ensures Credit(s.root, "n") == q && "n" in s.root.registry.nodes
  {
    var b, s1 := PairOpens(base, q);
    var c, s2 := Raced(b, s1, base, q, "n", 0, "b", 1);
    steps, s := Overtaken(c, s2, base, q, "n", 0, "b", 1);
  }

  lemma PairOpens(base: World, q: nat) returns (steps: seq<Step>, s: State)
    requires FullFor(R.SharedPool, base) && INITIAL == All(base, 0) && q >= 1
    ensures Reaches(steps, s) && s == Resting(s, base, 0, q - 1) && s.root.slots == map[]
    ensures Two(s, "n", Shared(0, Holding(2 * q - 2), None, None), "b", Shared(1, NoCall, None, None))
    ensures "n" in s.root.registry.nodes && s.root.registry.nodes["n"].lastAckedSeq.None?
  {
    var a := AtRest(base, q - 1);
    RestFacts(base, q - 1);
    steps, s := Opened(a, Resting(INIT, base, 0, q - 1), base, q, "n", "b");
    assert s.root.registry.nodes["n"] == R.Fresh("n", R.SharedPool, 0);
  }

  lemma RestFacts(base: World, n: nat)
    ensures var s := Resting(INIT, base, 0, n);
            s == Resting(s, base, 0, n) && s.root.slots == map[] && s.relays == map[] && s.sessions == 0
  {
  }

  lemma AckedOneLess(base: World, q: nat) returns (steps: seq<Step>, s: State)
    requires FullFor(R.SharedPool, base) && INITIAL == All(base, 0) && q >= 1
    ensures Reaches(steps, s) && s.hist == History(base, 0, q)
    ensures "n" in s.root.streams && s.root.streams["n"].baseline == Some(Mixed(base, q)) && Credit(s.root, "n") == q
  {
    var a, s1 := ServedOneLess(base, q);
    RecordedAck(s1.root.registry, "n", q - 1);
    steps, s := AckPending(a, s1, Controller, "n", 0, MixedView(base, q), Some(All(base, q)));
  }

  lemma MixedTrails(s: State, base: World, q: nat)
    requires FullFor(R.SharedPool, base) && q >= 1 && s.hist == History(base, 0, q)
    requires "n" in s.root.streams && s.root.streams["n"].baseline == Some(Mixed(base, q)) && Credit(s.root, "n") == q
    ensures !DirectApplied(s, "n", 0)
  {
    FullWorlds(base, q, q - 1);
    NotFresh(base, 0, q, q, Tcp, q - 1);
    assert !FreshAt(s.hist, Tcp, Mixed(base, q)[Tcp], q);
  }

  /** For every `q`: a node credited with `q` that is served less, and one that holds less. */
  lemma OneBehind(q: nat) returns (steps: seq<Step>, more: seq<Step>)
    requires q >= 1
    ensures Credit(RunFrom(INIT, steps).root, "n") == q && !ServedWithin(RunFrom(INIT, steps), "n", 0)
    ensures Credit(RunFrom(INIT, more).root, "n") == q && !DirectApplied(RunFrom(INIT, more), "n", 0)
  {
    var base := Base();
    var s, s1;
    steps, s := ServedOneLess(base, q);
    more, s1 := AckedOneLess(base, q);
    FullWorlds(base, q, q - 1);
    ReachesMeans(steps, s);
    ReachesMeans(more, s1);
    MixedTrails(s1, base, q);
  }

  lemma TrailsByLag(steps: seq<Step>, n: string, lag: nat)
    requires lag >= 1
    ensures DirectApplied(RunFrom(INIT, steps), n, lag) && ServedWithin(RunFrom(INIT, steps), n, lag)
  {
    RunOk(steps);
    var s := RunFrom(INIT, steps);
    StateTrailsByOne(s, n);
    LagGrows(s, n, lag);
  }

  lemma LagGrows(s: State, n: string, lag: nat)
    requires lag >= 1 && DirectApplied(s, n, 1)
    ensures DirectApplied(s, n, lag)
  {
    if n in s.root.streams && Credit(s.root, n) > 0 {
      AtLeastGrows(s.hist, s.hist, s.root.streams[n].baseline.value, Credit(s.root, n), 1, Credit(s.root, n), lag);
    }
  }

  /** The bound of one rebuild is exact for the world a node applied last. */
  lemma DirectLagExact(lag: nat)
    ensures lag >= 1 <==> forall steps: seq<Step>, n: string :: DirectApplied(RunFrom(INIT, steps), n, lag)
  {
    if lag >= 1 {
      forall steps: seq<Step>, n: string ensures DirectApplied(RunFrom(INIT, steps), n, lag) {
        TrailsByLag(steps, n, lag);
      }
    } else {
      var _, more := OneBehind(1);
      assert !DirectApplied(RunFrom(INIT, more), "n", lag);
    }
  }

  /** It is exact for the view a node is being served. */
  lemma ServedLagExact(lag: nat)
    ensures lag >= 1 <==> forall steps: seq<Step>, n: string :: ServedWithin(RunFrom(INIT, steps), n, lag)
  {
    if lag >= 1 {
      forall steps: seq<Step>, n: string ensures ServedWithin(RunFrom(INIT, steps), n, lag) {
        TrailsByLag(steps, n, lag);
      }
    } else {
      var steps, _ := OneBehind(1);
      assert !ServedWithin(RunFrom(INIT, steps), "n", lag);
    }
  }

  // ---- Leaves of a relay ----

  /** A leaf of relay `r` credited with `q`, above what the relay carries, is being served sequence `p`. */
  ghost predicate LeafServed(s: State, r: string, n: string, p: nat, q: nat) {
    && r in s.relays && n in s.relays[r].tier.streams && s.relays[r].tier.streams[n].call.NoCall?
    && s.relays[r].tier.streams[n].pending.Some? && s.relays[r].tier.streams[n].pending.value.seqNo == p
    && Credit(s.relays[r].tier, n) == q && q > s.relays[r].carried
  }

  /** After the leaf acks what it is being served. */
  ghost function AfterAck(s: State, r: string, n: string): State {
    Do(Do(s, AtRelay(r, Wake(n))), AtRelay(r, Ack(n, 0)))
  }

  ghost predicate LeafApplied(s: State, r: string, n: string) {
    r in s.relays && LatestApplied(s.hist, s.relays[r].tier, n, s.relays[r].carried, 1)
  }

  lemma AckedTierAfter(s: State, r: string, n: string, v: View)
    requires r in s.relays && n in s.relays[r].tier.streams && s.relays[r].tier.streams[n].call.NoCall?
    requires s.relays[r].tier.streams[n].pending == Some(v) && n in s.relays[r].tier.registry.nodes
    ensures var s' := AfterAck(s, r, n);
            && r in s'.relays && s'.hist == s.hist && s'.relays[r].carried == s.relays[r].carried
            && n in s'.relays[r].tier.streams && s'.relays[r].tier.streams[n].baseline == Some(v.world)
            && Credit(s'.relays[r].tier, n) == Max(Credit(s.relays[r].tier, n), v.seqNo)
  {
    LookupAtRelay(s, r, Wake(n));
    AckAtRelay(Do(s, AtRelay(r, Wake(n))), r, n, v);
  }

  lemma AckAtRelay(s: State, r: string, n: string, v: View)
    requires r in s.relays && n in s.relays[r].tier.streams && s.relays[r].tier.streams[n].call.Holding?
    requires s.relays[r].tier.streams[n].pending == Some(v) && n in s.relays[r].tier.registry.nodes
    ensures var s' := Do(s, AtRelay(r, Ack(n, 0)));
            && r in s'.relays && s'.hist == s.hist && s'.relays[r].carried == s.relays[r].carried
            && n in s'.relays[r].tier.streams && s'.relays[r].tier.streams[n].baseline == Some(v.world)
            && Credit(s'.relays[r].tier, n) == Max(Credit(s.relays[r].tier, n), v.seqNo)
  {
  }

  lemma InOrderIsSafe(steps: seq<Step>, r: string, n: string, p: nat, q: nat)
    requires LeafServed(RunFrom(INIT, steps), r, n, p, q) && p >= q
    ensures LeafApplied(AfterAck(RunFrom(INIT, steps), r, n), r, n)
  {
    var s := RunFrom(INIT, steps);
    RunOk(steps);
    assert RelayOk(s.hist, s.acked, s.relays[r], s.root.counter);
    var x := s.relays[r];
    assert StreamOk(s.hist, s.acked, x.tier.streams[n], x.carried, 1, x.tier.counter);
    AckedTierAfter(s, r, n, x.tier.streams[n].pending.value);
  }

  lemma OutOfOrderIsNot(p: nat, q: nat) returns (steps: seq<Step>)
    requires p < q
    ensures LeafServed(RunFrom(INIT, steps), RELAY, "x", p, q)
    ensures !LeafApplied(AfterAck(RunFrom(INIT, steps), RELAY, "x"), RELAY, "x")
  {
    var s, base;
    steps, s, base := LeafServedOld(p, q);
    ReachesMeans(steps, s);
    FullWorlds(base, p, p);
    AckedTierAfter(s, RELAY, "x", WholeView(base, p));
    NotFresh(base, 0, q, q, Ingress, p);
    assert All(base, p)[Ingress] == p && !FreshAt(s.hist, Ingress, p, q);
  }

  /**
   Behind a relay nothing bounds how far a served sequence falls behind a credit: the leaf's latest
   world stays as new as its credit, after any run, exactly when what it is served is not older.
   */
  lemma RelayServingExact(p: nat, q: nat)
    requires q >= 1
    ensures p >= q <==>
            forall steps: seq<Step>, r: string, n: string ::
              LeafServed(RunFrom(INIT, steps), r, n, p, q) ==> LeafApplied(AfterAck(RunFrom(INIT, steps), r, n), r, n)
  {
    if p >= q {
      forall steps: seq<Step>, r: string, n: string | LeafServed(RunFrom(INIT, steps), r, n, p, q)
        ensures LeafApplied(AfterAck(RunFrom(INIT, steps), r, n), r, n)
      {
        InOrderIsSafe(steps, r, n, p, q);
      }
    } else {
      var steps := OutOfOrderIsNot(p, q);
    }
  }
}
