/** The conditions of gate soundness are exact: each is attained by a run of the protocol. */
module GateExact {
  import opened Options
  import opened PublishIndex
  import opened ConvergenceGate
  import opened GateInvariant
  import opened GateSoundness
  import opened GateRuns
  import opened GateWitness
  import opened RelayRuns
  import R = NodeRegistry

  /** The open gate of `key` at stamp `n` counts `id`, a leaf folded from a report. */
  ghost predicate CountsFolded(s: State, key: ObjectKey, id: string, n: nat) {
    && SharedGateOpen(s, key) && s.stamps[key].seqNo == n
    && id in s.root.registry.nodes && R.IsSharedLeaf(s.root.registry.nodes[id])
    && s.root.registry.nodes[id].parent.Some? && id in s.origins
  }

  lemma MoreLag(hist: seq<Pass>, acked: Acked, session: nat, scope: R.NodeScope, n: int, lag: nat, lag': nat)
    requires HasAcked(hist, acked, session, scope, n, lag) && lag <= lag'
    ensures HasAcked(hist, acked, session, scope, n, lag')
  {
    var w :| w in acked[session] && FullFor(scope, w) && AtLeast(hist, w, n, lag);
    AtLeastGrows(hist, hist, w, n, lag, n, lag');
  }

  lemma CountedIsHonest(steps: seq<Step>, key: ObjectKey, id: string, n: nat)
    requires CountsFolded(RunFrom(INIT, steps), key, id, n)
    ensures var s := RunFrom(INIT, steps);
            n > s.origins[id].carried ==> HasAcked(s.hist, s.acked, s.origins[id].session, R.SharedPool, n, 1)
  {
    RunOk(steps);
    HonestState(RunFrom(INIT, steps), key);
    assert RowHonest(RunFrom(INIT, steps), id, n);
  }

  /** A single acknowledged world that misses one cell is no evidence. */
  lemma OnlyWorldFails(hist: seq<Pass>, acked: Acked, session: nat, w: World, c: Cell, n: nat, lag: nat)
    requires session in acked && acked[session] == {w} && c in w
    requires !FreshAt(hist, c, w[c], if Early(c) then n else n - lag)
    ensures !HasAcked(hist, acked, session, R.SharedPool, n, lag)
  {
  }

  // ---- How many rebuilds a folded leaf may trail ----

  /** For every rebuild `q` the gate opens over a leaf that never held its late cells. */
  lemma LateCellsMayTrail(q: nat) returns (steps: seq<Step>)
    requires q >= 1
    ensures var s := RunFrom(INIT, steps);
            && CountsFolded(s, KEY, LEAF, q) && q > s.origins[LEAF].carried
            && !HasAcked(s.hist, s.acked, s.origins[LEAF].session, R.SharedPool, q, 0)
  {
    var s, base;
    steps, s, base := MixedLeafOpens(q);
    ReachesMeans(steps, s);
    FullWorlds(base, q, q - 1);
    NotFresh(base, 0, q, q, Tcp, q - 1);
    OnlyWorldFails(s.hist, s.acked, 2, Mixed(base, q), Tcp, q, 0);
  }

  /** Allowing the late cells one rebuild is necessary and sufficient for folded leaves. */
  lemma RelayLagExact(lag: nat)
    ensures lag >= 1 <==>
            forall steps: seq<Step>, key: ObjectKey, id: string, n: nat ::
              CountsFolded(RunFrom(INIT, steps), key, id, n) && n > RunFrom(INIT, steps).origins[id].carried ==>
                HasAcked(RunFrom(INIT, steps).hist, RunFrom(INIT, steps).acked,
                         RunFrom(INIT, steps).origins[id].session, R.SharedPool, n, lag)
  {
    if lag >= 1 {
      forall steps: seq<Step>, key: ObjectKey, id: string, n: nat
        | CountsFolded(RunFrom(INIT, steps), key, id, n) && n > RunFrom(INIT, steps).origins[id].carried
        ensures HasAcked(RunFrom(INIT, steps).hist, RunFrom(INIT, steps).acked,
                         RunFrom(INIT, steps).origins[id].session, R.SharedPool, n, lag)
      {
        var s := RunFrom(INIT, steps);
        CountedIsHonest(steps, key, id, n);
        MoreLag(s.hist, s.acked, s.origins[id].session, R.SharedPool, n, 1, lag);
      }
    } else {
      var steps := LateCellsMayTrail(1);
    }
  }

  // ---- Which sequences a replaced controller invalidates ----

  /** A relay that has reached `c` opens the next controller's gates up to `c` over old content. */
  lemma CarriedSequenceOpens(n: nat, c: nat, lag: nat) returns (steps: seq<Step>)
    requires 1 <= n <= c
    ensures var s := RunFrom(INIT, steps);
            && CountsFolded(s, KEY, LEAF, n) && s.origins[LEAF].carried == c
            && !HasAcked(s.hist, s.acked, s.origins[LEAF].session, R.SharedPool, n, lag)
  {
    var s, base;
    steps, s, base := OldSequenceOpens(c, n);
    ReachesMeans(steps, s);
    FullWorlds(base, c, c);
    NotFresh(base, c, n, n, Ingress, c);
    OnlyWorldFails(s.hist, s.acked, 1, All(base, c), Ingress, n, lag);
  }

  /** Over a relay that carries `c` the gate of stamp `n` is honest, in every run, exactly when `n > c`. */
  lemma CarriedExact(n: nat, c: nat)
    requires n >= 1
    ensures n > c <==>
            forall steps: seq<Step>, key: ObjectKey, id: string ::
              CountsFolded(RunFrom(INIT, steps), key, id, n) && RunFrom(INIT, steps).origins[id].carried == c ==>
                HasAcked(RunFrom(INIT, steps).hist, RunFrom(INIT, steps).acked,
                         RunFrom(INIT, steps).origins[id].session, R.SharedPool, n, 1)
  {
    if n > c {
      forall steps: seq<Step>, key: ObjectKey, id: string
        | CountsFolded(RunFrom(INIT, steps), key, id, n) && RunFrom(INIT, steps).origins[id].carried == c
        ensures HasAcked(RunFrom(INIT, steps).hist, RunFrom(INIT, steps).acked,
                         RunFrom(INIT, steps).origins[id].session, R.SharedPool, n, 1)
      {
        CountedIsHonest(steps, key, id, n);
      }
    } else {
      var steps := CarriedSequenceOpens(n, c, 1);
    }
  }

  // ---- Which session a folded row speaks of ----

  /** The relay still has a stream of the leaf; `same` tells whether it is the reported session. */
  ghost predicate StillThere(s: State, id: string, same: bool)
    requires id in s.root.registry.nodes && s.root.registry.nodes[id].parent.Some? && id in s.origins
  {
    var p := s.root.registry.nodes[id].parent.value;
    && p in s.relays && id in s.relays[p].tier.streams
    && (s.relays[p].tier.streams[id].session == s.origins[id].session) == same
  }

  /** The leaf's current session holds a world of rebuild `n`, its late cells one older at most. */
  ghost predicate HoldsNow(s: State, id: string, n: nat)
    requires id in s.root.registry.nodes && s.root.registry.nodes[id].parent.Some?
  {
    var p := s.root.registry.nodes[id].parent.value;
    p in s.relays && id in s.relays[p].tier.streams &&
    HasAcked(s.hist, s.acked, s.relays[p].tier.streams[id].session, R.SharedPool, n, 1)
  }

  /** A leaf that restarted after its report was taken holds nothing, and the gate opens all the same. */
  lemma RestartOpens(n: nat) returns (steps: seq<Step>)
    requires n >= 1
    ensures var s := RunFrom(INIT, steps);
            && CountsFolded(s, KEY, LEAF, n) && n > s.origins[LEAF].carried
            && StillThere(s, LEAF, false) && !HoldsNow(s, LEAF, n)
  {
    var s;
    steps, s := RestartedLeaf(n);
    ReachesMeans(steps, s);
  }

  /** Counted leaves hold what the gate claims, in every run, exactly if the report is of their session. */
  lemma SessionExact(same: bool)
    ensures same <==>
            forall steps: seq<Step>, key: ObjectKey, id: string, n: nat ::
              (CountsFolded(RunFrom(INIT, steps), key, id, n) && n > RunFrom(INIT, steps).origins[id].carried
               && StillThere(RunFrom(INIT, steps), id, same)) ==>
                HoldsNow(RunFrom(INIT, steps), id, n)
  {
    if same {
      forall steps: seq<Step>, key: ObjectKey, id: string, n: nat
        | CountsFolded(RunFrom(INIT, steps), key, id, n) && n > RunFrom(INIT, steps).origins[id].carried
          && StillThere(RunFrom(INIT, steps), id, same)
        ensures HoldsNow(RunFrom(INIT, steps), id, n)
      {
        CountedIsHonest(steps, key, id, n);
      }
    } else {
      var steps := RestartOpens(1);
    }
  }
}
