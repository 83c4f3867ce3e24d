/** The shared listener-status map that several reconcilers publish into. */
module ScopedStatus {
  import opened Options

  /** Drop the writer's own entries, then add its updates. */
  function Merge<K, V>(current: map<K, V>, updates: map<K, V>, owns: K -> bool): map<K, V> {
    (map k | k in current && !owns(k) :: current[k]) + updates
  }

  class GatewayListenerStatusHandle<K(==), V> {
    var statuses: map<K, V>
    var generation: nat

    constructor ()
      ensures statuses == map[] && generation == 0
    {
      statuses, generation := map[], 0;
    }

    method StoreAndNotify(m: map<K, V>)
      modifies this
      ensures statuses == m && generation == old(generation) + 1
    {
      statuses := m;
      generation := generation + 1;
    }

    /** Called alone; concurrent calls are the protocol below. */
    method UpdateScoped(updates: map<K, V>, owns: K -> bool)
      modifies this
      ensures statuses == Merge(old(statuses), updates, owns) && generation == old(generation) + 1
      ensures (forall k :: k in updates ==> owns(k)) ==>
                forall k :: Lookup(statuses, k) == Lookup(if owns(k) then updates else old(statuses), k)
    {
      var next := map k | k in statuses && !owns(k) :: statuses[k];
      statuses := next + updates;
      generation := generation + 1;
    }
  }

  // ---------------------------------------------------- concurrent publication

  /** Each key belongs to at most one writer. */
  type Owner<!K> = K -> nat

  /**
   Where a writer's call stands: not in a call, holding a snapshot to swap against, or swapped and
   about to notify.
   */
  datatype Phase<K, V> = Idle | Holding(updates: map<K, V>, seen: nat, snapshot: map<K, V>) | Swapped

  /** `version` is the identity of the stored map; `latest` and `swaps` are history. */
  datatype State<K, V> = State(
    statuses: map<K, V>, version: nat, generation: nat,
    phases: map<nat, Phase<K, V>>, latest: map<nat, map<K, V>>, swaps: nat)

  datatype Step<K, V> = Begin(w: nat, updates: map<K, V>) | Swap(w: nat) | Notify(w: nat)

  function PhaseOf<K, V>(s: State<K, V>, w: nat): Phase<K, V> {
    if w in s.phases then s.phases[w] else Idle
  }

  function Owns<K>(owner: Owner<K>, w: nat): K -> bool {
    (k: K) => owner(k) == w
  }

  /** One step: a compare-and-swap that finds another map retries against that one. */
  function Do<K, V>(owner: Owner<K>, s: State<K, V>, step: Step<K, V>): State<K, V> {
    match step
    case Begin(w, updates) =>
      if PhaseOf(s, w) != Idle then s
      else s.(phases := s.phases[w := Holding(updates, s.version, s.statuses)])
    case Swap(w) =>
      var p := PhaseOf(s, w);
      if !p.Holding? then s
      else if p.seen != s.version then
        s.(phases := s.phases[w := Holding(p.updates, s.version, s.statuses)])
      else
        s.(statuses := Merge(p.snapshot, p.updates, Owns(owner, w)), version := s.version + 1,
           phases := s.phases[w := Swapped], latest := s.latest[w := p.updates], swaps := s.swaps + 1)
    case Notify(w) =>
      if PhaseOf(s, w) != Swapped then s
      else s.(generation := s.generation + 1, phases := s.phases[w := Idle])
  }

  /** The writer publishes only keys it owns. */
  ghost predicate InScope<K(!new), V>(owner: Owner<K>, step: Step<K, V>) {
    step.Begin? ==> forall k :: k in step.updates ==> owner(k) == step.w
  }

  function Start<K, V>(): State<K, V> {
    State(map[], 0, 0, map[], map[], 0)
  }

  function Run<K, V>(owner: Owner<K>, steps: seq<Step<K, V>>): State<K, V> {
    if steps == [] then Start()
    else Do(owner, Run(owner, steps[..|steps| - 1]), steps[|steps| - 1])
  }

  function LatestOf<K, V>(s: State<K, V>, w: nat): map<K, V> {
    if w in s.latest then s.latest[w] else map[]
  }

  ghost predicate Pending<K, V>(s: State<K, V>, w: nat) {
    PhaseOf(s, w).Swapped?
  }

  ghost function Pendings<K, V>(s: State<K, V>): set<nat> {
    set w | w in s.phases && s.phases[w].Swapped?
  }

  ghost predicate PhaseOk<K(!new), V>(owner: Owner<K>, s: State<K, V>, w: nat, p: Phase<K, V>) {
    p.Holding? ==>
      && p.seen <= s.version
      && (p.seen == s.version ==> p.snapshot == s.statuses)
      && (forall k :: k in p.updates ==> owner(k) == w)
  }

  ghost predicate Inv<K(!new), V>(owner: Owner<K>, s: State<K, V>) {
    && (forall k :: Lookup(s.statuses, k) == Lookup(LatestOf(s, owner(k)), k))
    && (forall w :: w in s.phases ==> PhaseOk(owner, s, w, s.phases[w]))
    && s.generation + |Pendings(s)| == s.swaps
  }

  lemma StepKeepsPhases<K(!new), V>(owner: Owner<K>, s: State<K, V>, step: Step<K, V>)
    requires Inv(owner, s) && InScope(owner, step)
    ensures var t := Do(owner, s, step); forall w :: w in t.phases ==> PhaseOk(owner, t, w, t.phases[w])
  {
    var t := Do(owner, s, step);
    forall w | w in t.phases ensures PhaseOk(owner, t, w, t.phases[w]) {
      assert w in s.phases ==> PhaseOk(owner, s, w, s.phases[w]);
    }
  }

  lemma StepKeepsContent<K(!new), V>(owner: Owner<K>, s: State<K, V>, step: Step<K, V>)
    requires Inv(owner, s) && InScope(owner, step)
    ensures var t := Do(owner, s, step); forall k :: Lookup(t.statuses, k) == Lookup(LatestOf(t, owner(k)), k)
  {
    var t := Do(owner, s, step);
    forall k ensures Lookup(t.statuses, k) == Lookup(LatestOf(t, owner(k)), k) {
      assert Lookup(s.statuses, k) == Lookup(LatestOf(s, owner(k)), k);
      if step.Swap? && PhaseOf(s, step.w).Holding? {
        assert PhaseOk(owner, s, step.w, s.phases[step.w]);
      }
    }
  }

  lemma StepKeepsCount<K(!new), V>(owner: Owner<K>, s: State<K, V>, step: Step<K, V>)
    requires Inv(owner, s)
    ensures var t := Do(owner, s, step); t.generation + |Pendings(t)| == t.swaps
  {
    var t := Do(owner, s, step);
    var w := step.w;
    if PhaseOf(t, w).Swapped? && !PhaseOf(s, w).Swapped? {
      assert Pendings(t) == Pendings(s) + {w};
    } else if PhaseOf(s, w).Swapped? && !PhaseOf(t, w).Swapped? {
      assert Pendings(t) == Pendings(s) - {w};
    } else {
      assert Pendings(t) == Pendings(s);
    }
  }

  lemma {:induction false} RunKeepsInv<K(!new), V>(owner: Owner<K>, steps: seq<Step<K, V>>)
    requires forall i :: 0 <= i < |steps| ==> InScope(owner, steps[i])
    ensures Inv(owner, Run(owner, steps))
  {
    if steps == [] {
      var s: State<K, V> := Start();
      assert Pendings(s) == {};
    } else {
      var front, last := steps[..|steps| - 1], steps[|steps| - 1];
      RunKeepsInv(owner, front);
      var s := Run(owner, front);
      StepKeepsPhases(owner, s, last);
      StepKeepsContent(owner, s, last);
      StepKeepsCount(owner, s, last);
    }
  }

  /**
   After any interleaving of the writers' calls, every key shows exactly its owner's latest completed
   update, absence included, and once no writer is between its swap and its notification the generation
   has advanced once per completed update.
   */
  lemma OwnersSeeTheirLatestUpdate<K(!new), V>(owner: Owner<K>, steps: seq<Step<K, V>>)
    requires forall i :: 0 <= i < |steps| ==> InScope(owner, steps[i])
    ensures var s := Run(owner, steps);
            && (forall k :: Lookup(s.statuses, k) == Lookup(LatestOf(s, owner(k)), k))
            && ((forall w :: !Pending(s, w)) ==> s.generation == s.swaps)
  {
    RunKeepsInv(owner, steps);
    var s := Run(owner, steps);
    if forall w :: !Pending(s, w) {
      forall w | w in Pendings(s) ensures false {
        assert Pending(s, w);
      }
      assert Pendings(s) == {};
    }
  }

  /** An update within its scope, key by key. */
  lemma MergedLookup<K(!new), V(!new)>(owner: Owner<K>, m: map<K, V>, w: nat, u: map<K, V>, k: K)
    requires forall k' :: k' in u ==> owner(k') == w
    ensures Lookup(Merge(m, u, Owns(owner, w)), k) == Lookup(if owner(k) == w then u else m, k)
  {
  }

  /** Calls by different writers commute. */
  lemma WritersCommute<K(!new), V(!new)>(owner: Owner<K>, m: map<K, V>, w: nat, u: map<K, V>, w': nat, u': map<K, V>)
    requires w != w'
    requires forall k :: k in u ==> owner(k) == w
    requires forall k :: k in u' ==> owner(k) == w'
    ensures Merge(Merge(m, u, Owns(owner, w)), u', Owns(owner, w')) ==
            Merge(Merge(m, u', Owns(owner, w')), u, Owns(owner, w))
  {
    var a, b := Merge(m, u, Owns(owner, w)), Merge(m, u', Owns(owner, w'));
    forall k ensures Lookup(Merge(a, u', Owns(owner, w')), k) == Lookup(Merge(b, u, Owns(owner, w)), k) {
      MergedLookup(owner, m, w, u, k);
      MergedLookup(owner, m, w', u', k);
      MergedLookup(owner, a, w', u', k);
      MergedLookup(owner, b, w, u, k);
    }
    SameLookups(Merge(a, u', Owns(owner, w')), Merge(b, u, Owns(owner, w)));
  }

  lemma SameLookups<K(!new), V(!new)>(a: map<K, V>, b: map<K, V>)
    requires forall k :: Lookup(a, k) == Lookup(b, k)
    ensures a == b
  {
    forall k ensures k in a <==> k in b {
      assert Lookup(a, k) == Lookup(b, k);
    }
    forall k | k in a ensures a[k] == b[k] {
      assert Lookup(a, k) == Lookup(b, k);
    }
  }

  /** An update outside its scope is harmless to a key exactly when it repeats the key's status. */
  lemma StrayUpdate<K(!new), V(!new)>(owner: Owner<K>, m: map<K, V>, w: nat, u: map<K, V>, k: K)
    requires owner(k) != w
    ensures Lookup(Merge(m, u, Owns(owner, w)), k) == Lookup(m, k) <==> (k in u ==> Lookup(m, k) == Some(u[k]))
  {
  }
}
