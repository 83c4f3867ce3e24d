/**
 The subsystem health registry (`health.rs`): named checks per subsystem, a cached
 aggregate severity that `/readyz` reads without walking the checks, and a change
 counter that wakes the health reporter.
 */
module Health {
  import opened Options
  import opened StringOrder

  const SEV_READY: nat := 0
  const SEV_PENDING: nat := 1
  const SEV_DEGRADED: nat := 2
  const SEV_FAILED: nat := 3

  datatype CheckState = Pending | Ready | Degraded(reason: string) | Failed(reason: string) {
    function Severity(): nat {
      match this
      case Ready => SEV_READY
      case Pending => SEV_PENDING
      case Degraded(_) => SEV_DEGRADED
      case Failed(_) => SEV_FAILED
    }

    predicate IsReady() {
      Ready? || Degraded?
    }
  }

  type Checks = map<string, CheckState>

  datatype SubsystemSnapshot = SubsystemSnapshot(state: CheckState, checks: Checks)
  datatype HealthSnapshot = HealthSnapshot(subsystems: map<string, SubsystemSnapshot>)

  /** One subsystem: its checks and the severity cached beside them. */
  datatype Subsystem = Subsystem(checks: Checks, aggregateSeverity: nat)

  datatype Registry = Registry(subsystems: map<string, Subsystem>, changed: nat)

  datatype Op =
    | Register(name: string, checks: seq<string>)
    | Set(name: string, check: string, state: CheckState)

  // ---- What the cache and the snapshot are meant to be ----

  /** `m` is the greatest severity among the checks, 0 when there are none. */
  ghost predicate IsMaxSeverity(checks: Checks, m: nat) {
    && (forall c :: c in checks ==> checks[c].Severity() <= m)
    && (m == SEV_READY || exists c :: c in checks && checks[c].Severity() == m)
  }

  /** `max_by_key` over a `BTreeMap`: the last, in name order, of the worst checks. */
  ghost predicate IsLastWorst(checks: Checks, k: string) {
    && k in checks
    && forall c :: c in checks ==> Outranks(checks, k, c)
  }

  /** `k` is worse than `c`, or as bad and not before it. */
  predicate Outranks(checks: Checks, k: string, c: string)
    requires k in checks && c in checks
  {
    || checks[c].Severity() < checks[k].Severity()
    || (checks[c].Severity() == checks[k].Severity() && Leq(c, k))
  }

  lemma OutranksTransitive(checks: Checks, a: string, b: string, c: string)
    requires a in checks && b in checks && c in checks && Outranks(checks, a, b) && Outranks(checks, b, c)
    ensures Outranks(checks, a, c)
  {
    if checks[a].Severity() == checks[c].Severity() {
      LeqTransitive(c, b, a);
    }
  }

  ghost predicate IsAggregate(checks: Checks, state: CheckState) {
    if checks == map[] then state == Ready
    else exists k :: IsLastWorst(checks, k) && state == checks[k]
  }

  ghost predicate IsSnapshot(r: Registry, snap: HealthSnapshot) {
    && snap.subsystems.Keys == r.subsystems.Keys
    && forall n :: n in r.subsystems ==>
         && snap.subsystems[n].checks == r.subsystems[n].checks
         && IsAggregate(r.subsystems[n].checks, snap.subsystems[n].state)
  }

  /** Every cached severity is the maximum over that subsystem's checks. */
  ghost predicate CacheValid(r: Registry) {
    forall n :: n in r.subsystems ==>
      IsMaxSeverity(r.subsystems[n].checks, r.subsystems[n].aggregateSeverity)
  }

  predicate SeverityIsReady(sev: nat) {
    sev == SEV_READY || sev == SEV_DEGRADED
  }

  /** `/readyz`: reads the cached severities only. */
  predicate IsReady(r: Registry) {
    forall n :: n in r.subsystems ==> SeverityIsReady(r.subsystems[n].aggregateSeverity)
  }

  // ---- Transitions ----

  ghost function MaxSeverity(checks: Checks): nat {
    if exists c :: c in checks && checks[c].Failed? then SEV_FAILED
    else if exists c :: c in checks && checks[c].Degraded? then SEV_DEGRADED
    else if exists c :: c in checks && checks[c].Pending? then SEV_PENDING
    else SEV_READY
  }

  /** An operation that takes effect: a fresh registration or a genuine transition. */
  predicate Effective(r: Registry, op: Op) {
    match op
    case Register(name, _) => name !in r.subsystems
    case Set(name, check, state) =>
      && name in r.subsystems
      && check in r.subsystems[name].checks
      && r.subsystems[name].checks[check] != state
  }

  /** One call. A duplicate registration and an unknown check panic before any write. */
  ghost function Step(r: Registry, op: Op): Registry {
    if !Effective(r, op) then r
    else match op
      case Register(name, checks) =>
        var initial := map c | c in checks :: Pending;
        Registry(r.subsystems[name := Subsystem(initial, if checks == [] then SEV_READY else SEV_PENDING)],
                 r.changed + 1)
      case Set(name, check, state) =>
        var checks := r.subsystems[name].checks[check := state];
        Registry(r.subsystems[name := Subsystem(checks, MaxSeverity(checks))], r.changed + 1)
  }

  ghost function Run(ops: seq<Op>): Registry {
    if ops == [] then Registry(map[], 0) else Step(Run(ops[..|ops| - 1]), ops[|ops| - 1])
  }

  /** How many operations of a run took effect. */
  ghost function EffectiveCount(ops: seq<Op>): nat {
    if ops == [] then 0
    else EffectiveCount(ops[..|ops| - 1]) + if Effective(Run(ops[..|ops| - 1]), ops[|ops| - 1]) then 1 else 0
  }

  // ---- Lemmas ----

  lemma MaxSeverityIsMax(checks: Checks)
    ensures IsMaxSeverity(checks, MaxSeverity(checks))
    ensures forall m :: IsMaxSeverity(checks, m) ==> m == MaxSeverity(checks)
  {
    var m := MaxSeverity(checks);
    forall c | c in checks ensures checks[c].Severity() <= m {
      var s := checks[c];
    }
    if m != SEV_READY {
      var c :| c in checks && checks[c].Severity() == m;
    }
  }

  lemma {:induction false} LastWorstExists(checks: Checks) returns (k: string)
    requires checks != map[]
    ensures IsLastWorst(checks, k)
    decreases |checks|
  {
    var c :| c in checks;
    var rest := checks - {c};
    assert checks == rest[c := checks[c]];
    LeqReflexive(c);
    if rest == map[] {
      return c;
    }
    var w := LastWorstExists(rest);
    LeqTotal(c, w);
    var better := checks[c].Severity() > checks[w].Severity()
               || (checks[c].Severity() == checks[w].Severity() && Leq(w, c));
    if better {
      forall x | x in checks && x != c && checks[x].Severity() == checks[c].Severity()
        ensures Leq(x, c)
      {
        assert x in rest;
        LeqTransitive(x, w, c);
      }
      return c;
    }
    return w;
  }

  lemma LastWorstUnique(checks: Checks, a: string, b: string)
    requires IsLastWorst(checks, a) && IsLastWorst(checks, b)
    ensures a == b
  {
    LeqAntisymmetric(a, b);
  }

  /** The state in a snapshot is ready exactly when the maximum severity is. */
  lemma AggregateAgrees(checks: Checks, m: nat, state: CheckState)
    requires IsMaxSeverity(checks, m) && IsAggregate(checks, state)
    ensures state.Severity() == m
    ensures state.IsReady() <==> SeverityIsReady(m)
  {
    if checks != map[] {
      var k :| IsLastWorst(checks, k) && state == checks[k];
      if m != SEV_READY {
        var c :| c in checks && checks[c].Severity() == m;
      }
    }
  }

  lemma StepKeepsCache(r: Registry, op: Op)
    requires CacheValid(r)
    ensures CacheValid(Step(r, op))
  {
    if Effective(r, op) {
      match op
      case Register(name, checks) =>
        if checks != [] {
          var initial: Checks := map c | c in checks :: Pending;
          assert checks[0] in initial && initial[checks[0]].Severity() == SEV_PENDING;
        }
      case Set(name, check, state) =>
        MaxSeverityIsMax(r.subsystems[name].checks[check := state]);
    }
  }

  /**
   In every reachable state: each cached severity is the maximum of its checks,
   `/readyz` says exactly what the states of any snapshot say, and the change
   counter has moved once per registration or genuine transition.
   */
  lemma {:induction false} CacheAgreement(ops: seq<Op>, snap: HealthSnapshot)
    requires IsSnapshot(Run(ops), snap)
    ensures CacheValid(Run(ops))
    ensures IsReady(Run(ops)) <==> forall n :: n in snap.subsystems ==> snap.subsystems[n].state.IsReady()
    ensures Run(ops).changed == EffectiveCount(ops)
  {
    var r := Run(ops);
    RunKeepsCache(ops);
    forall n | n in r.subsystems
      ensures snap.subsystems[n].state.IsReady() <==> SeverityIsReady(r.subsystems[n].aggregateSeverity)
    {
      AggregateAgrees(r.subsystems[n].checks, r.subsystems[n].aggregateSeverity, snap.subsystems[n].state);
    }
  }

  lemma {:induction false} RunKeepsCache(ops: seq<Op>)
    ensures CacheValid(Run(ops))
    ensures Run(ops).changed == EffectiveCount(ops)
  {
    if ops != [] {
      RunKeepsCache(ops[..|ops| - 1]);
      StepKeepsCache(Run(ops[..|ops| - 1]), ops[|ops| - 1]);
    }
  }

  /** A subscriber is woken by a call exactly when that call changed what a snapshot shows. */
  lemma WokenIffSnapshotChanges(r: Registry, op: Op, before: HealthSnapshot, after: HealthSnapshot)
    requires IsSnapshot(r, before) && IsSnapshot(Step(r, op), after)
    ensures Step(r, op).changed != r.changed <==> before != after
  {
    if !Effective(r, op) {
      forall n | n in r.subsystems ensures before.subsystems[n] == after.subsystems[n] {
        var checks := r.subsystems[n].checks;
        if checks != map[] {
          var a :| IsLastWorst(checks, a) && before.subsystems[n].state == checks[a];
          var b :| IsLastWorst(checks, b) && after.subsystems[n].state == checks[b];
          LastWorstUnique(checks, a, b);
        }
      }
      assert before.subsystems == after.subsystems;
    } else {
      match op
      case Register(name, _) =>
        assert name in after.subsystems && name !in before.subsystems;
      case Set(name, check, state) =>
        assert before.subsystems[name].checks[check] != after.subsystems[name].checks[check];
    }
  }

  /**
   What `/readyz` means check by check: no check failed and, in every subsystem,
   either nothing is pending or something is degraded. A degraded check therefore
   hides a check that has not reported yet.
   */
  lemma ReadinessByChecks(ops: seq<Op>)
    ensures IsReady(Run(ops)) <==>
            forall n :: n in Run(ops).subsystems ==>
              var checks := Run(ops).subsystems[n].checks;
              && (forall c :: c in checks ==> !checks[c].Failed?)
              && ((forall c :: c in checks ==> !checks[c].Pending?) || (exists c :: c in checks && checks[c].Degraded?))
  {
    RunKeepsCache(ops);
    var r := Run(ops);
    forall n | n in r.subsystems
      ensures var checks := r.subsystems[n].checks;
              SeverityIsReady(r.subsystems[n].aggregateSeverity) <==>
              (&& (forall c :: c in checks ==> !checks[c].Failed?)
               && ((forall c :: c in checks ==> !checks[c].Pending?)
                   || (exists c :: c in checks && checks[c].Degraded?)))
    {
      MaxSeverityIsMax(r.subsystems[n].checks);
    }
  }

  /** Two checks registered, the first reported as degraded, the second never: the registry is ready. */
  lemma ReadyWithAPendingCheck(name: string, a: string, b: string, reason: string)
    requires a != b
    ensures var r := Run([Register(name, [a, b]), Set(name, a, Degraded(reason))]);
            name in r.subsystems && r.subsystems[name].checks == map[a := Degraded(reason), b := Pending] && IsReady(r)
  {
    var reg, set1 := Register(name, [a, b]), Set(name, a, Degraded(reason));
    var none: seq<Op> := [];
    assert [reg, set1][..1] == [reg] && [reg][..0] == none;
    var r1 := Run([reg]);
    assert r1 == Step(Run(none), reg);
    assert r1.subsystems[name].checks == map[a := Pending, b := Pending];
    var checks := map[a := Degraded(reason), b := Pending];
    assert r1.subsystems[name].checks[a := Degraded(reason)] == checks;
    assert a in checks && checks[a].Degraded?;
    assert MaxSeverity(checks) == SEV_DEGRADED;
  }

  // ---- The registry object ----

  class HealthRegistry {
    var subsystems: map<string, Subsystem>
    var changed: nat

    ghost function State(): Registry
      reads this
    {
      Registry(subsystems, changed)
    }

    constructor ()
      ensures State() == Run([])
    {
      subsystems := map[];
      changed := 0;
    }

    /** Returns false where the source panics: the name is already registered. */
    method Register(name: string, checks: seq<string>) returns (ok: bool)
      modifies this
      ensures ok <==> name !in old(subsystems)
      ensures State() == Step(old(State()), Op.Register(name, checks))
    {
      if name in subsystems {
        return false;
      }
      var checkMap: Checks := map[];
      for i := 0 to |checks|
        invariant checkMap == map c | c in checks[..i] :: Pending
      {
        checkMap := checkMap[checks[i] := Pending];
      }
      assert checks[..|checks|] == checks;
      assert checkMap == map[] <==> checks == [] by {
        if checks != [] { assert checks[0] in checkMap; }
      }
      var initial := if checkMap == map[] then SEV_READY else SEV_PENDING;
      subsystems := subsystems[name := Subsystem(checkMap, initial)];
      changed := changed + 1;
      return true;
    }

    /** Returns false where the source panics: the check was never registered. */
    method Set(name: string, check: string, state: CheckState) returns (ok: bool)
      modifies this
      ensures ok <==> name in old(subsystems) && check in old(subsystems)[name].checks
      ensures State() == Step(old(State()), Op.Set(name, check, state))
    {
      if name !in subsystems || check !in subsystems[name].checks {
        return false;
      }
      if subsystems[name].checks[check] == state {
        return true;
      }
      var checks := subsystems[name].checks[check := state];
      var max := AggregateSeverity(checks);
      MaxSeverityIsMax(checks);
      subsystems := subsystems[name := Subsystem(checks, max)];
      changed := changed + 1;
      return true;
    }

    method Snapshot() returns (snap: HealthSnapshot)
      ensures IsSnapshot(State(), snap)
    {
      var out: map<string, SubsystemSnapshot> := map[];
      var rest := subsystems.Keys;
      while rest != {}
        invariant rest <= subsystems.Keys
        invariant out.Keys == subsystems.Keys - rest
        invariant forall n :: n in out ==>
          && out[n].checks == subsystems[n].checks
          && IsAggregate(subsystems[n].checks, out[n].state)
        decreases |rest|
      {
        var n :| n in rest;
        var state := AggregateState(subsystems[n].checks);
        out := out[n := SubsystemSnapshot(state, subsystems[n].checks)];
        rest := rest - {n};
      }
      snap := HealthSnapshot(out);
    }
  }

  /** The `.values().map(severity).max().unwrap_or(SEV_READY)` fold. */
  method AggregateSeverity(checks: Checks) returns (max: nat)
    ensures IsMaxSeverity(checks, max)
  {
    max := SEV_READY;
    var rest := checks.Keys;
    while rest != {}
      invariant rest <= checks.Keys
      invariant forall c :: c in checks && c !in rest ==> checks[c].Severity() <= max
      invariant max == SEV_READY || exists c :: c in checks && checks[c].Severity() == max
      decreases |rest|
    {
      var c :| c in rest;
      if checks[c].Severity() > max {
        max := checks[c].Severity();
      }
      rest := rest - {c};
    }
  }

  /** The `.values().max_by_key(severity).cloned().unwrap_or(Ready)` fold. */
  method AggregateState(checks: Checks) returns (state: CheckState)
    ensures IsAggregate(checks, state)
  {
    if checks == map[] {
      return Ready;
    }
    var k :| k in checks;
    LeqReflexive(k);
    var seen := {k};
    while seen != checks.Keys
      invariant k in seen && seen <= checks.Keys
      invariant forall c :: c in seen ==> Outranks(checks, k, c)
      decreases |checks.Keys - seen|
    {
      var c :| c in checks.Keys - seen;
      LeqTotal(c, k);
      LeqReflexive(c);
      if checks[c].Severity() > checks[k].Severity()
         || (checks[c].Severity() == checks[k].Severity() && Leq(k, c)) {
        forall x | x in seen ensures Outranks(checks, c, x) {
          OutranksTransitive(checks, c, k, x);
        }
        k := c;
      }
      ghost var left := checks.Keys - seen;
      seen := seen + {c};
      assert checks.Keys - seen == left - {c};
    }
    assert IsLastWorst(checks, k);
    state := checks[k];
  }
}
