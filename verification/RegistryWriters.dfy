/**
 The registry's writers at their own granularity: each changes the rows under the lock, releases it,
 and only then bumps the gate watch and the roster watch, in that order. Any number of writers may be
 between their update and their bumps.
 */
module RegistryWriters {
  import opened Options
  import opened NodeRegistry
  import opened RegistryGate

  /** The bumps a writer still owes for its last update. */
  datatype Debt = Debt(gate: bool, roster: bool)

  datatype Shared = Shared(nodes: Nodes, notify: nat, roster: nat, writers: map<nat, Debt>)

  const INIT: Shared := Shared(map[], 0, 0, map[])

  datatype WriterStep =
    | Update(writer: nat, op: Op)
    | BumpGate(writer: nat)
    | BumpRoster(writer: nat)

  predicate Free(s: Shared, w: nat) {
    w in s.writers ==> s.writers[w] == Debt(false, false)
  }

  /** What an operation does to the rows, and the bumps it calls for. */
  function Effect(nodes: Nodes, op: Op): Registry {
    Step(Registry(nodes, 0, 0), op)
  }

  function DebtOf(nodes: Nodes, op: Op): Debt {
    Debt(Effect(nodes, op).notify > 0, Effect(nodes, op).roster > 0)
  }

  function Do(s: Shared, step: WriterStep): Shared {
    match step
    case Update(w, op) =>
      if Free(s, w) then s.(nodes := Effect(s.nodes, op).nodes, writers := s.writers[w := DebtOf(s.nodes, op)]) else s
    case BumpGate(w) =>
      if w in s.writers && s.writers[w].gate
      then s.(notify := s.notify + 1, writers := s.writers[w := s.writers[w].(gate := false)])
      else s
    case BumpRoster(w) =>
      if w in s.writers && s.writers[w] == Debt(false, true)
      then s.(roster := s.roster + 1, writers := s.writers[w := Debt(false, false)])
      else s
  }

  function RunFrom(s: Shared, steps: seq<WriterStep>): Shared {
    if steps == [] then s else Do(RunFrom(s, steps[..|steps| - 1]), steps[|steps| - 1])
  }

  /** The operations a run performs, in the order of their locked updates. */
  function OpsOf(s: Shared, steps: seq<WriterStep>): seq<Op> {
    if steps == [] then []
    else
      var front, last := steps[..|steps| - 1], steps[|steps| - 1];
      OpsOf(s, front) + (if last.Update? && Free(RunFrom(s, front), last.writer) then [last.op] else [])
  }

  function GateOwed(s: Shared): set<nat> {
    set w | w in s.writers && s.writers[w].gate
  }

  function RosterOwed(s: Shared): set<nat> {
    set w | w in s.writers && s.writers[w].roster
  }

  /** The registry with every owed bump paid. */
  function Settled(s: Shared): Registry {
    Registry(s.nodes, s.notify + |GateOwed(s)|, s.roster + |RosterOwed(s)|)
  }

  // ---- Paid up, the writers run the registry's own steps ----

  /** Counters only add up: a step reads the rows alone and bumps either counter at most once. */
  lemma StepAdds(r: Registry, op: Op)
    ensures var e := Effect(r.nodes, op);
            && e.notify <= 1 && e.roster <= 1
            && Step(r, op) == Registry(e.nodes, r.notify + e.notify, r.roster + e.roster)
  {
  }

  lemma GateOwes(s: Shared, nodes: Nodes, w: nat, d: Debt)
    requires Free(s, w)
    ensures |GateOwed(s.(nodes := nodes, writers := s.writers[w := d]))| == |GateOwed(s)| + (if d.gate then 1 else 0)
  {
    var s' := s.(nodes := nodes, writers := s.writers[w := d]);
    if d.gate {
      assert GateOwed(s') == GateOwed(s) + {w};
    } else {
      assert GateOwed(s') == GateOwed(s);
    }
  }

  lemma RosterOwes(s: Shared, nodes: Nodes, w: nat, d: Debt)
    requires Free(s, w)
    ensures |RosterOwed(s.(nodes := nodes, writers := s.writers[w := d]))| ==
            |RosterOwed(s)| + (if d.roster then 1 else 0)
  {
    var s' := s.(nodes := nodes, writers := s.writers[w := d]);
    if d.roster {
      assert RosterOwed(s') == RosterOwed(s) + {w};
    } else {
      assert RosterOwed(s') == RosterOwed(s);
    }
  }

  lemma UpdateSettles(s: Shared, w: nat, op: Op)
    requires Free(s, w)
    ensures Settled(Do(s, Update(w, op))) == Step(Settled(s), op)
  {
    StepAdds(Settled(s), op);
    GateOwes(s, Effect(s.nodes, op).nodes, w, DebtOf(s.nodes, op));
    RosterOwes(s, Effect(s.nodes, op).nodes, w, DebtOf(s.nodes, op));
  }

  lemma GatePays(s: Shared, w: nat)
    ensures Settled(Do(s, BumpGate(w))) == Settled(s)
  {
    if w in s.writers && s.writers[w].gate {
      var s' := Do(s, BumpGate(w));
      assert w !in GateOwed(s') && GateOwed(s) == GateOwed(s') + {w};
      assert RosterOwed(s) == RosterOwed(s');
    }
  }

  lemma RosterPays(s: Shared, w: nat)
    ensures Settled(Do(s, BumpRoster(w))) == Settled(s)
  {
    if w in s.writers && s.writers[w] == Debt(false, true) {
      var s' := Do(s, BumpRoster(w));
      assert w !in RosterOwed(s') && RosterOwed(s) == RosterOwed(s') + {w};
      assert GateOwed(s) == GateOwed(s');
    }
  }

  /** Every interleaving of updates and bumps is, paid up, the run of its operations one at a time. */
  lemma {:induction false} WritersRefine(s: Shared, steps: seq<WriterStep>)
    ensures Settled(RunFrom(s, steps)) == Run(Settled(s), OpsOf(s, steps))
  {
    if steps != [] {
      var front, last := steps[..|steps| - 1], steps[|steps| - 1];
      WritersRefine(s, front);
      var t := RunFrom(s, front);
      if last.Update? && Free(t, last.writer) {
        UpdateSettles(t, last.writer, last.op);
        assert OpsOf(s, steps)[..|OpsOf(s, front)|] == OpsOf(s, front);
      } else {
        assert OpsOf(s, steps) == OpsOf(s, front);
        if last.BumpGate? {
          GatePays(t, last.writer);
        } else if last.BumpRoster? {
          RosterPays(t, last.writer);
        }
      }
    }
  }

  // ---- What a consumer may conclude from an unmoved counter ----

  lemma {:induction false} CountersGrow(s: Shared, steps: seq<WriterStep>)
    ensures s.notify <= RunFrom(s, steps).notify && s.roster <= RunFrom(s, steps).roster
  {
    if steps != [] {
      CountersGrow(s, steps[..|steps| - 1]);
    }
  }

  /**
   Over any interleaving, from any state: a consumer that finds the gate counter where it left it, with
   no writer between its update and its gate bump, has missed no change of a bound quorum, and no change
   of an ack quorum if no ack happened; likewise an unmoved roster counter with no roster bump owed
   means that no row changed.
   */
  lemma NothingMissedWhenPaid(s: Shared, steps: seq<WriterStep>)
    requires Invariant(s.nodes) && AdmissibleRun(Settled(s), OpsOf(s, steps))
    ensures var s', ops := RunFrom(s, steps), OpsOf(s, steps);
            && s.notify <= s'.notify && s.roster <= s'.roster
            && (s'.notify == s.notify && GateOwed(s') == {} ==>
                  && SameBoundQuorums(s.nodes, s'.nodes)
                  && ((forall i :: 0 <= i < |ops| ==> !IsAckOp(ops[i])) ==> SameAckQuorums(s.nodes, s'.nodes)))
            && (s'.roster == s.roster && RosterOwed(s') == {} ==> s'.nodes == s.nodes)
  {
    CountersGrow(s, steps);
    WritersRefine(s, steps);
    NothingMissedWhileQuiet(Settled(s), OpsOf(s, steps));
  }

  // ---- The condition is exact ----

  /** From a reachable state `steps` leads where the gate counter has not moved and `g` gate bumps are owed. */
  ghost predicate Unmoved(before: seq<WriterStep>, steps: seq<WriterStep>, g: nat) {
    var s := RunFrom(INIT, before);
    var s' := RunFrom(s, steps);
    && AdmissibleRun(EMPTY, OpsOf(INIT, before)) && AdmissibleRun(Settled(s), OpsOf(s, steps))
    && s'.notify == s.notify && |GateOwed(s')| == g
  }

  ghost predicate QuorumsKept(before: seq<WriterStep>, steps: seq<WriterStep>) {
    var s := RunFrom(INIT, before);
    SameBoundQuorums(s.nodes, RunFrom(s, steps).nodes)
  }

  lemma PaidIsSafe(before: seq<WriterStep>, steps: seq<WriterStep>)
    requires Unmoved(before, steps, 0)
    ensures QuorumsKept(before, steps)
  {
    assert Settled(INIT) == EMPTY;
    WritersRefine(INIT, before);
    RunKeepsInvariant(EMPTY, OpsOf(INIT, before));
    NothingMissedWhenPaid(RunFrom(INIT, before), steps);
  }

  function Ports(g: nat): set<Port> {
    if g % 2 == 0 then {} else {80}
  }

  /** One shared node, unbound at first, then reporting one set of ports after another. */
  function Row(g: nat): NodeEntry {
    var row := Fresh("x", SharedPool, 0);
    if g == 0 then row else row.(boundPorts := Some(Ports(g)))
  }

  function Writers(g: nat): map<nat, Debt> {
    if g == 0 then map[0 := Debt(false, false)] else Writers(g - 1)[g - 1 := Debt(true, true)]
  }

  lemma {:induction false} WritersBelow(g: nat)
    ensures forall w :: w in Writers(g) ==> w < g || (w == g == 0 && Writers(g)[w] == Debt(false, false))
  {
    if g > 0 {
      WritersBelow(g - 1);
    }
  }

  function Owing(g: nat): Shared {
    Shared(map["x" := Row(g)], 1, 1, Writers(g))
  }

  const JOIN: seq<WriterStep> := [Update(0, Connect("x", SharedPool, 0)), BumpGate(0), BumpRoster(0)]

  lemma RunSnoc(s: Shared, steps: seq<WriterStep>, x: WriterStep)
    ensures RunFrom(s, steps + [x]) == Do(RunFrom(s, steps), x)
  {
    assert (steps + [x])[..|steps|] == steps;
  }

  lemma Joined()
    ensures RunFrom(INIT, JOIN) == Owing(0)
  {
    var none: seq<WriterStep> := [];
    var a, b := [JOIN[0]], [JOIN[0], JOIN[1]];
    assert a == none + [JOIN[0]] && b == a + [JOIN[1]] && JOIN == b + [JOIN[2]];
    RunSnoc(INIT, none, JOIN[0]);
    RunSnoc(INIT, a, JOIN[1]);
    RunSnoc(INIT, b, JOIN[2]);
    var empty: Nodes := map[];
    assert empty["x" := Fresh("x", SharedPool, 0)] == map["x" := Row(0)];
    assert Do(INIT, JOIN[0]) == Shared(map["x" := Row(0)], 0, 0, map[0 := Debt(true, true)]);
    assert Do(Do(INIT, JOIN[0]), JOIN[1]) == Shared(map["x" := Row(0)], 1, 0, map[0 := Debt(false, true)]);
  }

  lemma OneMore(g: nat)
    ensures Do(Owing(g), Update(g, RecordBoundPorts("x", Ports(g + 1)))) == Owing(g + 1)
  {
    var op := RecordBoundPorts("x", Ports(g + 1));
    assert Row(g).boundPorts != Some(Ports(g + 1)) by {
      assert Ports(g) == {} <==> Ports(g + 1) != {};
    }
    assert Effect(Owing(g).nodes, op).nodes == map["x" := Row(g + 1)];
    assert DebtOf(Owing(g).nodes, op) == Debt(true, true);
    WritersBelow(g);
  }

  lemma {:induction false} NoRosters(s: Shared, steps: seq<WriterStep>)
    requires forall i :: 0 <= i < |steps| && steps[i].Update? ==> !steps[i].op.ApplyRoster?
    ensures forall r :: AdmissibleRun(r, OpsOf(s, steps))
    ensures forall i :: 0 <= i < |OpsOf(s, steps)| ==> !OpsOf(s, steps)[i].ApplyRoster?
  {
    if steps != [] {
      NoRosters(s, steps[..|steps| - 1]);
    }
  }

  lemma {:induction false} Owes(g: nat) returns (steps: seq<WriterStep>)
    ensures RunFrom(Owing(0), steps) == Owing(g)
    ensures forall i :: 0 <= i < |steps| && steps[i].Update? ==> !steps[i].op.ApplyRoster?
  {
    steps := [];
    if g > 0 {
      steps := Owes(g - 1);
      OneMore(g - 1);
      RunSnoc(Owing(0), steps, Update(g - 1, RecordBoundPorts("x", Ports(g))));
      steps := steps + [Update(g - 1, RecordBoundPorts("x", Ports(g)))];
    }
  }

  lemma {:induction false} OwedCount(g: nat)
    ensures |GateOwed(Owing(g))| == g
  {
    if g > 0 {
      OwedCount(g - 1);
      WritersBelow(g - 1);
      assert GateOwed(Owing(g)) == GateOwed(Owing(g - 1)) + {g - 1};
    } else {
      assert GateOwed(Owing(0)) == {};
    }
  }

  lemma BoundNow(g: nat)
    requires g >= 1
    ensures !SameBoundQuorums(Owing(0).nodes, Owing(g).nodes)
  {
    assert "x" in Owing(0).nodes && IsSharedLeaf(Owing(0).nodes["x"]);
    assert !AllSharedNodesBound(Owing(0).nodes, {});
    assert "x" in Owing(g).nodes && IsSharedLeaf(Owing(g).nodes["x"]);
    assert AllSharedNodesBound(Owing(g).nodes, {});
  }

  /** For every number of owed bumps, a run in which a bound quorum changed and the counter has not moved. */
  lemma OwedHidesAChange(g: nat) returns (before: seq<WriterStep>, steps: seq<WriterStep>)
    requires g >= 1
    ensures Unmoved(before, steps, g) && !QuorumsKept(before, steps)
  {
    before := JOIN;
    Joined();
    steps := Owes(g);
    NoRosters(INIT, before);
    NoRosters(Owing(0), steps);
    OwedCount(g);
    BoundNow(g);
  }

  /** An unmoved counter tells that no bound quorum changed, in every run, exactly if no gate bump is owed. */
  lemma PaidExact(g: nat)
    ensures g == 0 <==>
            forall before: seq<WriterStep>, steps: seq<WriterStep> ::
              Unmoved(before, steps, g) ==> QuorumsKept(before, steps)
  {
    if g == 0 {
      forall before: seq<WriterStep>, steps: seq<WriterStep> | Unmoved(before, steps, g)
        ensures QuorumsKept(before, steps)
      {
        PaidIsSafe(before, steps);
      }
    } else {
      var before, steps := OwedHidesAChange(g);
    }
  }
}
