/** Building blocks for concrete runs of the publish/ack protocol. */
module GateRuns {
  import opened Options
  import opened PublishIndex
  import opened ConvergenceGate
  import R = NodeRegistry

  // ---- Runs ----

  /** `steps` leads from the initial state to `s`. */
  ghost predicate Reaches(steps: seq<Step>, s: State) {
    forall k {:trigger steps[..k]} :: k == |steps| ==> RunFrom(INIT, steps[..k]) == s
  }

  lemma ReachesMeans(steps: seq<Step>, s: State)
    ensures Reaches(steps, s) <==> RunFrom(INIT, steps) == s
  {
    assert steps[..|steps|] == steps;
  }

  lemma Next(steps: seq<Step>, s: State, step: Step) returns (steps': seq<Step>, s': State)
    requires Reaches(steps, s)
    ensures steps' == steps + [step] && s' == Do(s, step) && Reaches(steps', s')
  {
    steps', s' := steps + [step], Do(s, step);
    ReachesMeans(steps, s);
    ReachesMeans(steps', s');
    assert steps'[..|steps' | - 1] == steps;
  }

  // ---- Numbered rebuilds ----

  const KEY: ObjectKey := ObjectKey("ns", "gw")

  /** What rebuild `n` stores everywhere; `offset` tells the rebuilds of successive controllers apart. */
  function Val(offset: nat, n: nat): nat {
    if n == 0 then 0 else offset + n
  }

  function All(base: World, v: nat): World {
    map c | c in base :: v
  }

  function Half(base: World, early: nat, late: nat): World {
    map c | c in base :: if Early(c) then early else late
  }

  function PassOf(base: World, offset: nat, n: nat): Pass {
    Pass(All(base, Val(offset, n)), map[KEY := Content(n, 0)])
  }

  function History(base: World, offset: nat, n: nat): seq<Pass> {
    seq(n, i requires 0 <= i < n => PassOf(base, offset, i + 1))
  }

  function StampsAt(n: nat): Stamps {
    if n == 0 then map[] else map[KEY := PublishStamp(Content(n, 0), n)]
  }

  function LateKeys(base: World): set<Cell> {
    set c | c in base && !Early(c)
  }

  /** Which cells are shared, read off the initial state. */
  lemma Base() returns (base: World)
    ensures FullFor(R.SharedPool, base) && INITIAL == All(base, 0)
  {
    base := INITIAL;
  }

  /** The controller after `n` whole rebuilds; the rest of the state is `s`'s. */
  function Resting(s: State, base: World, offset: nat, n: nat): State {
    s.(hist := History(base, offset, n), phase := Idle, stamps := StampsAt(n),
       root := s.root.(cells := All(base, Val(offset, n)), counter := n, generation := 2 * n))
  }

  /** The controller just after the first tick of rebuild `n`. */
  function Ticked(s: State, base: World, offset: nat, n: nat): State
    requires n >= 1
  {
    s.(hist := History(base, offset, n), phase := Storing(LateKeys(base), true), stamps := StampsAt(n - 1),
       root := s.root.(cells := Half(base, Val(offset, n), Val(offset, n - 1)), counter := n - 1,
                       generation := 2 * n - 1))
  }

  /** The controller just before the second tick of rebuild `n`. */
  function Unticked(s: State, base: World, offset: nat, n: nat): State
    requires n >= 1
  {
    s.(hist := History(base, offset, n), phase := Phase.Stamped, stamps := StampsAt(n),
       root := s.root.(cells := All(base, Val(offset, n)), counter := n, generation := 2 * n - 1))
  }

  lemma HistoryGrows(base: World, offset: nat, n: nat)
    requires n >= 1
    ensures History(base, offset, n) == History(base, offset, n - 1) + [PassOf(base, offset, n)]
    ensures History(base, offset, n) != [] && History(base, offset, n)[n - 1] == PassOf(base, offset, n)
  {
  }

  /** The controller within rebuild `n`; the rest of the state is `s`'s. */
  function Within(s: State, hist: seq<Pass>, phase: Phase, stamps: Stamps, cells: World, counter: nat,
                  generation: nat): State {
    s.(hist := hist, phase := phase, stamps := stamps,
       root := s.root.(cells := cells, counter := counter, generation := generation))
  }

  lemma BeginStep(s: State, base: World, offset: nat, n: nat)
    requires n >= 1
    ensures Do(Resting(s, base, offset, n - 1), BeginPass(PassOf(base, offset, n))) ==
            Within(s, History(base, offset, n), Storing(base.Keys, false), StampsAt(n - 1),
                   All(base, Val(offset, n - 1)), n - 1, 2 * n - 2)
  {
    HistoryGrows(base, offset, n);
    assert All(base, Val(offset, n - 1)).Keys + All(base, Val(offset, n)).Keys == base.Keys;
  }

  lemma EarlyOverlay(base: World, before: nat, after: nat)
    ensures Overlay(All(base, before), All(base, after), base.Keys - LateKeys(base)) == Half(base, after, before)
    ensures Overlay(Half(base, after, before), All(base, after), LateKeys(base)) == All(base, after)
    ensures base.Keys - (base.Keys - LateKeys(base)) == LateKeys(base)
  {
  }

  lemma EarlyStep(s: State, base: World, offset: nat, n: nat)
    requires n >= 1
    ensures Do(Within(s, History(base, offset, n), Storing(base.Keys, false), StampsAt(n - 1),
                      All(base, Val(offset, n - 1)), n - 1, 2 * n - 2),
               StoreCells(base.Keys - LateKeys(base))) ==
            Within(s, History(base, offset, n), Storing(LateKeys(base), false), StampsAt(n - 1),
                   Half(base, Val(offset, n), Val(offset, n - 1)), n - 1, 2 * n - 2)
  {
    HistoryGrows(base, offset, n);
    EarlyOverlay(base, Val(offset, n - 1), Val(offset, n));
  }

  lemma TickStep(s: State, base: World, offset: nat, n: nat)
    requires n >= 1
    ensures Do(Within(s, History(base, offset, n), Storing(LateKeys(base), false), StampsAt(n - 1),
                      Half(base, Val(offset, n), Val(offset, n - 1)), n - 1, 2 * n - 2), Tick) ==
            Ticked(s, base, offset, n)
  {
  }

  lemma FirstHalf(steps: seq<Step>, s: State, base: World, offset: nat, n: nat) returns (steps': seq<Step>)
    requires n >= 1 && Reaches(steps, Resting(s, base, offset, n - 1))
    ensures Reaches(steps', Ticked(s, base, offset, n))
  {
    BeginStep(s, base, offset, n);
    EarlyStep(s, base, offset, n);
    TickStep(s, base, offset, n);
    var a, s1 := Next(steps, Resting(s, base, offset, n - 1), BeginPass(PassOf(base, offset, n)));
    var b, s2 := Next(a, s1, StoreCells(base.Keys - LateKeys(base)));
    var s3;
    steps', s3 := Next(b, s2, Tick);
  }

  lemma LateStep(s: State, base: World, offset: nat, n: nat)
    requires n >= 1
    ensures Do(Ticked(s, base, offset, n), StoreCells(LateKeys(base))) ==
            Within(s, History(base, offset, n), Storing({}, true), StampsAt(n - 1), All(base, Val(offset, n)), n - 1,
                   2 * n - 1)
  {
    HistoryGrows(base, offset, n);
    EarlyOverlay(base, Val(offset, n - 1), Val(offset, n));
    assert LateKeys(base) - LateKeys(base) == {};
  }

  lemma BumpStep(s: State, base: World, offset: nat, n: nat)
    requires n >= 1
    ensures Do(Within(s, History(base, offset, n), Storing({}, true), StampsAt(n - 1), All(base, Val(offset, n)), n - 1,
                      2 * n - 1),
               BumpCounter) ==
            Within(s, History(base, offset, n), Bumped, StampsAt(n - 1), All(base, Val(offset, n)), n, 2 * n - 1)
  {
  }

  lemma StampStep(s: State, base: World, offset: nat, n: nat)
    requires n >= 1
    ensures Do(Within(s, History(base, offset, n), Bumped, StampsAt(n - 1), All(base, Val(offset, n)), n, 2 * n - 1),
               StoreStamps) ==
            Unticked(s, base, offset, n)
  {
    HistoryGrows(base, offset, n);
    assert Restamp(StampsAt(n - 1), map[KEY := Content(n, 0)], n) == StampsAt(n);
  }

  lemma SecondHalf(steps: seq<Step>, s: State, base: World, offset: nat, n: nat) returns (steps': seq<Step>)
    requires n >= 1 && Reaches(steps, Ticked(s, base, offset, n))
    ensures Reaches(steps', Unticked(s, base, offset, n))
  {
    LateStep(s, base, offset, n);
    BumpStep(s, base, offset, n);
    StampStep(s, base, offset, n);
    var a, s1 := Next(steps, Ticked(s, base, offset, n), StoreCells(LateKeys(base)));
    var b, s2 := Next(a, s1, BumpCounter);
    var s3;
    steps', s3 := Next(b, s2, StoreStamps);
  }

  lemma SecondTick(steps: seq<Step>, s: State, base: World, offset: nat, n: nat) returns (steps': seq<Step>)
    requires n >= 1 && Reaches(steps, Unticked(s, base, offset, n))
    ensures Reaches(steps', Resting(s, base, offset, n))
  {
    var s1;
    steps', s1 := Next(steps, Unticked(s, base, offset, n), EndTick);
    assert s1 == Resting(s, base, offset, n);
  }

  lemma OnePass(steps: seq<Step>, s: State, base: World, offset: nat, n: nat) returns (steps': seq<Step>)
    requires n >= 1 && Reaches(steps, Resting(s, base, offset, n - 1))
    ensures Reaches(steps', Resting(s, base, offset, n))
  {
    var a := FirstHalf(steps, s, base, offset, n);
    var b := SecondHalf(a, s, base, offset, n);
    steps' := SecondTick(b, s, base, offset, n);
  }

  predicate Rebuild(n: nat) {
    true
  }

  /** `steps` leads to the end of rebuild `n`. Only a proof that names `Rebuild(n)` looks inside. */
  ghost predicate Rests(steps: seq<Step>, s: State, base: World, offset: nat, n: nat) {
    forall i: nat {:trigger Rebuild(i)} :: i == n ==> Reaches(steps, Resting(s, base, offset, i))
  }

  lemma NextPass(steps: seq<Step>, s: State, base: World, offset: nat, n: nat) returns (steps': seq<Step>)
    requires n >= 1 && Rests(steps, s, base, offset, n - 1)
    ensures Rests(steps', s, base, offset, n)
  {
    assert Rebuild(n - 1);
    steps' := OnePass(steps, s, base, offset, n);
  }

  lemma {:induction false} NextPasses(steps: seq<Step>, s: State, base: World, offset: nat, m: nat, n: nat)
    returns (steps': seq<Step>)
    requires m <= n && Rests(steps, s, base, offset, m)
    ensures Rests(steps', s, base, offset, n)
    decreases n - m
  {
    if m == n {
      steps' := steps;
    } else {
      var a := NextPasses(steps, s, base, offset, m, n - 1);
      steps' := NextPass(a, s, base, offset, n);
    }
  }

  /** Whole rebuilds, one after the other. */
  lemma Passes(steps: seq<Step>, s: State, base: World, offset: nat, m: nat, n: nat) returns (steps': seq<Step>)
    requires m <= n && Reaches(steps, Resting(s, base, offset, m))
    ensures Reaches(steps', Resting(s, base, offset, n))
  {
    steps' := NextPasses(steps, s, base, offset, m, n);
    assert Rebuild(n);
  }

  /** No rebuild from the `n`-th on stored the value of an earlier one, nor one of another controller. */
  lemma NotFresh(base: World, offset: nat, m: nat, n: nat, c: Cell, v: nat)
    requires c in base && 1 <= n <= m && v < offset + n
    ensures !FreshAt(History(base, offset, m), c, v, n)
  {
    forall j | n <= j <= m ensures CellAt(History(base, offset, m), j, c) != Some(v) {
    }
  }

  // ---- Lookups ----

  lemma LookupAtRoot(s: State, ts: TierStep)
    requires IsLookup(ts)
    ensures Do(s, AtRoot(ts)) == s.(root := LookupDo(s.root, ts))
  {
  }

  lemma LookupAtRelay(s: State, r: string, ts: TierStep)
    requires IsLookup(ts) && r in s.relays
    ensures Do(s, AtRelay(r, ts)) == WithRelay(s, r, s.relays[r].(tier := LookupDo(s.relays[r].tier, ts)))
  {
  }

  /** A shared stream with nothing in flight. */
  function Shared(session: nat, call: Call, pending: Option<View>, baseline: Option<World>): Stream {
    Stream(R.SharedPool, session, call, pending, baseline)
  }

  function ViewAt(t: Tier, world: World): View {
    View(R.SharedPool, "", t.counter, world)
  }

  lemma ReadAll(t: Tier, n: string, session: nat, g: nat, captured: nat, baseline: Option<World>)
    requires n in t.streams && t.streams[n] == Shared(session, Building(g, captured, map[]), None, baseline)
    requires FullFor(R.SharedPool, t.cells)
    ensures LookupDo(t, Read(n, t.cells.Keys)) ==
            WithStream(t, n, Shared(session, Building(g, captured, t.cells), None, baseline))
  {
    var loaded := map c | c in t.cells && c in t.cells.Keys && Covers(R.SharedPool, c) :: t.cells[c];
    assert loaded == t.cells;
    assert map[] + loaded == t.cells;
  }

  lemma StoreBuilt(t: Tier, n: string, session: nat, g: nat, captured: nat, got: World, baseline: Option<World>)
    requires n in t.streams && t.streams[n] == Shared(session, Building(g, captured, got), None, baseline)
    requires FullFor(R.SharedPool, got) && baseline != Some(got)
    requires R.SharedPool in t.slots ==> t.slots[R.SharedPool].tag < g
    ensures var v := View(R.SharedPool, "", captured, got);
            LookupDo(t, Store(n, "", false)) ==
            WithStream(t.(slots := t.slots[R.SharedPool := Slot(g, v)]), n, Shared(session, NoCall, Some(v), baseline))
  {
  }
}
