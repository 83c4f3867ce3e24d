/**
 The register-check-park protocol of `get` against any number of producers. `Notify` is the
 assumed automaton: one stored permit and at most one registered waiter.
 */
module WakeProtocol {
  import opened Options
  import opened Workqueue
  import WorkqueueProofs

  /** The consumer's `Notified` future: unregistered, waiting, woken, or holding a taken permit. */
  datatype Waiter = NoWaiter | Waiting | WokenByOne | WokenByAll | TookPermit

  datatype Pc = Outside | Registered | Parked(deadline: Option<nat>)

  /**
   `owedOne` counts producers between their locked update and their `notify_one`; `owedAll`
   counts shutdowns that have set the flag and still owe both of their notifications.
   */
  datatype Sys<K> = Sys(q: Inner<K>, now: nat, pc: Pc, waiter: Waiter, permit: bool, owedOne: nat, owedAll: nat)

  datatype Step<K> =
    | Register
    | Check
    | WakeUp
    | TimerFires
    | Cancel
    | Producer(op: Op<K>)
    | NotifyOne
    | NotifyWaiters
    | Tick(now: nat)

  function Start<K>(): Sys<K> {
    Sys(Empty(), 0, Outside, NoWaiter, false, 0, 0)
  }

  /** Dropping a waiter that `notify_one` woke passes the notification on as a permit. */
  function DropWaiter<K>(s: Sys<K>): Sys<K> {
    s.(waiter := NoWaiter, permit := s.permit || s.waiter.WokenByOne?)
  }

  /** Notifications a producer owes after its locked update. */
  function Owes<K(==)>(q: Inner<K>, op: Op<K>): nat {
    match op
    case Add(k) => if Wakes(q, k) then 1 else 0
    case AddAfter(k, delay, _) => if (if delay == 0 then Wakes(q, k) else !q.shutdown) then 1 else 0
    case DoneOp(k) => if FinishWakes(q, k) then 1 else 0
    case _ => 0
  }

  function Do<K>(s: Sys<K>, step: Step<K>): Sys<K> {
    match step
    case Register =>
      if !s.pc.Outside? then s
      else if s.permit then s.(pc := Registered, permit := false, waiter := TookPermit)
      else s.(pc := Registered, waiter := Waiting)
    case Check =>
      if !s.pc.Registered? then s
      else
        var t := s.(q := Take(s.q, s.now));
        (match TakeOutcome(s.q, s.now)
         case Park(deadline) => t.(pc := Parked(deadline))
         case _ => DropWaiter(t).(pc := Outside))
    case WakeUp =>
      if s.pc.Parked? && (s.waiter.WokenByOne? || s.waiter.WokenByAll? || s.waiter.TookPermit?)
      then s.(pc := Outside, waiter := NoWaiter)
      else s
    case TimerFires =>
      if s.pc.Parked? && s.pc.deadline.Some? && s.pc.deadline.value <= s.now
      then DropWaiter(s).(pc := Outside)
      else s
    case Cancel => if s.pc.Parked? then DropWaiter(s).(pc := Outside) else s
    case Producer(op) =>
      if op.TakeOp? then s
      else if op.AddAfter? && op.now != s.now then s
      else s.(q := Workqueue.Step(s.q, op), owedOne := s.owedOne + Owes(s.q, op),
              owedAll := s.owedAll + if op.Shutdown? then 1 else 0)
    case NotifyOne =>
      if s.owedOne == 0 then s
      else if s.waiter.Waiting? then s.(owedOne := s.owedOne - 1, waiter := WokenByOne)
      else s.(owedOne := s.owedOne - 1, permit := true)
    case NotifyWaiters =>
      if s.owedAll == 0 then s
      else s.(owedAll := s.owedAll - 1, owedOne := s.owedOne + 1,
              waiter := if s.waiter.Waiting? then WokenByAll else s.waiter)
    case Tick(now) => s.(now := Max(s.now, now))
  }

  function RunFrom<K>(s: Sys<K>, steps: seq<Step<K>>): Sys<K> {
    if steps == [] then s else Do(RunFrom(s, steps[..|steps| - 1]), steps[|steps| - 1])
  }

  /** Nothing for the consumer to do before `deadline`. */
  ghost predicate Quiescent<K>(q: Inner<K>, deadline: Option<nat>) {
    q.ready == [] && !q.shutdown && deadline == NextDeadline(q)
  }

  ghost predicate SysInv<K(!new)>(s: Sys<K>) {
    && Inv(s.q)
    && (s.pc.Outside? <==> s.waiter.NoWaiter?)
    && (s.waiter.Waiting? ==> !s.permit)
    && (s.pc.Parked? && s.waiter.Waiting? && s.owedOne == 0 && s.owedAll == 0 ==> Quiescent(s.q, s.pc.deadline))
  }

  lemma CheckKeepsInv<K(!new)>(s: Sys<K>)
    requires SysInv(s) && s.pc.Registered?
    ensures SysInv(Do(s, Check))
  {
    WorkqueueProofs.TakeKeepsInv(s.q, s.now);
  }

  lemma ProducerKeepsInv<K(!new)>(s: Sys<K>, op: Op<K>)
    requires SysInv(s)
    ensures SysInv(Do(s, Producer(op)))
  {
    WorkqueueProofs.StepKeepsInv(s.q, op);
  }

  lemma StepKeepsInv<K(!new)>(s: Sys<K>, step: Step<K>)
    requires SysInv(s)
    ensures SysInv(Do(s, step))
  {
    match step
    case Check => if s.pc.Registered? { CheckKeepsInv(s); }
    case Producer(op) => ProducerKeepsInv(s, op);
    case _ =>
  }

  lemma {:induction false} RunKeepsInv<K(!new)>(steps: seq<Step<K>>)
    ensures SysInv(RunFrom(Start<K>(), steps))
  {
    if steps != [] {
      RunKeepsInv(steps[..|steps| - 1]);
      StepKeepsInv(RunFrom(Start(), steps[..|steps| - 1]), steps[|steps| - 1]);
    }
  }

  /**
   No lost wake-up and no oversleep. Whenever the consumer is parked with no notification on
   its way, nothing is ready, the queue is open, and the parked deadline is the least of all
   delayed deadlines.
   */
  lemma ParkedMeansNothingToDo<K(!new)>(steps: seq<Step<K>>)
    ensures var s := RunFrom(Start<K>(), steps);
            s.pc.Parked? && s.waiter.Waiting? && s.owedOne == 0 && s.owedAll == 0 ==>
              && s.q.ready == [] && s.q.queued == {} && !s.q.shutdown
              && (s.pc.deadline.None? <==> s.q.delayed == [])
              && (forall d :: d in s.q.delayed ==> s.pc.deadline.Some? && s.pc.deadline.value <= d.readyAt)
              && (s.pc.deadline.Some? ==> exists d :: d in s.q.delayed && d.readyAt == s.pc.deadline.value)
  {
    RunKeepsInv(steps);
    var s := RunFrom(Start(), steps);
    if s.pc.Parked? && s.waiter.Waiting? && s.owedOne == 0 && s.owedAll == 0 {
      assert Quiescent(s.q, s.pc.deadline);
      assert s.q.queued == {} by {
        assert forall k :: k in s.q.queued ==> k in s.q.ready;
      }
      if s.q.delayed != [] {
        assert s.q.delayed[0] in s.q.delayed;
      }
    }
  }

  // ---- Work that is available is picked up within four internal steps ----

  predicate Internal<K>(step: Step<K>) {
    !step.Producer? && !step.Tick? && !step.Cancel?
  }

  /** A pass of `get` starting now would return. */
  predicate Available<K>(s: Sys<K>) {
    !TakeOutcome(s.q, s.now).Park?
  }

  /** `steps` are internal and end with the check that returns. */
  ghost predicate Returns<K(!new)>(s: Sys<K>, steps: seq<Step<K>>) {
    && 0 < |steps|
    && (forall i :: 0 <= i < |steps| ==> Internal(steps[i]))
    && steps[|steps| - 1] == Check
    && RunFrom(s, steps[..|steps| - 1]).pc.Registered?
    && TakeOutcome(RunFrom(s, steps[..|steps| - 1]).q, RunFrom(s, steps[..|steps| - 1]).now) == TakeOutcome(s.q, s.now)
  }

  lemma IdleReturns<K(!new)>(s: Sys<K>)
    requires s.pc.Outside? && Available(s)
    ensures Returns(s, [Register, Check])
  {
    var steps: seq<Step<K>>, first: seq<Step<K>> := [Register, Check], [Register];
    assert steps[..1] == first && first[..0] == [];
  }

  lemma {:induction false} After<K(!new)>(s: Sys<K>, x: Step<K>, steps: seq<Step<K>>)
    requires Internal(x) && Do(s, x).q == s.q && Do(s, x).now == s.now && Returns(Do(s, x), steps)
    ensures Returns(s, [x] + steps)
  {
    var all := [x] + steps;
    RunCons(s, x, steps[..|steps| - 1]);
    assert all[..|all| - 1] == [x] + steps[..|steps| - 1];
  }

  lemma {:induction false} RunCons<K(!new)>(s: Sys<K>, x: Step<K>, steps: seq<Step<K>>)
    ensures RunFrom(s, [x] + steps) == RunFrom(Do(s, x), steps)
  {
    var all := [x] + steps;
    if steps == [] {
      assert all == [x] && [x][..0] == [];
    } else {
      RunCons(s, x, steps[..|steps| - 1]);
      assert all[..|all| - 1] == [x] + steps[..|steps| - 1];
    }
  }

  lemma ParkedReturns<K(!new)>(s: Sys<K>) returns (steps: seq<Step<K>>)
    requires SysInv(s) && s.pc.Parked? && Available(s)
    ensures Returns(s, steps) && |steps| <= 4
  {
    if !s.waiter.Waiting? {
      IdleReturns(Do(s, WakeUp));
      After(s, WakeUp, [Register, Check]);
      return [WakeUp] + [Register, Check];
    }
    if s.owedOne > 0 || s.owedAll > 0 {
      var notify := if s.owedOne > 0 then NotifyOne else NotifyWaiters;
      var s1 := Do(s, notify);
      IdleReturns(Do(s1, WakeUp));
      After(s1, WakeUp, [Register, Check]);
      After(s, notify, [WakeUp] + [Register, Check]);
      return [notify] + ([WakeUp] + [Register, Check]);
    }
    assert DrainDue(s.q, s.now) != s.q;
    IdleReturns(Do(s, TimerFires));
    After(s, TimerFires, [Register, Check]);
    return [TimerFires] + [Register, Check];
  }

  /**
   From every reachable state in which a pass of `get` could return, at most four steps of the
   consumer and of notifications already owed, with no further producer and no passage of time,
   make it return. No wake-up is needed that is not already on its way.
   */
  lemma AvailableWorkIsPickedUp<K(!new)>(steps: seq<Step<K>>) returns (more: seq<Step<K>>)
    requires Available(RunFrom(Start<K>(), steps))
    ensures Returns(RunFrom(Start<K>(), steps), more) && |more| <= 4
  {
    RunKeepsInv(steps);
    var s := RunFrom(Start<K>(), steps);
    match s.pc
    case Outside =>
      IdleReturns(s);
      more := [Register, Check];
    case Registered =>
      more := [Check];
      assert more[..0] == [];
    case Parked(_) =>
      more := ParkedReturns(s);
  }
}
