/** What the work queue guarantees over every run of its locked regions. */
module WorkqueueProofs {
  import opened Options
  import opened Workqueue

  // ---- The invariant holds in every reachable state ----

  lemma EnqueueKeepsInv<K(!new)>(q: Inner<K>, k: K)
    requires Inv(q)
    ensures Inv(Enqueue(q, k))
  {
  }

  lemma {:induction false} InsertKeepsOrder<K(!new)>(s: seq<Delayed<K>>, d: Delayed<K>)
    requires InPopOrder(s) && forall x :: x in s ==> x.seqNo < d.seqNo
    ensures InPopOrder(InsertDelayed(s, d))
    ensures forall x :: x in InsertDelayed(s, d) <==> x in s || x == d
  {
    if s != [] && !Before(d, s[0]) {
      InsertKeepsOrder(s[1..], d);
      assert Before(s[0], d);
      assert s == [s[0]] + s[1..];
      assert forall x :: x in InsertDelayed(s[1..], d) ==> Before(s[0], x);
    }
  }

  lemma {:induction false} DrainKeepsInv<K(!new)>(q: Inner<K>, now: nat)
    requires Inv(q)
    ensures Inv(DrainDue(q, now))
    decreases |q.delayed|
  {
    if q.delayed != [] && q.delayed[0].readyAt <= now {
      var popped := q.(delayed := q.delayed[1..]);
      EnqueueKeepsInv(popped, q.delayed[0].key);
      DrainKeepsInv(Enqueue(popped, q.delayed[0].key), now);
    }
  }

  lemma TakeKeepsInv<K(!new)>(q: Inner<K>, now: nat)
    requires Inv(q)
    ensures Inv(Take(q, now))
  {
    DrainKeepsInv(q, now);
    var d := DrainDue(q, now);
    if d.ready != [] {
      var t := Take(q, now);
      forall k ensures k in t.ready <==> k in t.queued {
        assert d.ready == [d.ready[0]] + d.ready[1..];
        assert k in d.ready <==> k in d.queued;
      }
    }
  }

  lemma StepKeepsInv<K(!new)>(q: Inner<K>, op: Op<K>)
    requires Inv(q)
    ensures Inv(Step(q, op))
  {
    match op
    case AddAfter(k, delay, now) =>
      if delay != 0 && !q.shutdown {
        InsertKeepsOrder(q.delayed, Delayed(now + delay, q.nextSeq, k));
      }
    case TakeOp(now) => TakeKeepsInv(q, now);
    case _ =>
  }

  /**
   In every reachable state the ready queue is duplicate-free and mirrors `queued`, queued and
   in-flight keys are disjoint, and only in-flight keys are dirty.
   */
  lemma {:induction false} RunKeepsInv<K(!new)>(ops: seq<Op<K>>)
    ensures Inv(Run(ops))
  {
    if ops != [] {
      RunKeepsInv(ops[..|ops| - 1]);
      StepKeepsInv(Run(ops[..|ops| - 1]), ops[|ops| - 1]);
    }
  }

  // ---- Draining ----

  /** The delayed entries due at `now`, in hand-out order, and the rest. */
  function Due<K>(s: seq<Delayed<K>>, now: nat): seq<Delayed<K>> {
    if s == [] then [] else (if s[0].readyAt <= now then [s[0]] else []) + Due(s[1..], now)
  }

  function Later<K>(s: seq<Delayed<K>>, now: nat): seq<Delayed<K>> {
    if s == [] then [] else (if s[0].readyAt > now then [s[0]] else []) + Later(s[1..], now)
  }

  function EnqueueAll<K>(q: Inner<K>, ds: seq<Delayed<K>>): Inner<K>
    decreases |ds|
  {
    if ds == [] then q else EnqueueAll(Enqueue(q, ds[0].key), ds[1..])
  }

  lemma {:induction false} NothingDue<K(!new)>(s: seq<Delayed<K>>, now: nat)
    requires InPopOrder(s) && (s == [] || s[0].readyAt > now)
    ensures Due(s, now) == [] && Later(s, now) == s
  {
    if s != [] {
      assert s[1..] == [] || Before(s[0], s[1..][0]);
      NothingDue(s[1..], now);
      assert s == [s[0]] + s[1..];
    }
  }

  /**
   `drain_due` enqueues exactly the entries whose deadline has passed, in deadline then
   insertion order, and leaves exactly the entries that lie ahead.
   */
  lemma {:induction false} DrainsExactlyTheDue<K(!new)>(q: Inner<K>, now: nat)
    requires InPopOrder(q.delayed)
    ensures DrainDue(q, now) == EnqueueAll(q.(delayed := Later(q.delayed, now)), Due(q.delayed, now))
    ensures DrainDue(q, now).delayed == Later(q.delayed, now)
    decreases |q.delayed|
  {
    if q.delayed == [] || q.delayed[0].readyAt > now {
      NothingDue(q.delayed, now);
      assert q.(delayed := Later(q.delayed, now)) == q;
    } else {
      var first, rest := q.delayed[0], q.delayed[1..];
      DrainsExactlyTheDue(Enqueue(q.(delayed := rest), first.key), now);
      EnqueueKeepsDelayed(q, first.key, rest, Later(rest, now));
      DueHead(q.delayed, now);
      EnqueueAllHead(q.(delayed := Later(rest, now)), first, Due(rest, now));
    }
  }

  lemma EnqueueKeepsDelayed<K(!new)>(q: Inner<K>, k: K, s: seq<Delayed<K>>, s': seq<Delayed<K>>)
    ensures Enqueue(q.(delayed := s), k).(delayed := s') == Enqueue(q.(delayed := s'), k)
    ensures Enqueue(q.(delayed := s), k).delayed == s
  {
  }

  lemma DueHead<K(!new)>(s: seq<Delayed<K>>, now: nat)
    requires s != [] && s[0].readyAt <= now
    ensures Due(s, now) == [s[0]] + Due(s[1..], now) && Later(s, now) == Later(s[1..], now)
  {
    assert [] + Later(s[1..], now) == Later(s[1..], now);
  }

  lemma EnqueueAllHead<K(!new)>(q: Inner<K>, d: Delayed<K>, ds: seq<Delayed<K>>)
    ensures EnqueueAll(q, [d] + ds) == EnqueueAll(Enqueue(q, d.key), ds)
  {
    assert ([d] + ds)[1..] == ds;
  }

  lemma {:induction false} DueMembers<K(!new)>(s: seq<Delayed<K>>, now: nat)
    ensures forall d :: d in Due(s, now) <==> d in s && d.readyAt <= now
    ensures forall d :: d in Later(s, now) <==> d in s && d.readyAt > now
  {
    if s != [] {
      DueMembers(s[1..], now);
      assert s == [s[0]] + s[1..];
    }
  }

  // ---- Per-key bookkeeping over a run ----

  /** The key a step hands out, if any. */
  function HandedBy<K>(q: Inner<K>, op: Op<K>): Option<K> {
    if op.TakeOp? && TakeOutcome(q, op.now).Handed? then Some(TakeOutcome(q, op.now).key) else None
  }

  function CountKey<K(==)>(ds: seq<Delayed<K>>, k: K): nat {
    if ds == [] then 0 else (if ds[0].key == k then 1 else 0) + CountKey(ds[1..], k)
  }

  /** Enqueues of `k` a step performs while the queue is open. */
  function EnqueuesBy<K(==)>(q: Inner<K>, op: Op<K>, k: K): nat {
    if q.shutdown then 0
    else match op
      case Add(x) => if x == k then 1 else 0
      case AddAfter(x, delay, _) => if x == k && delay == 0 then 1 else 0
      case TakeOp(now) => CountKey(Due(q.delayed, now), k)
      case _ => 0
  }

  /** Whether an enqueue of `k` takes effect: it is neither refused nor de-duplicated. */
  predicate Accepts<K(==)>(q: Inner<K>, k: K) {
    !q.shutdown && if k in q.processing then k !in q.dirty else k !in q.queued
  }

  /** Of the enqueues of `k` in one step at most the first is accepted; any other finds it held. */
  function AcceptedBy<K(==)>(q: Inner<K>, op: Op<K>, k: K): nat {
    if EnqueuesBy(q, op, k) >= 1 && Accepts(q, k) then 1 else 0
  }

  function HandedCount<K(==)>(ops: seq<Op<K>>, k: K): nat {
    if ops == [] then 0
    else HandedCount(ops[..|ops| - 1], k)
         + if HandedBy(Run(ops[..|ops| - 1]), ops[|ops| - 1]) == Some(k) then 1 else 0
  }

  function AcceptedCount<K(==)>(ops: seq<Op<K>>, k: K): nat {
    if ops == [] then 0
    else AcceptedCount(ops[..|ops| - 1], k) + AcceptedBy(Run(ops[..|ops| - 1]), ops[|ops| - 1], k)
  }

  function Held<K(==)>(q: Inner<K>, k: K): nat {
    (if k in q.queued then 1 else 0) + (if k in q.dirty then 1 else 0)
  }

  lemma {:induction false} EnqueueAllHolds<K(!new)>(q: Inner<K>, ds: seq<Delayed<K>>, k: K)
    requires Inv(q)
    ensures Held(EnqueueAll(q, ds), k) == Held(q, k) + (if CountKey(ds, k) >= 1 && Accepts(q, k) then 1 else 0)
    ensures EnqueueAll(q, ds).shutdown == q.shutdown && EnqueueAll(q, ds).processing == q.processing
    decreases |ds|
  {
    if ds != [] {
      EnqueueKeepsInv(q, ds[0].key);
      EnqueueAllHolds(Enqueue(q, ds[0].key), ds[1..], k);
    }
  }

  lemma DrainHolds<K(!new)>(q: Inner<K>, now: nat, k: K)
    requires Inv(q)
    ensures Held(DrainDue(q, now), k) ==
            Held(q, k) + (if CountKey(Due(q.delayed, now), k) >= 1 && Accepts(q, k) then 1 else 0)
    ensures DrainDue(q, now).shutdown == q.shutdown && DrainDue(q, now).processing == q.processing
  {
    DrainsExactlyTheDue(q, now);
    DueMembers(q.delayed, now);
    var bare := q.(delayed := Later(q.delayed, now));
    assert InPopOrder(bare.delayed) by {
      LaterOrdered(q.delayed, now);
    }
    EnqueueAllHolds(bare, Due(q.delayed, now), k);
  }

  lemma {:induction false} LaterOrdered<K(!new)>(s: seq<Delayed<K>>, now: nat)
    requires InPopOrder(s)
    ensures InPopOrder(Later(s, now))
  {
    if s != [] {
      LaterOrdered(s[1..], now);
      DueMembers(s[1..], now);
    }
  }

  /** One step hands out, holds and accepts in balance; only a closed queue drops work. */
  lemma StepConserves<K(!new)>(q: Inner<K>, op: Op<K>, k: K)
    requires Inv(q)
    ensures var out := if HandedBy(q, op) == Some(k) then 1 else 0;
            && out + Held(Step(q, op), k) <= Held(q, k) + AcceptedBy(q, op, k)
            && (!q.shutdown ==> out + Held(Step(q, op), k) == Held(q, k) + AcceptedBy(q, op, k))
  {
    if op.TakeOp? {
      DrainHolds(q, op.now, k);
      DrainKeepsInv(q, op.now);
    }
  }

  /** Hand-outs of a key plus the work still held for it are its accepted enqueues, until shutdown. */
  lemma {:induction false} Conservation<K(!new)>(ops: seq<Op<K>>, k: K)
    ensures HandedCount(ops, k) + Held(Run(ops), k) <= AcceptedCount(ops, k)
    ensures !Run(ops).shutdown ==> HandedCount(ops, k) + Held(Run(ops), k) == AcceptedCount(ops, k)
  {
    if ops != [] {
      RunKeepsInv(ops[..|ops| - 1]);
      ShutdownIsFinal(Run(ops[..|ops| - 1]), ops[|ops| - 1]);
      Conservation(ops[..|ops| - 1], k);
      StepConserves(Run(ops[..|ops| - 1]), ops[|ops| - 1], k);
    }
  }

  // ---- Between two hand-outs there is a `done` ----

  lemma HandedIsProcessing<K(!new)>(q: Inner<K>, op: Op<K>, k: K)
    requires Inv(q) && HandedBy(q, op) == Some(k)
    ensures k !in q.processing && k in Step(q, op).processing
  {
    DrainKeepsInv(q, op.now);
    DrainHolds(q, op.now, k);
    var d := DrainDue(q, op.now);
    assert d.ready[0] in d.ready;
  }

  lemma StaysProcessing<K(!new)>(q: Inner<K>, op: Op<K>, k: K)
    requires Inv(q) && k in q.processing && op != DoneOp(k)
    ensures k in Step(q, op).processing
  {
    if op.TakeOp? {
      DrainHolds(q, op.now, k);
    }
  }

  lemma RunPrefix<K(!new)>(ops: seq<Op<K>>, j: int)
    requires 0 < j <= |ops|
    ensures Run(ops[..j]) == Step(Run(ops[..j - 1]), ops[j - 1])
  {
    assert ops[..j][..j - 1] == ops[..j - 1];
  }

  lemma {:induction false} ProcessingUntilDone<K(!new)>(ops: seq<Op<K>>, i: int, j: int, k: K)
    requires 0 <= i <= j <= |ops| && k in Run(ops[..i]).processing
    requires forall m :: i <= m < j ==> ops[m] != DoneOp(k)
    ensures k in Run(ops[..j]).processing
    decreases j - i
  {
    if i < j {
      ProcessingUntilDone(ops, i, j - 1, k);
      RunPrefix(ops, j);
      RunKeepsInv(ops[..j - 1]);
      StaysProcessing(Run(ops[..j - 1]), ops[j - 1], k);
    }
  }

  /** No handler runs twice at once: two hand-outs of a key have a `done` of it between them. */
  lemma DoneBetweenHandouts<K(!new)>(ops: seq<Op<K>>, i: int, j: int, k: K)
    requires 0 <= i < j < |ops|
    requires HandedBy(Run(ops[..i]), ops[i]) == Some(k) && HandedBy(Run(ops[..j]), ops[j]) == Some(k)
    ensures exists m :: i < m < j && ops[m] == DoneOp(k)
  {
    RunKeepsInv(ops[..i]);
    RunKeepsInv(ops[..j]);
    HandedIsProcessing(Run(ops[..i]), ops[i], k);
    HandedIsProcessing(Run(ops[..j]), ops[j], k);
    RunPrefix(ops, i + 1);
    if forall m :: i < m < j ==> ops[m] != DoneOp(k) {
      ProcessingUntilDone(ops, i + 1, j, k);
    }
  }

  // ---- Accepted work is not lost before shutdown ----

  lemma HeldUntilHanded<K(!new)>(q: Inner<K>, op: Op<K>, k: K)
    requires Inv(q) && !Step(q, op).shutdown && HandedBy(q, op) != Some(k)
    requires Held(q, k) >= 1 || EnqueuesBy(q, op, k) >= 1
    ensures Held(Step(q, op), k) >= 1
  {
    if op.TakeOp? {
      DrainHolds(q, op.now, k);
      DrainKeepsInv(q, op.now);
    }
  }

  lemma ShutdownIsFinal<K(!new)>(q: Inner<K>, op: Op<K>)
    requires Inv(q)
    ensures q.shutdown ==> Step(q, op).shutdown
  {
    if op.TakeOp? {
      DrainShutdown(q, op.now);
    }
  }

  lemma {:induction false} DrainShutdown<K(!new)>(q: Inner<K>, now: nat)
    ensures DrainDue(q, now).shutdown == q.shutdown
    decreases |q.delayed|
  {
    if q.delayed != [] && q.delayed[0].readyAt <= now {
      DrainShutdown(Enqueue(q.(delayed := q.delayed[1..]), q.delayed[0].key), now);
    }
  }

  /** Step `m` of the run hands out `k`. */
  predicate HandedAt<K(==)>(ops: seq<Op<K>>, m: int, k: K)
    requires 0 <= m < |ops|
  {
    HandedBy(Run(ops[..m]), ops[m]) == Some(k)
  }

  /**
   Before shutdown, a key enqueued at step `i` and not handed out since is still queued, or
   dirty behind the handler that is running it.
   */
  lemma {:induction false} NothingLost<K(!new)>(ops: seq<Op<K>>, i: int, j: int, k: K)
    requires 0 <= i < j <= |ops| && EnqueuesBy(Run(ops[..i]), ops[i], k) >= 1
    requires forall m :: i <= m < j ==> !HandedAt(ops, m, k)
    requires !Run(ops[..j]).shutdown
    ensures k in Run(ops[..j]).queued || k in Run(ops[..j]).dirty
    decreases j - i
  {
    StillHeld(ops, j, k);
    if i < j - 1 {
      NothingLost(ops, i, j - 1, k);
    }
  }

  lemma StillHeld<K(!new)>(ops: seq<Op<K>>, j: int, k: K)
    requires 0 < j <= |ops| && !Run(ops[..j]).shutdown
    requires !HandedAt(ops, j - 1, k)
    ensures !Run(ops[..j - 1]).shutdown
    ensures var q := Run(ops[..j - 1]);
            k in q.queued || k in q.dirty || EnqueuesBy(q, ops[j - 1], k) >= 1 ==>
              k in Run(ops[..j]).queued || k in Run(ops[..j]).dirty
  {
    var q, op := Run(ops[..j - 1]), ops[j - 1];
    RunPrefix(ops, j);
    RunKeepsInv(ops[..j - 1]);
    ShutdownIsFinal(q, op);
    if Held(q, k) >= 1 || EnqueuesBy(q, op, k) >= 1 {
      HeldUntilHanded(q, op, k);
    }
  }

  // ---- No delayed key is handed out early ----

  /** Whether a step asks for `k` at once and is accepted. */
  predicate Immediate<K(==)>(q: Inner<K>, op: Op<K>, k: K) {
    Accepts(q, k) && (op == Add(k) || (op.AddAfter? && op.key == k && op.delay == 0))
  }

  /** Whether a step, accepted into the delays, asks for `k` after a delay that has elapsed by `t`. */
  predicate Elapsed<K(==)>(q: Inner<K>, op: Op<K>, k: K, t: nat) {
    !q.shutdown && op.AddAfter? && op.key == k && op.delay > 0 && op.now + op.delay <= t
  }

  /** Immediate adds of `k` that were accepted. */
  function AcceptedAdds<K(==)>(ops: seq<Op<K>>, k: K): nat {
    if ops == [] then 0
    else
      AcceptedAdds(ops[..|ops| - 1], k)
      + (if Immediate(Run(ops[..|ops| - 1]), ops[|ops| - 1], k) then 1 else 0)
  }

  /** Passes of `get` in which an enqueue of `k` out of the delays was accepted. */
  function AcceptedDrains<K(==)>(ops: seq<Op<K>>, k: K): nat {
    if ops == [] then 0
    else
      AcceptedDrains(ops[..|ops| - 1], k)
      + (if ops[|ops| - 1].TakeOp? then AcceptedBy(Run(ops[..|ops| - 1]), ops[|ops| - 1], k) else 0)
  }

  /** Delayed adds of `k` whose whole delay has elapsed by `t`. */
  function ElapsedDelays<K(==)>(ops: seq<Op<K>>, k: K, t: nat): nat {
    if ops == [] then 0
    else
      ElapsedDelays(ops[..|ops| - 1], k, t)
      + (if Elapsed(Run(ops[..|ops| - 1]), ops[|ops| - 1], k, t) then 1 else 0)
  }

  ghost predicate ReadBy<K>(ops: seq<Op<K>>, t: nat) {
    forall i :: 0 <= i < |ops| && ops[i].TakeOp? ==> ops[i].now <= t
  }

  lemma {:induction false} InsertDueCount<K(!new)>(s: seq<Delayed<K>>, d: Delayed<K>, k: K, t: nat)
    ensures CountKey(Due(InsertDelayed(s, d), t), k) ==
            CountKey(Due(s, t), k) + (if d.key == k && d.readyAt <= t then 1 else 0)
  {
    if s == [] || Before(d, s[0]) {
      assert ([d] + s)[1..] == s;
      CountHead(d, s, k, t);
    } else {
      var rest := InsertDelayed(s[1..], d);
      assert ([s[0]] + rest)[1..] == rest;
      InsertDueCount(s[1..], d, k, t);
      CountHead(s[0], rest, k, t);
      CountHead(s[0], s[1..], k, t);
      assert s == [s[0]] + s[1..];
    }
  }

  lemma CountHead<K(!new)>(d: Delayed<K>, s: seq<Delayed<K>>, k: K, t: nat)
    ensures CountKey(Due([d] + s, t), k) == CountKey(Due(s, t), k) + (if d.key == k && d.readyAt <= t then 1 else 0)
  {
    assert ([d] + s)[1..] == s;
    assert d.readyAt <= t ==> ([d] + Due(s, t))[1..] == Due(s, t);
    assert [] + Due(s, t) == Due(s, t);
  }

  /** What is due by `t` is what is due by an earlier `now`, plus what of the rest is due by `t`. */
  lemma {:induction false} DueSplits<K(!new)>(s: seq<Delayed<K>>, k: K, now: nat, t: nat)
    requires now <= t
    ensures CountKey(Due(s, now), k) + CountKey(Due(Later(s, now), t), k) == CountKey(Due(s, t), k)
  {
    if s != [] {
      DueSplits(s[1..], k, now, t);
      assert s == [s[0]] + s[1..];
      CountHead(s[0], s[1..], k, now);
      CountHead(s[0], s[1..], k, t);
      if s[0].readyAt > now {
        CountHead(s[0], Later(s[1..], now), k, t);
      } else {
        assert [] + Later(s[1..], now) == Later(s[1..], now);
      }
    }
  }

  /** One step takes no more out of the delays than has fallen due. */
  lemma StepDrains<K(!new)>(q: Inner<K>, op: Op<K>, k: K, t: nat)
    requires Inv(q) && (op.TakeOp? ==> op.now <= t)
    ensures (if op.TakeOp? then AcceptedBy(q, op, k) else 0) + CountKey(Due(Step(q, op).delayed, t), k) <=
            CountKey(Due(q.delayed, t), k) + (if Elapsed(q, op, k, t) then 1 else 0)
  {
    match op
    case AddAfter(x, delay, now) =>
      if delay > 0 && !q.shutdown {
        InsertDueCount(q.delayed, Delayed(now + delay, q.nextSeq, x), k, t);
      }
    case TakeOp(now) => TakeDrains(q, now, k, t);
    case _ =>
  }

  lemma TakeDrains<K(!new)>(q: Inner<K>, now: nat, k: K, t: nat)
    requires Inv(q) && now <= t
    ensures CountKey(Due(q.delayed, now), k) + CountKey(Due(Take(q, now).delayed, t), k) ==
            CountKey(Due(q.delayed, t), k)
  {
    DrainsExactlyTheDue(q, now);
    DueSplits(q.delayed, k, now, t);
  }

  lemma {:induction false} DrainsAreDue<K(!new)>(ops: seq<Op<K>>, k: K, t: nat)
    requires ReadBy(ops, t)
    ensures AcceptedDrains(ops, k) + CountKey(Due(Run(ops).delayed, t), k) <= ElapsedDelays(ops, k, t)
  {
    if ops != [] {
      var front, op := ops[..|ops| - 1], ops[|ops| - 1];
      assert forall i :: 0 <= i < |front| ==> front[i] == ops[i];
      DrainsAreDue(front, k, t);
      RunKeepsInv(front);
      StepDrains(Run(front), op, k, t);
    }
  }

  lemma {:induction false} AcceptedSplits<K(!new)>(ops: seq<Op<K>>, k: K)
    ensures AcceptedCount(ops, k) == AcceptedAdds(ops, k) + AcceptedDrains(ops, k)
  {
    if ops != [] {
      AcceptedSplits(ops[..|ops| - 1], k);
    }
  }

  /**
   The hand-outs of a key and the work still held for it are its accepted immediate adds and its
   accepted drains; and as long as no clock reading is past `t`, the accepted drains number no more than
   the delayed adds whose whole delay has elapsed by `t`. So no delayed add is ever handed out early.
   */
  lemma NeverEarly<K(!new)>(ops: seq<Op<K>>, k: K, t: nat)
    requires ReadBy(ops, t)
    ensures HandedCount(ops, k) + Held(Run(ops), k) <= AcceptedAdds(ops, k) + AcceptedDrains(ops, k)
    ensures !Run(ops).shutdown ==>
              HandedCount(ops, k) + Held(Run(ops), k) == AcceptedAdds(ops, k) + AcceptedDrains(ops, k)
    ensures AcceptedDrains(ops, k) <= ElapsedDelays(ops, k, t)
  {
    Conservation(ops, k);
    AcceptedSplits(ops, k);
    DrainsAreDue(ops, k, t);
  }

  // ---- Backoff ----

  /** Rate-limited adds of `k` since it was last forgotten. */
  function AttemptsSince<K(==)>(ops: seq<Op<K>>, k: K): nat {
    if ops == [] then 0
    else
      var n := AttemptsSince(ops[..|ops| - 1], k);
      match ops[|ops| - 1]
      case CountAttemptOp(x) => if x == k then n + 1 else n
      case Forget(x) => if x == k then 0 else n
      case _ => n
  }

  lemma DrainAttempts<K(!new)>(q: Inner<K>, now: nat)
    ensures DrainDue(q, now).attempts == q.attempts
    decreases |q.delayed|
  {
    if q.delayed != [] && q.delayed[0].readyAt <= now {
      DrainAttempts(Enqueue(q.(delayed := q.delayed[1..]), q.delayed[0].key), now);
    }
  }

  lemma {:induction false} AttemptsAreCounted<K(!new)>(ops: seq<Op<K>>, k: K)
    ensures (if k in Run(ops).attempts then Run(ops).attempts[k] else 0) == Min(AttemptsSince(ops, k), U32_MAX)
  {
    if ops != [] {
      AttemptsAreCounted(ops[..|ops| - 1], k);
      if ops[|ops| - 1].TakeOp? {
        DrainAttempts(Run(ops[..|ops| - 1]), ops[|ops| - 1].now);
      }
    }
  }

  /**
   The delay of the next rate-limited add: the base doubled once per attempt since the last
   `forget`, at most twenty times, and capped; neither saturation shows.
   */
  lemma BackoffSinceForget<K(!new)>(cfg: RateLimitConfig, ops: seq<Op<K>>, k: K)
    ensures var stored := if k in Run(ops).attempts then Run(ops).attempts[k] else 0;
            DelayFor(cfg, stored) == Min(cfg.base * Pow2(Min(AttemptsSince(ops, k), 20)), cfg.max)
  {
    AttemptsAreCounted(ops, k);
  }

  lemma {:induction false} Pow2Grows(m: nat, n: nat)
    requires m <= n
    ensures 1 <= Pow2(m) <= Pow2(n)
    decreases n
  {
    if m < n {
      Pow2Grows(m, n - 1);
    } else if n > 0 {
      Pow2Grows(m - 1, n - 1);
    }
  }

  /** Delays never shrink as attempts accumulate, and double until the cap or the twentieth. */
  lemma BackoffRamp(cfg: RateLimitConfig, m: nat, n: nat)
    requires m <= n
    ensures DelayFor(cfg, m) <= DelayFor(cfg, n)
    ensures n < 20 ==> DelayFor(cfg, n + 1) == Min(2 * DelayFor(cfg, n), cfg.max)
  {
    Pow2Grows(Min(m, 20), Min(n, 20));
    MulGrows(cfg.base, Pow2(Min(m, 20)), Pow2(Min(n, 20)));
    if n < 20 {
      DelayDoubles(cfg, n);
    }
  }

  lemma DelayDoubles(cfg: RateLimitConfig, n: nat)
    requires n < 20
    ensures DelayFor(cfg, n + 1) == Min(2 * DelayFor(cfg, n), cfg.max)
  {
    var p := Pow2(n);
    assert Pow2(n + 1) == 2 * p;
    MulDoubles(cfg.base, p);
  }

  lemma MulDoubles(a: nat, b: nat)
    ensures a * (2 * b) == 2 * (a * b)
  {
  }

  lemma MulGrows(a: nat, b: nat, c: nat)
    requires b <= c
    ensures a * b <= a * c
  {
  }
}
