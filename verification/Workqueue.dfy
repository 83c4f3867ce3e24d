/**
 The rate-limiting, de-duplicating work queue (`workqueue.rs`), at the granularity of its
 locked regions: any interleaving of producers, handlers and the consumer is a sequence of
 these operations.
 */
module Workqueue {
  import opened Options
  import opened ListFacts

  // ---- Backoff ----

  /** The ceiling of `Duration` in nanoseconds. */
  const DURATION_MAX: nat := 0xFFFF_FFFF_FFFF_FFFF * 1_000_000_000 + 999_999_999

  const U32_MAX: nat := 0xFFFF_FFFF

  type Duration = d: nat | d <= DURATION_MAX

  datatype RateLimitConfig = RateLimitConfig(base: Duration, max: Duration)

  function Min(a: nat, b: nat): nat {
    if a < b then a else b
  }

  function Pow2(n: nat): nat {
    if n == 0 then 1 else 2 * Pow2(n - 1)
  }

  /** `base.saturating_mul(1 << attempts.min(20)).min(max)`. */
  function DelayFor(cfg: RateLimitConfig, attempts: nat): Duration {
    var factor := Pow2(Min(attempts, 20));
    Min(Min(cfg.base * factor, DURATION_MAX), cfg.max)
  }

  // ---- State ----

  datatype Delayed<K> = Delayed(readyAt: nat, seqNo: nat, key: K)

  /** Hand-out order of delayed entries: soonest deadline first, then insertion order. */
  predicate Before<K>(a: Delayed<K>, b: Delayed<K>) {
    a.readyAt < b.readyAt || (a.readyAt == b.readyAt && a.seqNo < b.seqNo)
  }

  /** `delayed` lists the heap in the order successive pops would yield it. */
  datatype Inner<K> = Inner(
    ready: seq<K>,
    queued: set<K>,
    processing: set<K>,
    dirty: set<K>,
    delayed: seq<Delayed<K>>,
    attempts: map<K, nat>,
    nextSeq: nat,
    shutdown: bool)

  function Empty<K>(): Inner<K> {
    Inner([], {}, {}, {}, [], map[], 0, false)
  }

  // ---- Locked regions ----

  /** Whether enqueueing `k` puts it in the ready queue, so a getter should be woken. */
  predicate Wakes<K(==)>(q: Inner<K>, k: K) {
    !q.shutdown && k !in q.processing && k !in q.queued
  }

  function Enqueue<K>(q: Inner<K>, k: K): Inner<K> {
    if q.shutdown then q
    else if k in q.processing then q.(dirty := q.dirty + {k})
    else if k in q.queued then q
    else q.(queued := q.queued + {k}, ready := q.ready + [k])
  }

  /** Heap push: after every entry that pops first. */
  function InsertDelayed<K>(s: seq<Delayed<K>>, d: Delayed<K>): seq<Delayed<K>> {
    if s == [] || Before(d, s[0]) then [d] + s else [s[0]] + InsertDelayed(s[1..], d)
  }

  function Schedule<K>(q: Inner<K>, k: K, readyAt: nat): Inner<K> {
    if q.shutdown then q
    else q.(delayed := InsertDelayed(q.delayed, Delayed(readyAt, q.nextSeq, k)), nextSeq := q.nextSeq + 1)
  }

  function DrainDue<K>(q: Inner<K>, now: nat): Inner<K>
    decreases |q.delayed|
  {
    if q.delayed == [] || q.delayed[0].readyAt > now then q
    else
      var popped := q.(delayed := q.delayed[1..]);
      DrainDue(Enqueue(popped, q.delayed[0].key), now)
  }

  function NextDeadline<K>(q: Inner<K>): Option<nat> {
    if q.delayed == [] then None else Some(q.delayed[0].readyAt)
  }

  datatype Outcome<K> = Handed(key: K) | Closed | Park(deadline: Option<nat>)

  /** One pass of `get` under the lock. */
  function TakeOutcome<K>(q: Inner<K>, now: nat): Outcome<K> {
    var d := DrainDue(q, now);
    if d.ready != [] then Handed(d.ready[0]) else if d.shutdown then Closed else Park(NextDeadline(d))
  }

  function Take<K>(q: Inner<K>, now: nat): Inner<K> {
    var d := DrainDue(q, now);
    if d.ready == [] then d
    else d.(ready := d.ready[1..], queued := d.queued - {d.ready[0]}, processing := d.processing + {d.ready[0]})
  }

  function Finish<K>(q: Inner<K>, k: K): Inner<K> {
    var cleared := q.(processing := q.processing - {k}, dirty := q.dirty - {k});
    if k in q.dirty then Enqueue(cleared, k) else cleared
  }

  predicate FinishWakes<K(==)>(q: Inner<K>, k: K) {
    k in q.dirty && Wakes(q.(processing := q.processing - {k}, dirty := q.dirty - {k}), k)
  }

  function CountAttempt<K>(q: Inner<K>, k: K): Inner<K> {
    var n := if k in q.attempts then q.attempts[k] else 0;
    q.(attempts := q.attempts[k := Min(n + 1, U32_MAX)])
  }

  datatype Op<K> =
    | Add(key: K)
    | AddAfter(key: K, delay: nat, now: nat)
    | CountAttemptOp(key: K)
    | TakeOp(now: nat)
    | DoneOp(key: K)
    | Forget(key: K)
    | Shutdown

  function Step<K>(q: Inner<K>, op: Op<K>): Inner<K> {
    match op
    case Add(k) => Enqueue(q, k)
    case AddAfter(k, delay, now) => if delay == 0 then Enqueue(q, k) else Schedule(q, k, now + delay)
    case CountAttemptOp(k) => CountAttempt(q, k)
    case TakeOp(now) => Take(q, now)
    case DoneOp(k) => Finish(q, k)
    case Forget(k) => q.(attempts := q.attempts - {k})
    case Shutdown => q.(shutdown := true)
  }

  function Run<K>(ops: seq<Op<K>>): Inner<K> {
    if ops == [] then Empty() else Step(Run(ops[..|ops| - 1]), ops[|ops| - 1])
  }

  // ---- The structural invariant ----

  ghost predicate InPopOrder<K>(s: seq<Delayed<K>>) {
    forall i, j :: 0 <= i < j < |s| ==> Before(s[i], s[j])
  }

  ghost predicate Inv<K(!new)>(q: Inner<K>) {
    && NoRepeats(q.ready)
    && (forall k :: k in q.ready <==> k in q.queued)
    && q.queued !! q.processing
    && q.dirty <= q.processing
    && InPopOrder(q.delayed)
    && (forall d :: d in q.delayed ==> d.seqNo < q.nextSeq)
  }
}
