/** Hand-out order of the work queue: first in, first out. */
module WorkqueueOrder {
  import opened Options
  import opened Workqueue
  import opened WorkqueueProofs

  function AsSeq<K>(enters: bool, k: K): seq<K> {
    if enters then [k] else []
  }

  /** The keys among due entries that become ready, in order. */
  function EnterAll<K(==)>(q: Inner<K>, ds: seq<Delayed<K>>): seq<K>
    decreases |ds|
  {
    if ds == [] then []
    else AsSeq(Wakes(q, ds[0].key), ds[0].key) + EnterAll(Enqueue(q, ds[0].key), ds[1..])
  }

  /** The keys an operation makes ready: those not queued, in flight, or refused. */
  function Enters<K(==)>(q: Inner<K>, op: Op<K>): seq<K> {
    match op
    case Add(k) => AsSeq(Wakes(q, k), k)
    case AddAfter(k, delay, _) => AsSeq(delay == 0 && Wakes(q, k), k)
    case TakeOp(now) => EnterAll(q.(delayed := Later(q.delayed, now)), Due(q.delayed, now))
    case DoneOp(k) => AsSeq(FinishWakes(q, k), k)
    case _ => []
  }

  function Entered<K(==)>(ops: seq<Op<K>>): seq<K> {
    if ops == [] then []
    else Entered(ops[..|ops| - 1]) + Enters(Run(ops[..|ops| - 1]), ops[|ops| - 1])
  }

  function HandedOut<K(==)>(ops: seq<Op<K>>): seq<K> {
    if ops == [] then []
    else
      var handed := HandedBy(Run(ops[..|ops| - 1]), ops[|ops| - 1]);
      HandedOut(ops[..|ops| - 1]) + (if handed.Some? then [handed.value] else [])
  }

  lemma {:induction false} EnqueueAllReady<K(!new)>(q: Inner<K>, ds: seq<Delayed<K>>)
    ensures EnqueueAll(q, ds).ready == q.ready + EnterAll(q, ds)
    decreases |ds|
  {
    if ds == [] {
      assert q.ready + [] == q.ready;
    } else {
      var k := ds[0].key;
      EnqueueAllReady(Enqueue(q, k), ds[1..]);
      assert Enqueue(q, k).ready == q.ready + AsSeq(Wakes(q, k), k);
    }
  }

  /** One operation hands out from the front and lets in at the back. */
  lemma StepIsFifo<K(!new)>(q: Inner<K>, op: Op<K>)
    requires Inv(q)
    ensures var handed := HandedBy(q, op);
            q.ready + Enters(q, op) == (if handed.Some? then [handed.value] else []) + Step(q, op).ready
  {
    if op.TakeOp? {
      DrainsExactlyTheDue(q, op.now);
      EnqueueAllReady(q.(delayed := Later(q.delayed, op.now)), Due(q.delayed, op.now));
      var d := DrainDue(q, op.now);
      assert d.ready != [] ==> d.ready == [d.ready[0]] + d.ready[1..];
    } else {
      assert q.ready + [] == q.ready;
    }
  }

  /**
   Over every run, the keys handed out followed by those still ready are the keys that became
   ready, in the order they did: none overtakes, none is skipped, none is invented.
   */
  lemma {:induction false} FirstInFirstOut<K(!new)>(ops: seq<Op<K>>)
    ensures Entered(ops) == HandedOut(ops) + Run(ops).ready
  {
    if ops != [] {
      var front, last := ops[..|ops| - 1], ops[|ops| - 1];
      FirstInFirstOut(front);
      RunKeepsInv(front);
      var q := Run(front);
      StepIsFifo(q, last);
      var handed := HandedBy(q, last);
      Regroup(HandedOut(front), q.ready, Enters(q, last), if handed.Some? then [handed.value] else [],
              Step(q, last).ready);
    }
  }

  lemma Regroup<K>(log: seq<K>, ready: seq<K>, enters: seq<K>, handed: seq<K>, left: seq<K>)
    requires ready + enters == handed + left
    ensures log + ready + enters == log + handed + left
  {
    assert log + ready + enters == log + (ready + enters);
    assert log + handed + left == log + (handed + left);
  }
}
