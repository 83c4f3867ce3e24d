/** The queue object: fields updated in place, one method per locked region. */
module WorkqueueHandle {
  import opened Options
  import opened Workqueue
  import WorkqueueProofs

  class RateLimitingWorkqueue<K(==, !new)> {
    const config: RateLimitConfig
    var ready: seq<K>
    var queued: set<K>
    var processing: set<K>
    var dirty: set<K>
    var delayed: seq<Delayed<K>>
    var attempts: map<K, nat>
    var nextSeq: nat
    var shutdown: bool

    ghost function State(): Inner<K>
      reads this
    {
      Inner(ready, queued, processing, dirty, delayed, attempts, nextSeq, shutdown)
    }

    ghost predicate Valid()
      reads this
    {
      Inv(State())
    }

    constructor (cfg: RateLimitConfig)
      ensures Valid() && State() == Empty() && config == cfg
    {
      config := cfg;
      ready, queued, processing, dirty := [], {}, {}, {};
      delayed, attempts, nextSeq, shutdown := [], map[], 0, false;
    }

    /** Returns whether a getter should be woken. */
    method EnqueueLocked(key: K) returns (woke: bool)
      requires Valid()
      modifies this
      ensures Valid() && State() == Enqueue(old(State()), key)
      ensures woke <==> Wakes(old(State()), key)
    {
      WorkqueueProofs.EnqueueKeepsInv(State(), key);
      if shutdown {
        return false;
      }
      if key in processing {
        dirty := dirty + {key};
        return false;
      }
      if key in queued {
        return false;
      }
      queued := queued + {key};
      ready := ready + [key];
      return true;
    }

    /** Moves every due entry to the ready queue, popping the heap while its top is due. */
    method DrainDueLocked(now: nat)
      requires Valid()
      modifies this
      ensures Valid() && State() == DrainDue(old(State()), now)
      ensures delayed == WorkqueueProofs.Later(old(delayed), now)
    {
      WorkqueueProofs.DrainsExactlyTheDue(State(), now);
      while delayed != [] && delayed[0].readyAt <= now
        invariant Valid() && DrainDue(State(), now) == DrainDue(old(State()), now)
        decreases |delayed|
      {
        var entry := delayed[0];
        delayed := delayed[1..];
        var woke := EnqueueLocked(entry.key);
      }
    }

    method Add(key: K) returns (woke: bool)
      requires Valid()
      modifies this
      ensures Valid() && State() == Step(old(State()), Op.Add(key))
      ensures woke <==> Wakes(old(State()), key)
    {
      woke := EnqueueLocked(key);
    }

    /** Returns whether the consumer is notified: for a delayed add, whenever it is accepted. */
    method AddAfter(key: K, delay: nat, now: nat) returns (notified: bool)
      requires Valid()
      modifies this
      ensures Valid() && State() == Step(old(State()), Op.AddAfter(key, delay, now))
      ensures notified <==> if delay == 0 then Wakes(old(State()), key) else !old(shutdown)
    {
      if delay == 0 {
        notified := Add(key);
        return;
      }
      WorkqueueProofs.StepKeepsInv(State(), Op.AddAfter(key, delay, now));
      if shutdown {
        return false;
      }
      var s := nextSeq;
      nextSeq := nextSeq + 1;
      delayed := InsertDelayed(delayed, Delayed(now + delay, s, key));
      return true;
    }

    /** Counts the attempt, then schedules the key after the backoff of the attempts before it. */
    method AddRateLimited(key: K, now: nat) returns (delay: Duration)
      requires Valid()
      modifies this
      ensures Valid()
      ensures delay == DelayFor(config, if key in old(attempts) then old(attempts)[key] else 0)
      ensures State() == Step(Step(old(State()), CountAttemptOp(key)), Op.AddAfter(key, delay, now))
    {
      var counter := if key in attempts then attempts[key] else 0;
      attempts := attempts[key := Min(counter + 1, U32_MAX)];
      delay := DelayFor(config, counter);
      var notified := AddAfter(key, delay, now);
    }

    /** One pass of `get` under the lock: a key, the end of the queue, or how long to sleep. */
    method TakeLocked(now: nat) returns (outcome: Outcome<K>)
      requires Valid()
      modifies this
      ensures Valid() && State() == Step(old(State()), TakeOp(now))
      ensures outcome == TakeOutcome(old(State()), now)
    {
      WorkqueueProofs.TakeKeepsInv(State(), now);
      DrainDueLocked(now);
      if ready != [] {
        var key := ready[0];
        ready := ready[1..];
        queued := queued - {key};
        processing := processing + {key};
        return Handed(key);
      }
      if shutdown {
        return Closed;
      }
      return Park(if delayed == [] then None else Some(delayed[0].readyAt));
    }

    method Done(key: K) returns (woke: bool)
      requires Valid()
      modifies this
      ensures Valid() && State() == Step(old(State()), DoneOp(key))
      ensures woke <==> FinishWakes(old(State()), key)
    {
      var wasDirty := key in dirty;
      processing := processing - {key};
      dirty := dirty - {key};
      if wasDirty {
        woke := EnqueueLocked(key);
      } else {
        woke := false;
      }
    }

    method ForgetKey(key: K)
      requires Valid()
      modifies this
      ensures Valid() && State() == Step(old(State()), Forget(key))
    {
      attempts := attempts - {key};
    }

    method Close()
      requires Valid()
      modifies this
      ensures Valid() && State() == Step(old(State()), Shutdown)
    {
      shutdown := true;
    }
  }
}
