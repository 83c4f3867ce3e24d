/** A session number is never used twice, so what a session acknowledged is its own. */
module Sessions {
  import opened ConvergenceGate
  import R = NodeRegistry

  ghost predicate Below(t: Tier, sessions: nat) {
    forall n :: n in t.streams ==> t.streams[n].session < sessions
  }

  ghost predicate Used(s: State) {
    && (forall k :: k in s.acked ==> k < s.sessions)
    && Below(s.root, s.sessions)
    && (forall r :: r in s.relays ==> Below(s.relays[r].tier, s.sessions))
  }

  lemma ServeSession(t: Tier, n: string, v: View, full: bool, m: string)
    requires n in t.streams && m in Serve(t, n, v, full).streams
    ensures m in t.streams && Serve(t, n, v, full).streams[m].session == t.streams[m].session
  {
  }

  lemma LookupSession(t: Tier, step: TierStep, m: string)
    requires m in LookupDo(t, step).streams
    ensures m in t.streams && LookupDo(t, step).streams[m].session == t.streams[m].session
  {
    if LookupDo(t, step) != t {
      var n := step.node;
      match step
      case Hit(_, full) => ServeSession(t, n, t.slots[t.streams[n].scope].view, full, m);
      case Deny(_, version, full) => ServeSession(t, n, View(t.streams[n].scope, version, 0, map[]), full, m);
      case Store(_, version, full) =>
        if Cached(t, n) {
          ServeSession(t, n, t.slots[t.streams[n].scope].view, full, m);
        } else {
          var v := Built(t.streams[n], version).value;
          ServeSession(t.(slots := t.slots[v.scope := Slot(t.streams[n].call.generation, v)]), n, v, full, m);
        }
      case _ =>
    }
  }

  lemma TierSessions(t: Tier, sessions: nat, ts: TierStep)
    requires Below(t, sessions)
    ensures Below(TierDo(t, sessions, ts), NextSession(sessions, ts))
  {
    forall m | m in TierDo(t, sessions, ts).streams
      ensures TierDo(t, sessions, ts).streams[m].session < NextSession(sessions, ts)
    {
      if IsLookup(ts) {
        LookupSession(t, ts, m);
      }
    }
  }

  lemma RelaySessions(s: State, step: Step)
    requires Used(s)
    ensures Used(RelayDo(s, step)) && Used(RebuildDo(s, step))
  {
  }

  lemma RootUses(s: State, ts: TierStep)
    requires Used(s)
    ensures Used(s.(root := TierDo(s.root, s.sessions, ts), acked := AckedBy(s.acked, s.root, ts),
                    sessions := NextSession(s.sessions, ts), relays := Unlinked(s.relays, ts)))
  {
    TierSessions(s.root, s.sessions, ts);
  }

  lemma LeafUses(s: State, r: string, ts: TierStep)
    requires Used(s) && r in s.relays
    ensures Used(s.(relays := s.relays[r := s.relays[r].(tier := TierDo(s.relays[r].tier, s.sessions, ts))],
                    acked := AckedBy(s.acked, s.relays[r].tier, ts), sessions := NextSession(s.sessions, ts)))
  {
    TierSessions(s.relays[r].tier, s.sessions, ts);
  }

  lemma StepUses(s: State, step: Step)
    requires Used(s)
    ensures Used(Do(s, step))
  {
    RelaySessions(s, step);
    match step
    case AtRoot(ts) => RootUses(s, ts);
    case AtRelay(r, ts) => if r in s.relays { LeafUses(s, r, ts); }
    case _ =>
  }

  lemma {:induction false} RunUses(steps: seq<Step>)
    ensures Used(RunFrom(INIT, steps))
  {
    if steps != [] {
      RunUses(steps[..|steps| - 1]);
      StepUses(RunFrom(INIT, steps[..|steps| - 1]), steps[|steps| - 1]);
    }
  }

  lemma FreshSession(s: State, r: string, n: string, scope: R.NodeScope, now: nat)
    requires Used(s)
    ensures var s' := Do(s, AtRoot(Connect(n, scope, now)));
            n in s'.root.streams && s'.root.streams[n].session !in s'.acked
    ensures r in s.relays ==>
            var s' := Do(s, AtRelay(r, Connect(n, scope, now)));
            n in s'.relays[r].tier.streams && s'.relays[r].tier.streams[n].session !in s'.acked
  {
  }

  /** After any run a node that connects, to the controller or to a relay, has acknowledged nothing. */
  lemma ConnectForgets(steps: seq<Step>, r: string, n: string, scope: R.NodeScope, now: nat)
    ensures var s := Do(RunFrom(INIT, steps), AtRoot(Connect(n, scope, now)));
            n in s.root.streams && s.root.streams[n].session !in s.acked
    ensures r in RunFrom(INIT, steps).relays ==>
            var s := Do(RunFrom(INIT, steps), AtRelay(r, Connect(n, scope, now)));
            n in s.relays[r].tier.streams && s.relays[r].tier.streams[n].session !in s.acked
  {
    RunUses(steps);
    FreshSession(RunFrom(INIT, steps), r, n, scope, now);
  }
}
