/** HTTPS listener hostnames and the SNI-versus-Host check of GEP-3567. */
module ListenerHostnames {
  import opened Options
  import opened StableSort
  import opened StringOps
  import opened HostPatterns

  /** One `add_listener` call. */
  datatype Listener = Listener(port: nat, hostname: string, isHttps: bool)

  datatype ListenerId = Named(pattern: string) | MatchAll

  /** `patterns` excludes the catch-all and is sorted most specific first. */
  datatype PortListeners = PortListeners(patterns: seq<string>, hasMatchAll: bool)

  type Hostnames = map<nat, PortListeners>

  predicate PatternMatches(host: string, pattern: string) {
    var suffix := StripPrefix(pattern, "*.");
    if suffix.Some? then WildcardMatches(host, suffix.value) else host == pattern
  }

  /** Sort order: an exact name before any wildcard, a longer suffix before a shorter one. */
  predicate NoLessSpecific(a: string, b: string) {
    var sa, sb := StripPrefix(a, "*."), StripPrefix(b, "*.");
    sa.None? || (sb.Some? && |sa.value| >= |sb.value|)
  }

  function FirstListener(patterns: seq<string>, host: string): Option<string> {
    if patterns == [] then None
    else if PatternMatches(host, patterns[0]) then Some(patterns[0])
    else FirstListener(patterns[1..], host)
  }

  function Fallback(p: PortListeners): Option<ListenerId> {
    if p.hasMatchAll then Some(MatchAll) else None
  }

  function Resolve(lh: Hostnames, port: nat, host: string): Option<ListenerId> {
    if port !in lh then None
    else
      var found := FirstListener(lh[port].patterns, host);
      if found.Some? then Some(Named(found.value)) else Fallback(lh[port])
  }

  function ResolveSni(lh: Hostnames, port: nat, sni: Option<string>): Option<ListenerId> {
    if port !in lh then None
    else
      var found := if sni.Some? then FirstListener(lh[port].patterns, sni.value) else None;
      if found.Some? then Some(Named(found.value)) else Fallback(lh[port])
  }

  /** The request guard: answers 421 when the two listeners differ. */
  predicate Misdirected(lh: Hostnames, port: nat, sni: Option<string>, host: string, https: bool) {
    https && port in lh && ResolveSni(lh, port, sni) != Resolve(lh, port, host)
  }

  // ---------------------------------------------------------- the direct rule

  predicate Registered(regs: seq<Listener>, port: nat, p: Pattern) {
    exists r :: r in regs && r.isHttps && r.port == port && Classify(r.hostname) == p
  }

  predicate HasHttps(regs: seq<Listener>, port: nat) {
    exists r :: r in regs && r.isHttps && r.port == port
  }

  /** The listener class of a name: its own listener, else its parent's wildcard, else the catch-all. */
  function ClassOf(regs: seq<Listener>, port: nat, host: string): Option<ListenerId> {
    var parent := ParentDomain(host);
    if Registered(regs, port, Exact(host)) then Some(Named(host))
    else if parent.Some? && Registered(regs, port, Wildcard(parent.value)) then Some(Named("*." + parent.value))
    else if Registered(regs, port, CatchAll) then Some(MatchAll)
    else None
  }

  /** The name patterns registered on a port. */
  ghost predicate IsPatternOf(regs: seq<Listener>, port: nat, pattern: string) {
    pattern != "" && pattern != "*" && exists r :: r in regs && r.isHttps && r.port == port && r.hostname == pattern
  }

  /** What `build` may return after the calls `regs`. */
  ghost predicate IsSnapshotOf(regs: seq<Listener>, lh: Hostnames) {
    forall port: nat ::
      && (port in lh <==> HasHttps(regs, port))
      && (port in lh ==>
            && (lh[port].hasMatchAll <==> Registered(regs, port, CatchAll))
            && (forall p :: p in lh[port].patterns <==> IsPatternOf(regs, port, p))
            && Sorted(NoLessSpecific, lh[port].patterns))
  }

  lemma MatchesByClass(host: string, pattern: string)
    requires pattern != "" && pattern != "*"
    ensures PatternMatches(host, pattern) <==>
            match Classify(pattern)
            case Exact(h) => host == h
            case Wildcard(s) => ParentDomain(host) == Some(s)
            case CatchAll => false
  {
    var suffix := StripPrefix(pattern, "*.");
    if suffix.Some? {
      OnlyTheParentMatches(host, suffix.value);
    }
  }

  lemma {:induction false} FirstListenerIsFirst(patterns: seq<string>, host: string)
    ensures FirstListener(patterns, host).None? <==> forall p :: p in patterns ==> !PatternMatches(host, p)
    ensures FirstListener(patterns, host).Some? ==>
            exists i :: 0 <= i < |patterns| && FirstListener(patterns, host) == Some(patterns[i])
                        && PatternMatches(host, patterns[i])
                        && forall j :: 0 <= j < i ==> !PatternMatches(host, patterns[j])
  {
    if patterns != [] {
      var tail := patterns[1..];
      assert forall p :: p in patterns <==> p == patterns[0] || p in tail;
      if !PatternMatches(host, patterns[0]) {
        FirstListenerIsFirst(tail, host);
        if FirstListener(tail, host).Some? {
          var i :| 0 <= i < |tail| && FirstListener(tail, host) == Some(tail[i])
                   && PatternMatches(host, tail[i]) && forall j :: 0 <= j < i ==> !PatternMatches(host, tail[j]);
          assert patterns[i + 1] == tail[i];
          forall j | 0 <= j < i + 1 ensures !PatternMatches(host, patterns[j]) {
            assert j > 0 ==> patterns[j] == tail[j - 1];
          }
        }
      } else {
        assert patterns[0] in patterns;
      }
    }
  }

  /** The wildcard pattern for a suffix is written one way only. */
  lemma WildcardText(pattern: string, suffix: string)
    requires Classify(pattern) == Wildcard(suffix)
    ensures pattern == "*." + suffix
  {
    assert pattern == pattern[..2] + pattern[2..];
  }

  lemma RegisteredPattern(regs: seq<Listener>, port: nat, p: Pattern)
    requires p != CatchAll && Registered(regs, port, p)
    ensures exists t :: IsPatternOf(regs, port, t) && Classify(t) == p
  {
    var r :| r in regs && r.isHttps && r.port == port && Classify(r.hostname) == p;
    assert IsPatternOf(regs, port, r.hostname);
  }

  /** An exact name outranks every wildcard, so the scan finds it first. */
  lemma ScanFollowsTheRule(regs: seq<Listener>, port: nat, patterns: seq<string>, host: string)
    requires forall p :: p in patterns <==> IsPatternOf(regs, port, p)
    requires Sorted(NoLessSpecific, patterns)
    ensures FirstListener(patterns, host) ==
            var parent := ParentDomain(host);
            if Registered(regs, port, Exact(host)) then Some(host)
            else if parent.Some? && Registered(regs, port, Wildcard(parent.value)) then Some("*." + parent.value)
            else None
  {
    FirstListenerIsFirst(patterns, host);
    var found := FirstListener(patterns, host);
    if found.Some? {
      var i :| 0 <= i < |patterns| && found == Some(patterns[i]) && PatternMatches(host, patterns[i])
               && forall j :: 0 <= j < i ==> !PatternMatches(host, patterns[j]);
      FoundIsRegistered(regs, port, patterns, host, i);
      if Registered(regs, port, Exact(host)) {
        ExactIsFirst(regs, port, patterns, host, i);
      }
    } else {
      NothingRegistered(regs, port, patterns, host);
    }
  }

  lemma FoundIsRegistered(regs: seq<Listener>, port: nat, patterns: seq<string>, host: string, i: nat)
    requires forall p :: p in patterns <==> IsPatternOf(regs, port, p)
    requires i < |patterns| && PatternMatches(host, patterns[i])
    ensures || (patterns[i] == host && Registered(regs, port, Exact(host)))
            || (&& ParentDomain(host).Some? && patterns[i] == "*." + ParentDomain(host).value
                && Registered(regs, port, Wildcard(ParentDomain(host).value)))
  {
    var t := patterns[i];
    assert t in patterns;
    MatchesByClass(host, t);
    var r :| r in regs && r.isHttps && r.port == port && r.hostname == t;
    assert Registered(regs, port, Classify(t));
    if Classify(t).Wildcard? {
      WildcardText(t, Classify(t).suffix);
    }
  }

  lemma ExactIsFirst(regs: seq<Listener>, port: nat, patterns: seq<string>, host: string, i: nat)
    requires forall p :: p in patterns <==> IsPatternOf(regs, port, p)
    requires Sorted(NoLessSpecific, patterns) && Registered(regs, port, Exact(host))
    requires i < |patterns| && forall j :: 0 <= j < i ==> !PatternMatches(host, patterns[j])
    requires PatternMatches(host, patterns[i])
    ensures patterns[i] == host
  {
    RegisteredPattern(regs, port, Exact(host));
    var t :| IsPatternOf(regs, port, t) && Classify(t) == Exact(host);
    var k :| 0 <= k < |patterns| && patterns[k] == t;
    MatchesByClass(host, t);
    assert i < k ==> NoLessSpecific(patterns[i], patterns[k]);
  }

  lemma NothingRegistered(regs: seq<Listener>, port: nat, patterns: seq<string>, host: string)
    requires forall p :: p in patterns <==> IsPatternOf(regs, port, p)
    requires forall p :: p in patterns ==> !PatternMatches(host, p)
    ensures !Registered(regs, port, Exact(host))
    ensures ParentDomain(host).Some? ==> !Registered(regs, port, Wildcard(ParentDomain(host).value))
  {
    forall p | p != CatchAll && Registered(regs, port, p)
      ensures exists t :: t in patterns && Classify(t) == p
    {
      RegisteredPattern(regs, port, p);
    }
    forall t | t in patterns ensures Classify(t) != Exact(host) &&
      (ParentDomain(host).Some? ==> Classify(t) != Wildcard(ParentDomain(host).value))
    {
      MatchesByClass(host, t);
    }
  }

  lemma CatchAllNeedsHttps(regs: seq<Listener>, port: nat, p: Pattern)
    requires Registered(regs, port, p)
    ensures HasHttps(regs, port)
  {
    var r :| r in regs && r.isHttps && r.port == port && Classify(r.hostname) == p;
  }

  /** Every snapshot the builder may return resolves a name to its listener class. */
  lemma ResolveIsClass(regs: seq<Listener>, lh: Hostnames, port: nat, host: string)
    requires IsSnapshotOf(regs, lh)
    ensures Resolve(lh, port, host) == ClassOf(regs, port, host)
    ensures ResolveSni(lh, port, Some(host)) == Resolve(lh, port, host)
  {
    if port in lh {
      ScanFollowsTheRule(regs, port, lh[port].patterns, host);
    } else {
      forall p | Registered(regs, port, p) ensures false {
        CatchAllNeedsHttps(regs, port, p);
      }
    }
  }

  /** Only which listeners were added matters, not their order or number. */
  lemma ClassIgnoresOrder(regs: seq<Listener>, regs': seq<Listener>, lh: Hostnames, lh': Hostnames, port: nat,
                          host: string)
    requires IsSnapshotOf(regs, lh) && IsSnapshotOf(regs', lh')
    requires forall r :: r in regs <==> r in regs'
    ensures Resolve(lh, port, host) == Resolve(lh', port, host)
    ensures forall sni :: Misdirected(lh, port, sni, host, true) <==> Misdirected(lh', port, sni, host, true)
  {
    ResolveIsClass(regs, lh, port, host);
    ResolveIsClass(regs', lh', port, host);
    forall p ensures Registered(regs, port, p) <==> Registered(regs', port, p) {
    }
    forall sni ensures ResolveSni(lh, port, sni) == ResolveSni(lh', port, sni) {
      if sni.Some? {
        ResolveIsClass(regs, lh, port, sni.value);
        ResolveIsClass(regs', lh', port, sni.value);
      }
    }
  }

  /** A request is turned away exactly when its SNI and Host fall in different classes of an HTTPS port. */
  lemma MisdirectedIff(regs: seq<Listener>, lh: Hostnames, port: nat, sni: Option<string>, host: string, https: bool)
    requires IsSnapshotOf(regs, lh)
    ensures Misdirected(lh, port, sni, host, https) <==>
            && https && HasHttps(regs, port)
            && ClassOf(regs, port, host) !=
               if sni.Some? then ClassOf(regs, port, sni.value)
               else if Registered(regs, port, CatchAll) then Some(MatchAll) else None
    ensures sni == Some(host) ==> !Misdirected(lh, port, sni, host, https)
  {
    ResolveIsClass(regs, lh, port, host);
    if sni.Some? {
      ResolveIsClass(regs, lh, port, sni.value);
    }
  }

  // -------------------------------------------------------------- the builder

  lemma SpecificityOrder()
    ensures TotalPreorder(NoLessSpecific)
  {
  }

  ghost predicate Collects(regs: seq<Listener>, port: nat, p: PortListeners) {
    && (p.hasMatchAll <==> Registered(regs, port, CatchAll))
    && (forall t :: t in p.patterns <==> IsPatternOf(regs, port, t))
  }

  function Add(p: PortListeners, hostname: string): PortListeners {
    if hostname == "" || hostname == "*" then p.(hasMatchAll := true)
    else p.(patterns := p.patterns + [hostname])
  }

  function At(ports: Hostnames, port: nat): PortListeners {
    if port in ports then ports[port] else PortListeners([], false)
  }

  lemma AddCollects(regs: seq<Listener>, port: nat, p: PortListeners, r: Listener)
    requires Collects(regs, port, p)
    ensures Collects(regs + [r], port, if r.isHttps && r.port == port then Add(p, r.hostname) else p)
    ensures HasHttps(regs + [r], port) <==> HasHttps(regs, port) || (r.isHttps && r.port == port)
  {
    var p' := if r.isHttps && r.port == port then Add(p, r.hostname) else p;
    assert forall x :: x in regs + [r] <==> x in regs || x == r;
    assert r in regs + [r];
    assert Registered(regs + [r], port, CatchAll) <==>
      Registered(regs, port, CatchAll) || (r.isHttps && r.port == port && Classify(r.hostname) == CatchAll);
    forall t ensures t in p'.patterns <==> IsPatternOf(regs + [r], port, t) {
      assert IsPatternOf(regs + [r], port, t) <==>
        IsPatternOf(regs, port, t) || (t != "" && t != "*" && r.isHttps && r.port == port && r.hostname == t);
    }
  }

  class ListenerHostnamesBuilder {
    var ports: Hostnames
    ghost var regs: seq<Listener>

    ghost predicate Valid()
      reads this
    {
      forall port: nat :: (port in ports <==> HasHttps(regs, port)) && Collects(regs, port, At(ports, port))
    }

    constructor ()
      ensures Valid() && regs == []
    {
      ports, regs := map[], [];
    }

    method AddListener(port: nat, hostname: string, isHttps: bool)
      requires Valid()
      modifies this
      ensures Valid()
      ensures regs == old(regs) + [Listener(port, hostname, isHttps)]
    {
      ghost var r := Listener(port, hostname, isHttps);
      ghost var before := ports;
      if isHttps {
        ports := ports[port := Add(At(ports, port), hostname)];
      }
      forall q: nat
        ensures (q in ports <==> HasHttps(regs + [r], q)) && Collects(regs + [r], q, At(ports, q))
      {
        AddCollects(regs, q, At(before, q), r);
      }
      regs := regs + [r];
    }

    method Build() returns (lh: Hostnames)
      requires Valid()
      ensures IsSnapshotOf(regs, lh)
    {
      lh := SortAll(ports);
      forall port: nat | port in lh
        ensures forall p :: p in lh[port].patterns <==> IsPatternOf(regs, port, p)
      {
        assert Collects(regs, port, At(ports, port));
        SortMembers(NoLessSpecific, ports[port].patterns);
      }
      assert forall port: nat :: port in lh ==> Collects(regs, port, At(ports, port));
    }
  }

  method SortAll(ports: Hostnames) returns (lh: Hostnames)
    ensures lh.Keys == ports.Keys
    ensures forall port :: port in ports ==>
              lh[port] == ports[port].(patterns := Sort(NoLessSpecific, ports[port].patterns))
              && Sorted(NoLessSpecific, lh[port].patterns)
  {
    lh := map[];
    var todo := ports.Keys;
    while todo != {}
      invariant todo <= ports.Keys && lh.Keys == ports.Keys - todo
      invariant forall port :: port in lh ==>
                  lh[port] == ports[port].(patterns := Sort(NoLessSpecific, ports[port].patterns))
                  && Sorted(NoLessSpecific, lh[port].patterns)
      decreases |todo|
    {
      var port :| port in todo;
      SpecificityOrder();
      SortSorts(NoLessSpecific, ports[port].patterns);
      lh := lh[port := ports[port].(patterns := Sort(NoLessSpecific, ports[port].patterns))];
      todo := todo - {port};
    }
  }
}
