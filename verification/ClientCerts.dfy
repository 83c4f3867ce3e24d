/** Per-port client-certificate (mTLS) configuration: last registration of a pattern wins. */
module ClientCerts {
  import opened Options
  import opened StableSort
  import opened StringOps
  import opened HostPatterns
  import opened WildcardLists

  /** One `add_client_cert` call, its host pattern classified. */
  datatype Registration<C> = Registration(port: nat, pattern: Pattern, cfg: C)

  /** A port while the builder fills it. */
  datatype PortBucket<C> = PortBucket(exact: map<string, C>, wildcard: map<string, C>, fallback: Option<C>)

  /** A port as lookups see it. */
  datatype PortConfigs<C> = PortConfigs(exact: map<string, C>, wildcard: seq<(string, C)>, fallback: Option<C>)

  type ClientCertStore<C> = map<nat, PortConfigs<C>>

  function FindOnPort<C>(p: PortConfigs<C>, sni: string): Option<C> {
    if sni in p.exact then Some(p.exact[sni])
    else
      var w := FirstMatch(p.wildcard, sni);
      if w.Some? then w else p.fallback
  }

  function FindConfig<C>(store: ClientCertStore<C>, port: nat, sni: string): Option<C> {
    if port in store then FindOnPort(store[port], sni) else None
  }

  // ---------------------------------------------------------- the direct rule

  predicate IsFor<C>(r: Registration<C>, port: nat, p: Pattern) {
    r.port == port && r.pattern == p
  }

  function LastFor<C>(regs: seq<Registration<C>>, port: nat, p: Pattern): Option<C> {
    if regs == [] then None
    else if IsFor(regs[|regs| - 1], port, p) then Some(regs[|regs| - 1].cfg)
    else LastFor(regs[..|regs| - 1], port, p)
  }

  function OrElse<C>(a: Option<C>, b: Option<C>): Option<C> {
    if a.Some? then a else b
  }

  function Rule<C>(regs: seq<Registration<C>>, port: nat, sni: string): Option<C> {
    var parent := ParentDomain(sni);
    OrElse(LastFor(regs, port, Exact(sni)),
           OrElse(if parent.Some? then LastFor(regs, port, Wildcard(parent.value)) else None,
                  LastFor(regs, port, CatchAll)))
  }

  /** `LastFor` is the configuration of the last call for that port and pattern. */
  lemma {:induction false} LastForIsLast<C>(regs: seq<Registration<C>>, port: nat, p: Pattern)
    ensures LastFor(regs, port, p).None? <==> forall r :: r in regs ==> !IsFor(r, port, p)
    ensures LastFor(regs, port, p).Some? ==>
            exists i :: 0 <= i < |regs| && IsFor(regs[i], port, p) && LastFor(regs, port, p) == Some(regs[i].cfg)
                        && forall j :: i < j < |regs| ==> !IsFor(regs[j], port, p)
  {
    if regs != [] {
      var n := |regs| - 1;
      var front, last := regs[..n], regs[n];
      assert last in regs;
      if !IsFor(last, port, p) {
        LastForIsLast(front, port, p);
        assert forall r :: r in regs <==> r in front || r == last;
        if LastFor(front, port, p).Some? {
          var i :| 0 <= i < |front| && IsFor(front[i], port, p) && LastFor(front, port, p) == Some(front[i].cfg)
                   && forall j :: i < j < |front| ==> !IsFor(front[j], port, p);
          assert forall j :: i < j < |regs| ==> (j < n ==> regs[j] == front[j]) && !IsFor(regs[j], port, p);
          assert IsFor(regs[i], port, p);
        }
      }
    }
  }

  function OnPort<C>(regs: seq<Registration<C>>, port: nat): seq<Registration<C>> {
    if regs == [] then []
    else OnPort(regs[..|regs| - 1], port) + (if regs[|regs| - 1].port == port then [regs[|regs| - 1]] else [])
  }

  lemma {:induction false} LastForOnPort<C>(regs: seq<Registration<C>>, port: nat, p: Pattern)
    ensures LastFor(OnPort(regs, port), port, p) == LastFor(regs, port, p)
  {
    if regs != [] {
      var front, last := regs[..|regs| - 1], regs[|regs| - 1];
      LastForOnPort(front, port, p);
      var kept := OnPort(front, port);
      assert (kept + [last])[..|kept|] == kept && kept + [] == kept;
    }
  }

  // -------------------------------------------------------------- the builder

  ghost predicate Mirrors<C>(regs: seq<Registration<C>>, port: nat, b: PortBucket<C>) {
    && (forall h :: Lookup(b.exact, h) == LastFor(regs, port, Exact(h)))
    && (forall s :: Lookup(b.wildcard, s) == LastFor(regs, port, Wildcard(s)))
    && b.fallback == LastFor(regs, port, CatchAll)
  }

  /** The source's `entry(port).or_default()`. */
  function BucketAt<C>(byPort: map<nat, PortBucket<C>>, port: nat): PortBucket<C> {
    if port in byPort then byPort[port] else PortBucket(map[], map[], None)
  }

  function Overwrite<C>(b: PortBucket<C>, p: Pattern, cfg: C): PortBucket<C> {
    match p
    case CatchAll => b.(fallback := Some(cfg))
    case Wildcard(s) => b.(wildcard := b.wildcard[s := cfg])
    case Exact(h) => b.(exact := b.exact[h := cfg])
  }

  lemma OverwriteMirrors<C>(regs: seq<Registration<C>>, port: nat, b: PortBucket<C>, r: Registration<C>)
    requires Mirrors(regs, port, b)
    ensures Mirrors(regs + [r], port, if r.port == port then Overwrite(b, r.pattern, r.cfg) else b)
  {
    assert (regs + [r])[..|regs|] == regs;
    var b' := if r.port == port then Overwrite(b, r.pattern, r.cfg) else b;
    forall h ensures Lookup(b'.exact, h) == LastFor(regs + [r], port, Exact(h)) {
      assert Lookup(b.exact, h) == LastFor(regs, port, Exact(h));
    }
    forall s ensures Lookup(b'.wildcard, s) == LastFor(regs + [r], port, Wildcard(s)) {
      assert Lookup(b.wildcard, s) == LastFor(regs, port, Wildcard(s));
    }
  }

  /** What `build` may make of one port's bucket. */
  ghost predicate Compiles<C(!new)>(b: PortBucket<C>, c: PortConfigs<C>) {
    && c.exact == b.exact
    && ListsMap(b.wildcard, c.wildcard) && Sorted(LongestFirst<C>, c.wildcard)
    && c.fallback == b.fallback
  }

  ghost predicate IsStoreOf<C(!new)>(regs: seq<Registration<C>>, store: ClientCertStore<C>) {
    forall port: nat ::
      if port in store then exists b :: Mirrors(regs, port, b) && Compiles(b, store[port])
      else Mirrors(regs, port, PortBucket(map[], map[], None))
  }

  lemma CompiledLookup<C(!new)>(regs: seq<Registration<C>>, port: nat, b: PortBucket<C>, c: PortConfigs<C>, sni: string)
    requires Mirrors(regs, port, b) && Compiles(b, c)
    ensures FindOnPort(c, sni) == Rule(regs, port, sni)
  {
    ScanIsLookup(b.wildcard, c.wildcard, sni);
    assert Lookup(b.exact, sni) == LastFor(regs, port, Exact(sni));
    var parent := ParentDomain(sni);
    if parent.Some? {
      assert Lookup(b.wildcard, parent.value) == LastFor(regs, port, Wildcard(parent.value));
    }
  }

  /** Every store the builder may return answers by the direct rule, reading that port's calls only. */
  lemma LookupFollowsTheRule<C(!new)>(regs: seq<Registration<C>>, store: ClientCertStore<C>, port: nat, sni: string)
    requires IsStoreOf(regs, store)
    ensures FindConfig(store, port, sni) == Rule(regs, port, sni)
    ensures Rule(regs, port, sni) == Rule(OnPort(regs, port), port, sni)
  {
    if port in store {
      var b :| Mirrors(regs, port, b) && Compiles(b, store[port]);
      CompiledLookup(regs, port, b, store[port], sni);
    } else {
      var none: PortConfigs<C> := PortConfigs(map[], [], None);
      CompiledLookup(regs, port, PortBucket(map[], map[], None), none, sni);
    }
    LastForOnPort(regs, port, Exact(sni));
    LastForOnPort(regs, port, CatchAll);
    if ParentDomain(sni).Some? {
      LastForOnPort(regs, port, Wildcard(ParentDomain(sni).value));
    }
  }

  class ClientCertStoreBuilder<C(!new)> {
    var byPort: map<nat, PortBucket<C>>
    ghost var regs: seq<Registration<C>>

    ghost predicate Valid()
      reads this
    {
      forall port: nat :: Mirrors(regs, port, BucketAt(byPort, port))
    }

    constructor ()
      ensures Valid() && regs == []
    {
      byPort, regs := map[], [];
    }

    method AddClientCert(port: nat, hostPattern: string, cfg: C)
      requires Valid()
      modifies this
      ensures Valid()
      ensures regs == old(regs) + [Registration(port, Classify(hostPattern), cfg)]
    {
      ghost var r := Registration(port, Classify(hostPattern), cfg);
      ghost var before := byPort;
      var b := BucketAt(byPort, port);
      if hostPattern == "" || hostPattern == "*" {
        b := b.(fallback := Some(cfg));
      } else {
        var suffix := StripPrefix(hostPattern, "*.");
        if suffix.Some? {
          b := b.(wildcard := b.wildcard[suffix.value := cfg]);
        } else {
          b := b.(exact := b.exact[hostPattern := cfg]);
        }
      }
      assert b == Overwrite(BucketAt(before, port), r.pattern, cfg);
      byPort := byPort[port := b];
      forall q: nat ensures Mirrors(regs + [r], q, BucketAt(byPort, q)) {
        OverwriteMirrors(regs, q, BucketAt(before, q), r);
      }
      regs := regs + [r];
    }

    method Build() returns (store: ClientCertStore<C>)
      requires Valid()
      ensures IsStoreOf(regs, store)
    {
      store := CompileAll(byPort);
      forall port: nat
        ensures if port in store then exists b :: Mirrors(regs, port, b) && Compiles(b, store[port])
                else Mirrors(regs, port, PortBucket(map[], map[], None))
      {
        assert Mirrors(regs, port, BucketAt(byPort, port));
        assert port in store ==> Compiles(BucketAt(byPort, port), store[port]);
      }
    }
  }

  method CompileAll<C(!new)>(byPort: map<nat, PortBucket<C>>) returns (store: ClientCertStore<C>)
    ensures store.Keys == byPort.Keys
    ensures forall port :: port in byPort ==> Compiles(byPort[port], store[port])
  {
    store := map[];
    var todo := byPort.Keys;
    while todo != {}
      invariant todo <= byPort.Keys && store.Keys == byPort.Keys - todo
      invariant forall port :: port in store ==> Compiles(byPort[port], store[port])
      decreases |todo|
    {
      var port :| port in todo;
      var wildcard := SortedEntries(byPort[port].wildcard);
      store := store[port := PortConfigs(byPort[port].exact, wildcard, byPort[port].fallback)];
      todo := todo - {port};
    }
  }
}
