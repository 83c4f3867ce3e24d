/** The mutable builder behind the certificate store. */
module CertStoreBuilder {
  import opened StableSort
  import opened StringOps
  import opened HostPatterns
  import opened WildcardLists
  import opened CertLists
  import opened CertStore

  type CertMap = map<string, seq<TlsCert>>

  function AsIs(s: seq<TlsCert>): seq<TlsCert> { s }

  /** The source's `entry(k).or_default().push(cert)`. */
  function Push(m: CertMap, k: string, cert: TlsCert): CertMap {
    m[k := (if k in m then m[k] else []) + [cert]]
  }

  lemma PushHolds(regs: seq<Registration>, m: CertMap, kind: string -> Pattern, k: string, cert: TlsCert)
    requires Holds(regs, m, kind, AsIs)
    requires forall h, h' :: kind(h) == kind(h') ==> h == h'
    ensures Holds(regs + [Registration(kind(k), cert)], Push(m, k, cert), kind, AsIs)
  {
    var r := Registration(kind(k), cert);
    assert (regs + [r])[..|regs|] == regs;
    forall h ensures Bucket(regs + [r], kind(h)) == Bucket(regs, kind(h)) + (if h == k then [cert] else []) {
    }
  }

  lemma OtherHolds(regs: seq<Registration>, m: CertMap, kind: string -> Pattern, r: Registration)
    requires Holds(regs, m, kind, AsIs)
    requires forall h :: kind(h) != r.pattern
    ensures Holds(regs + [r], m, kind, AsIs)
  {
    assert (regs + [r])[..|regs|] == regs;
    forall h ensures Bucket(regs + [r], kind(h)) == Bucket(regs, kind(h)) {
    }
  }

  /** The builder's maps are the buckets of the registrations so far. */
  ghost predicate HoldsAll(regs: seq<Registration>, exact: CertMap, wildcard: CertMap, fallback: seq<TlsCert>) {
    && Holds(regs, exact, ExactKey, AsIs)
    && Holds(regs, wildcard, WildcardKey, AsIs)
    && fallback == Bucket(regs, CatchAll)
  }

  lemma CatchAllHolds(regs: seq<Registration>, exact: CertMap, wildcard: CertMap, fallback: seq<TlsCert>,
                      cert: TlsCert)
    requires HoldsAll(regs, exact, wildcard, fallback)
    ensures HoldsAll(regs + [Registration(CatchAll, cert)], exact, wildcard, fallback + [cert])
  {
    var r := Registration(CatchAll, cert);
    OtherHolds(regs, exact, ExactKey, r);
    OtherHolds(regs, wildcard, WildcardKey, r);
    assert (regs + [r])[..|regs|] == regs;
  }

  lemma WildcardHolds(regs: seq<Registration>, exact: CertMap, wildcard: CertMap, fallback: seq<TlsCert>,
                      suffix: string, cert: TlsCert)
    requires HoldsAll(regs, exact, wildcard, fallback)
    ensures HoldsAll(regs + [Registration(Wildcard(suffix), cert)], exact, Push(wildcard, suffix, cert), fallback)
  {
    var r := Registration(Wildcard(suffix), cert);
    OtherHolds(regs, exact, ExactKey, r);
    PushHolds(regs, wildcard, WildcardKey, suffix, cert);
    assert (regs + [r])[..|regs|] == regs;
  }

  lemma ExactHolds(regs: seq<Registration>, exact: CertMap, wildcard: CertMap, fallback: seq<TlsCert>,
                   name: string, cert: TlsCert)
    requires HoldsAll(regs, exact, wildcard, fallback)
    ensures HoldsAll(regs + [Registration(Exact(name), cert)], Push(exact, name, cert), wildcard, fallback)
  {
    var r := Registration(Exact(name), cert);
    PushHolds(regs, exact, ExactKey, name, cert);
    OtherHolds(regs, wildcard, WildcardKey, r);
    assert (regs + [r])[..|regs|] == regs;
  }

  method CanonVec(certs: seq<TlsCert>) returns (r: seq<TlsCert>)
    ensures r == Canon(certs)
  {
    var d := DedupCertVec(certs);
    r := Sort(CertLeq, d);
  }

  /** Every list of the map, in canonical form, visited in any order. */
  method CanonMap(m: CertMap) returns (r: CertMap)
    ensures r.Keys == m.Keys && forall h :: h in m ==> r[h] == Canon(m[h])
  {
    r := map[];
    var todo := m.Keys;
    while todo != {}
      invariant todo <= m.Keys && r.Keys == m.Keys - todo
      invariant forall h :: h in r ==> r[h] == Canon(m[h])
      decreases |todo|
    {
      var h :| h in todo;
      var certs := CanonVec(m[h]);
      r := r[h := certs];
      todo := todo - {h};
    }
  }

  /** The sorted entries of the canonical wildcard map hold the wildcard buckets. */
  lemma SortedEntriesHold(regs: seq<Registration>, wildcard: CertMap, canon: CertMap, w: seq<(string, seq<TlsCert>)>)
    requires Holds(regs, wildcard, WildcardKey, AsIs)
    requires canon.Keys == wildcard.Keys && forall h :: h in wildcard ==> canon[h] == Canon(wildcard[h])
    requires ListsMap(canon, w) && Sorted(LongestFirst<seq<TlsCert>>, w)
    ensures HoldsWildcards(regs, w)
  {
    forall suffix | Bucket(regs, Wildcard(suffix)) != [] ensures exists e :: e in w && e.0 == suffix {
      assert Bucket(regs, WildcardKey(suffix)) != [];
      assert (suffix, canon[suffix]) in w;
    }
    forall e | e in w
      ensures Bucket(regs, Wildcard(e.0)) != [] && e.1 == Canon(Bucket(regs, Wildcard(e.0)))
    {
      assert e.0 in wildcard;
    }
  }

  class TlsStoreBuilder {
    var exact: CertMap
    var wildcard: CertMap
    var fallback: seq<TlsCert>
    ghost var regs: seq<Registration>

    ghost predicate Valid()
      reads this
    {
      HoldsAll(regs, exact, wildcard, fallback)
    }

    constructor ()
      ensures Valid() && regs == []
    {
      exact, wildcard, fallback, regs := map[], map[], [], [];
    }

    method AddCert(hostPattern: string, cert: TlsCert)
      requires Valid()
      modifies this
      ensures Valid()
      ensures regs == old(regs) + [Registration(Classify(hostPattern), cert)]
    {
      ghost var r := Registration(Classify(hostPattern), cert);
      if hostPattern == "" || hostPattern == "*" {
        CatchAllHolds(regs, exact, wildcard, fallback, cert);
        fallback := fallback + [cert];
      } else {
        var suffix := StripPrefix(hostPattern, "*.");
        if suffix.Some? {
          WildcardHolds(regs, exact, wildcard, fallback, suffix.value, cert);
          wildcard := Push(wildcard, suffix.value, cert);
        } else {
          ExactHolds(regs, exact, wildcard, fallback, hostPattern, cert);
          exact := Push(exact, hostPattern, cert);
        }
      }
      regs := regs + [r];
    }

    /** Whatever order the maps are walked in, the result serves by the direct rule. */
    method Build() returns (store: TlsStore)
      requires Valid()
      ensures IsStoreOf(regs, store)
    {
      var exactCanon := CanonMap(exact);
      var wildcardCanon := CanonMap(wildcard);
      var entries := SortedEntries(wildcardCanon);
      SortedEntriesHold(regs, wildcard, wildcardCanon, entries);
      var fallbackCanon := CanonVec(fallback);
      store := TlsStore(exactCanon, entries, fallbackCanon);
    }
  }
}
