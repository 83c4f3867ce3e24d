/** The SNI certificate store and its builder. */
module CertStore {
  import opened Options
  import opened StableSort
  import opened ListFacts
  import opened HostPatterns
  import opened WildcardLists
  import opened CertLists

  /** One `add_cert` call, its host pattern classified. */
  datatype Registration = Registration(pattern: Pattern, cert: TlsCert)

  /** The certificates registered under one pattern, in call order. */
  function Bucket(regs: seq<Registration>, p: Pattern): seq<TlsCert> {
    if regs == [] then []
    else
      var last := regs[|regs| - 1];
      Bucket(regs[..|regs| - 1], p) + Own(last, p)
  }

  function Own(r: Registration, p: Pattern): seq<TlsCert> {
    if r.pattern == p then [r.cert] else []
  }

  datatype TlsStore = TlsStore(
    exact: map<string, seq<TlsCert>>,
    wildcard: seq<(string, seq<TlsCert>)>,
    fallback: seq<TlsCert>)

  // ------------------------------------------------------------------ lookups

  function FindCerts(store: TlsStore, sni: string): seq<TlsCert> {
    if sni in store.exact then store.exact[sni]
    else GetOr(FirstMatch(store.wildcard, sni), store.fallback)
  }

  predicate HasSpecificCert(store: TlsStore, sni: string) {
    || (sni in store.exact && store.exact[sni] != [])
    || exists w :: w in store.wildcard && w.1 != [] && WildcardMatches(sni, w.0)
  }

  // ---------------------------------------------------------- the direct rule

  /** The pattern that serves `sni`: its own name, else its parent's wildcard, else the catch-all. */
  function ServingPattern(regs: seq<Registration>, sni: string): Pattern {
    if Bucket(regs, Exact(sni)) != [] then Exact(sni)
    else
      var parent := ParentDomain(sni);
      if parent.Some? && Bucket(regs, Wildcard(parent.value)) != [] then Wildcard(parent.value)
      else CatchAll
  }

  function ExactKey(h: string): Pattern { Exact(h) }

  function WildcardKey(suffix: string): Pattern { Wildcard(suffix) }

  /** `m` holds exactly the non-empty buckets `kind` selects, passed through `f`. */
  ghost predicate Holds(regs: seq<Registration>, m: map<string, seq<TlsCert>>,
                        kind: string -> Pattern, f: seq<TlsCert> -> seq<TlsCert>) {
    forall h :: (h in m <==> Bucket(regs, kind(h)) != []) && (h in m ==> m[h] == f(Bucket(regs, kind(h))))
  }

  /** The wildcard list holds each non-empty wildcard bucket once, longest suffix first. */
  ghost predicate HoldsWildcards(regs: seq<Registration>, wildcard: seq<(string, seq<TlsCert>)>) {
    && (forall w :: w in wildcard ==>
          Bucket(regs, Wildcard(w.0)) != [] && w.1 == Canon(Bucket(regs, Wildcard(w.0))))
    && (forall suffix :: Bucket(regs, Wildcard(suffix)) != [] ==> exists w :: w in wildcard && w.0 == suffix)
    && (forall i, j :: 0 <= i < j < |wildcard| ==> wildcard[i].0 != wildcard[j].0)
    && Sorted(LongestFirst<seq<TlsCert>>, wildcard)
  }

  /** What `build` may return after the calls `regs`: the hash maps leave ties among wildcards open. */
  ghost predicate IsStoreOf(regs: seq<Registration>, store: TlsStore) {
    && Holds(regs, store.exact, ExactKey, Canon)
    && HoldsWildcards(regs, store.wildcard)
    && store.fallback == Canon(Bucket(regs, CatchAll))
  }

  /** Every store the builder may return serves an SNI by the direct rule. */
  lemma LookupFollowsTheRule(regs: seq<Registration>, store: TlsStore, sni: string)
    requires IsStoreOf(regs, store)
    ensures FindCerts(store, sni) == Canon(Bucket(regs, ServingPattern(regs, sni)))
    ensures HasSpecificCert(store, sni) <==> ServingPattern(regs, sni) != CatchAll
  {
    FirstMatchIsParent(store.wildcard, sni);
    forall w | w in store.wildcard
      ensures WildcardMatches(sni, w.0) <==> ParentDomain(sni) == Some(w.0)
      ensures w.1 != []
    {
      OnlyTheParentMatches(sni, w.0);
      CanonForm(Bucket(regs, Wildcard(w.0)));
    }
    CanonForm(Bucket(regs, Exact(sni)));
  }

  // ------------------------------------------------------ registration order

  lemma {:induction false} BucketConcat(a: seq<Registration>, b: seq<Registration>, p: Pattern)
    ensures Bucket(a + b, p) == Bucket(a, p) + Bucket(b, p)
  {
    if b == [] {
      assert a + b == a;
    } else {
      assert (a + b)[..|a + b| - 1] == a + b[..|b| - 1];
      BucketConcat(a, b[..|b| - 1], p);
    }
  }

  lemma BucketSingle(r: Registration, p: Pattern)
    ensures Bucket([r], p) == Own(r, p)
  {
    assert [r][..0] == [];
  }

  /** A call taken out of a list, and what that takes out of a bucket. */
  lemma TakeOut(regs: seq<Registration>, k: nat, p: Pattern) returns (rest: seq<Registration>)
    requires k < |regs|
    ensures |rest| == |regs| - 1
    ensures multiset(regs) == multiset{regs[k]} + multiset(rest)
    ensures multiset(Bucket(regs, p)) == multiset(Own(regs[k], p)) + multiset(Bucket(rest, p))
  {
    var a, b := regs[..k], regs[k + 1..];
    rest := a + b;
    assert regs == a + ([regs[k]] + b);
    BucketConcat(a, b, p);
    BucketConcat(a, [regs[k]] + b, p);
    BucketConcat([regs[k]], b, p);
    BucketSingle(regs[k], p);
  }

  lemma SameRest<T>(x: T, a: multiset<T>, b: multiset<T>)
    requires multiset{x} + a == multiset{x} + b
    ensures a == b
  {
    assert a == (multiset{x} + a) - multiset{x};
    assert b == (multiset{x} + b) - multiset{x};
  }

  lemma {:induction false} BucketPermutes(regs: seq<Registration>, regs': seq<Registration>, p: Pattern)
    requires multiset(regs) == multiset(regs')
    ensures multiset(Bucket(regs, p)) == multiset(Bucket(regs', p))
    decreases |regs|
  {
    if regs == [] {
      assert |multiset(regs')| == |regs'|;
      assert regs' == [];
    } else {
      var rest := TakeOut(regs, 0, p);
      assert regs[0] in multiset(regs');
      var k :| 0 <= k < |regs'| && regs'[k] == regs[0];
      var rest' := TakeOut(regs', k, p);
      SameRest(regs[0], multiset(rest), multiset(rest'));
      BucketPermutes(rest, rest', p);
    }
  }

  lemma ServingPatternPermutes(regs: seq<Registration>, regs': seq<Registration>, sni: string)
    requires multiset(regs) == multiset(regs')
    ensures ServingPattern(regs, sni) == ServingPattern(regs', sni)
  {
    forall p ensures Bucket(regs, p) == [] <==> Bucket(regs', p) == [] {
      BucketPermutes(regs, regs', p);
      assert |multiset(Bucket(regs, p))| == |Bucket(regs, p)|;
      assert |multiset(Bucket(regs', p))| == |Bucket(regs', p)|;
    }
  }

  /** The PEM sequence served for `sni` after the calls `regs`. */
  function Served(regs: seq<Registration>, sni: string): seq<Pem> {
    Pems(Canon(Bucket(regs, ServingPattern(regs, sni))))
  }

  lemma {:induction false} BucketMember(regs: seq<Registration>, p: Pattern, c: TlsCert)
    requires c in Bucket(regs, p)
    ensures exists r :: r in regs && r.pattern == p && r.cert == c
  {
    var front, last := regs[..|regs| - 1], regs[|regs| - 1];
    if last.pattern == p && last.cert == c {
      assert last in regs;
    } else {
      BucketMember(front, p, c);
      var r :| r in front && r.pattern == p && r.cert == c;
      assert r in regs;
    }
  }

  lemma LeadingTwo(rx: Registration, ry: Registration, rest: seq<Registration>, p: Pattern)
    requires rx.pattern == p && ry.pattern == p
    ensures Bucket([rx, ry] + rest, p) == [rx.cert, ry.cert] + Bucket(rest, p)
  {
    assert [rx, ry] + rest == [rx] + ([ry] + rest);
    BucketConcat([rx], [ry] + rest, p);
    BucketConcat([ry], rest, p);
    BucketSingle(rx, p);
    BucketSingle(ry, p);
  }

  lemma Remove(regs: seq<Registration>, r: Registration) returns (rest: seq<Registration>)
    requires r in regs
    ensures multiset(regs) == multiset{r} + multiset(rest)
  {
    var k :| 0 <= k < |regs| && regs[k] == r;
    rest := regs[..k] + regs[k + 1..];
    assert regs == regs[..k] + ([r] + regs[k + 1..]);
  }

  lemma TwoInFront(regs: seq<Registration>, rx: Registration, ry: Registration) returns (rest: seq<Registration>)
    requires rx in regs && ry in regs && rx != ry
    ensures multiset([rx, ry] + rest) == multiset(regs)
  {
    var others := Remove(regs, rx);
    assert ry in multiset(regs);
    assert ry in multiset(others);
    rest := Remove(others, ry);
  }

  /** Calls can be reordered so that two certificates of one pattern come first. */
  lemma ReorderCalls(regs: seq<Registration>, p: Pattern, x: TlsCert, y: TlsCert) returns (regs': seq<Registration>)
    requires x in Bucket(regs, p) && y in Bucket(regs, p) && x.pem != y.pem && CertLeq(x, y)
    ensures multiset(regs') == multiset(regs)
    ensures Precedes(Pems(Canon(Bucket(regs', p))), x.pem, y.pem)
  {
    BucketMember(regs, p, x);
    BucketMember(regs, p, y);
    var rx :| rx in regs && rx.pattern == p && rx.cert == x;
    var ry :| ry in regs && ry.pattern == p && ry.cert == y;
    var rest := TwoInFront(regs, rx, ry);
    regs' := [rx, ry] + rest;
    LeadingTwo(rx, ry, rest, p);
    FirstTwo(x, y, Bucket(rest, p));
  }

  /** No reordering of the calls changes what is served for `sni`. */
  ghost predicate ServedWhateverTheOrder(regs: seq<Registration>, sni: string) {
    forall regs': seq<Registration> :: multiset(regs') == multiset(regs) ==> Served(regs', sni) == Served(regs, sni)
  }

  lemma ConsistentWhenUnambiguous(regs: seq<Registration>, sni: string)
    requires Unambiguous(Bucket(regs, ServingPattern(regs, sni)))
    ensures ServedWhateverTheOrder(regs, sni)
  {
    var p := ServingPattern(regs, sni);
    UnambiguousIsOrderFree(Bucket(regs, p));
    forall regs': seq<Registration> | multiset(regs') == multiset(regs)
      ensures Served(regs', sni) == Served(regs, sni)
    {
      ServingPatternPermutes(regs, regs', sni);
      BucketPermutes(regs, regs', p);
    }
  }

  lemma MustPrecede(regs: seq<Registration>, sni: string, a: Pem, b: Pem)
    requires ServedWhateverTheOrder(regs, sni)
    requires a != b && CanPrecede(Bucket(regs, ServingPattern(regs, sni)), a, b)
    ensures Precedes(Served(regs, sni), a, b)
  {
    var p := ServingPattern(regs, sni);
    var s := Bucket(regs, p);
    var x, y :| x in s && y in s && x.pem == a && y.pem == b && CertLeq(x, y);
    var r := ReorderCalls(regs, p, x, y);
    ServingPatternPermutes(regs, r, sni);
  }

  lemma OrderFreeShowsUnambiguous(regs: seq<Registration>, sni: string)
    requires ServedWhateverTheOrder(regs, sni)
    ensures Unambiguous(Bucket(regs, ServingPattern(regs, sni)))
  {
    var s := Bucket(regs, ServingPattern(regs, sni));
    CanonForm(s);
    forall a, b | a != b && CanPrecede(s, a, b) ensures !CanPrecede(s, b, a) {
      MustPrecede(regs, sni, a, b);
      if CanPrecede(s, b, a) {
        MustPrecede(regs, sni, b, a);
        NotBothWays(Served(regs, sni), a, b);
      }
    }
  }

  /** What is served for `sni` is independent of the order of calls exactly when its bucket is unambiguous. */
  lemma ServedIndependentOfOrderIff(regs: seq<Registration>, sni: string)
    ensures ServedWhateverTheOrder(regs, sni) <==> Unambiguous(Bucket(regs, ServingPattern(regs, sni)))
  {
    if Unambiguous(Bucket(regs, ServingPattern(regs, sni))) {
      ConsistentWhenUnambiguous(regs, sni);
    }
    if ServedWhateverTheOrder(regs, sni) {
      OrderFreeShowsUnambiguous(regs, sni);
    }
  }

  // -------------------------------------------------------------------- count

  /** The distinct (pattern, PEM pair) combinations registered. */
  ghost function Pairs(regs: seq<Registration>): set<(Pattern, Pem)> {
    set r | r in regs :: (r.pattern, r.cert.pem)
  }

  ghost function PairsIn(regs: seq<Registration>, ps: set<Pattern>): set<(Pattern, Pem)> {
    set x | x in Pairs(regs) && x.0 in ps
  }

  lemma {:induction false} BucketHasPem(regs: seq<Registration>, p: Pattern, pem: Pem)
    ensures HasPem(Bucket(regs, p), pem) <==> (p, pem) in Pairs(regs)
  {
    if regs != [] {
      var front, last := regs[..|regs| - 1], regs[|regs| - 1];
      BucketHasPem(front, p, pem);
      assert regs == front + [last];
      assert (p, pem) in Pairs(regs) <==> (p, pem) in Pairs(front) || (p, pem) == (last.pattern, last.cert.pem);
      var b := Bucket(front, p);
      assert HasPem(b + [last.cert], pem) <==> HasPem(b, pem) || last.cert.pem == pem;
    }
  }

  lemma {:induction false} TaggedCount(p: Pattern, w: seq<Pem>, members: set<(Pattern, Pem)>)
    requires NoRepeats(w) && forall x :: x in members <==> x.0 == p && x.1 in w
    ensures |members| == |w|
  {
    if w == [] {
      assert members == {};
    } else {
      var front, last := w[..|w| - 1], w[|w| - 1];
      assert w == front + [last];
      assert (p, last) in members && last !in front;
      TaggedCount(p, front, members - {(p, last)});
    }
  }

  lemma PairsOfOnePattern(regs: seq<Registration>, p: Pattern)
    ensures |PairsIn(regs, {p})| == |Canon(Bucket(regs, p))|
  {
    var w := Pems(Canon(Bucket(regs, p)));
    CanonForm(Bucket(regs, p));
    forall x ensures x in PairsIn(regs, {p}) <==> x.0 == p && x.1 in w {
      BucketHasPem(regs, p, x.1);
    }
    TaggedCount(p, w, PairsIn(regs, {p}));
  }

  lemma CountOneMore(regs: seq<Registration>, ps: set<Pattern>, p: Pattern)
    requires p !in ps
    ensures |PairsIn(regs, ps + {p})| == |PairsIn(regs, ps)| + |Canon(Bucket(regs, p))|
  {
    PairsOfOnePattern(regs, p);
    assert PairsIn(regs, ps + {p}) == PairsIn(regs, ps) + PairsIn(regs, {p});
    assert PairsIn(regs, ps) !! PairsIn(regs, {p});
  }

  lemma AllCounted(regs: seq<Registration>, ps: set<Pattern>)
    requires forall p :: Bucket(regs, p) != [] ==> p in ps
    ensures PairsIn(regs, ps) == Pairs(regs)
  {
    forall x | x in Pairs(regs) ensures x.0 in ps {
      BucketHasPem(regs, x.0, x.1);
    }
  }

  ghost function Total(regs: seq<Registration>, ps: set<Pattern>): nat {
    |PairsIn(regs, ps)|
  }

  lemma ExactStep(regs: seq<Registration>, store: TlsStore, ps: set<Pattern>, h: string)
    requires IsStoreOf(regs, store) && h in store.exact && Exact(h) !in ps
    ensures Total(regs, ps + {Exact(h)}) == Total(regs, ps) + |store.exact[h]|
  {
    CountOneMore(regs, ps, Exact(h));
  }

  lemma WildcardStep(regs: seq<Registration>, store: TlsStore, ps: set<Pattern>, i: nat)
    requires IsStoreOf(regs, store) && i < |store.wildcard| && Wildcard(store.wildcard[i].0) !in ps
    ensures Total(regs, ps + {Wildcard(store.wildcard[i].0)}) == Total(regs, ps) + |store.wildcard[i].1|
  {
    assert store.wildcard[i] in store.wildcard;
    CountOneMore(regs, ps, Wildcard(store.wildcard[i].0));
  }

  /** The patterns of the exact entries outside `todo`. */
  ghost function ExactSeen(store: TlsStore, todo: set<string>): set<Pattern> {
    set h | h in store.exact && h !in todo :: Exact(h)
  }

  ghost function WildcardSeen(store: TlsStore, i: nat): set<Pattern>
    requires i <= |store.wildcard|
  {
    set k | 0 <= k < i :: Wildcard(store.wildcard[k].0)
  }

  lemma SeenStep(store: TlsStore, todo: set<string>, h: string)
    requires h in todo && h in store.exact
    ensures ExactSeen(store, todo - {h}) == ExactSeen(store, todo) + {Exact(h)}
    ensures Exact(h) !in ExactSeen(store, todo)
  {
  }

  /** The patterns of every exact entry and of the first `i` wildcard entries. */
  ghost function Seen(store: TlsStore, i: nat): set<Pattern>
    requires i <= |store.wildcard|
  {
    ExactSeen(store, {}) + WildcardSeen(store, i)
  }

  lemma SeenAll(regs: seq<Registration>, store: TlsStore)
    requires IsStoreOf(regs, store)
    ensures Total(regs, Seen(store, |store.wildcard|)) + |store.fallback| == |Pairs(regs)|
  {
    var ps := Seen(store, |store.wildcard|);
    CountOneMore(regs, ps, CatchAll);
    forall p | Bucket(regs, p) != [] ensures p in ps + {CatchAll} {
      if p.Wildcard? {
        var w :| w in store.wildcard && w.0 == p.suffix;
        var k :| 0 <= k < |store.wildcard| && store.wildcard[k] == w;
      } else if p.Exact? {
        assert p.host in store.exact;
      }
    }
    AllCounted(regs, ps + {CatchAll});
  }

  method CountExact(store: TlsStore, ghost regs: seq<Registration>) returns (n: nat)
    requires IsStoreOf(regs, store)
    ensures n == Total(regs, ExactSeen(store, {}))
  {
    n := 0;
    var todo := store.exact.Keys;
    assert ExactSeen(store, todo) == {};
    assert PairsIn(regs, {}) == {};
    while todo != {}
      invariant todo <= store.exact.Keys
      invariant n == Total(regs, ExactSeen(store, todo))
      decreases |todo|
    {
      var h :| h in todo;
      SeenStep(store, todo, h);
      ExactStep(regs, store, ExactSeen(store, todo), h);
      n := n + |store.exact[h]|;
      todo := todo - {h};
    }
  }

  function SumLens(wildcard: seq<(string, seq<TlsCert>)>): nat {
    if wildcard == [] then 0
    else SumLens(wildcard[..|wildcard| - 1]) + |wildcard[|wildcard| - 1].1|
  }

  lemma WildcardUnseen(regs: seq<Registration>, store: TlsStore, i: nat)
    requires IsStoreOf(regs, store) && i < |store.wildcard|
    ensures Wildcard(store.wildcard[i].0) !in Seen(store, i)
    ensures Seen(store, i + 1) == Seen(store, i) + {Wildcard(store.wildcard[i].0)}
  {
  }

  lemma WildcardTotalStep(regs: seq<Registration>, store: TlsStore, i: nat)
    requires IsStoreOf(regs, store) && i < |store.wildcard|
    ensures Total(regs, Seen(store, i + 1)) == Total(regs, Seen(store, i)) + |store.wildcard[i].1|
  {
    WildcardUnseen(regs, store, i);
    WildcardStep(regs, store, Seen(store, i), i);
  }

  lemma {:induction false} WildcardTotal(regs: seq<Registration>, store: TlsStore, i: nat)
    requires IsStoreOf(regs, store) && i <= |store.wildcard|
    ensures Total(regs, Seen(store, i)) == Total(regs, Seen(store, 0)) + SumLens(store.wildcard[..i])
  {
    if i > 0 {
      WildcardTotal(regs, store, i - 1);
      WildcardTotalStep(regs, store, i - 1);
      assert store.wildcard[..i][..i - 1] == store.wildcard[..i - 1];
    }
  }

  /** The stored certificates number the distinct PEM pairs of each pattern, added up. */
  method CertCount(store: TlsStore, ghost regs: seq<Registration>) returns (n: nat)
    requires IsStoreOf(regs, store)
    ensures n == |Pairs(regs)|
  {
    var exact := CountExact(store, regs);
    n := exact + SumLens(store.wildcard) + |store.fallback|;
    WildcardTotal(regs, store, |store.wildcard|);
    assert Seen(store, 0) == ExactSeen(store, {});
    assert store.wildcard[..|store.wildcard|] == store.wildcard;
    SeenAll(regs, store);
  }
}
