/** The certificates of one host pattern: deduplication, selection order, and canonical form. */
module CertLists {
  import opened Options
  import opened StableSort
  import opened ListFacts
  import StringOrder

  datatype KeyAlgorithm = Rsa | Ecdsa | Other

  /** The leaf and key PEM bytes: all that certificate equality looks at. */
  datatype Pem = Pem(cert: seq<bv8>, key: seq<bv8>)

  datatype TlsCert = TlsCert(pem: Pem, source: string, notAfter: Option<nat>, keyAlgorithm: KeyAlgorithm)

  function AlgoSortKey(a: KeyAlgorithm): nat {
    match a
    case Ecdsa => 0
    case Rsa => 1
    case Other => 2
  }

  /** `Option`'s derived order: absent below present. */
  predicate ExpiryLess(a: Option<nat>, b: Option<nat>) {
    b.Some? && (a.None? || a.value < b.value)
  }

  /** The comparator of the sort, as "not after". */
  predicate CertLeq(a: TlsCert, b: TlsCert) {
    var ka, kb := AlgoSortKey(a.keyAlgorithm), AlgoSortKey(b.keyAlgorithm);
    || ka < kb
    || (ka == kb && (|| ExpiryLess(b.notAfter, a.notAfter)
                     || (a.notAfter == b.notAfter && StringOrder.Leq(a.source, b.source))))
  }

  lemma CertOrder()
    ensures TotalPreorder(CertLeq)
  {
    forall a: TlsCert, b: TlsCert ensures CertLeq(a, b) || CertLeq(b, a) {
      StringOrder.LeqTotal(a.source, b.source);
    }
    forall a, b, c | CertLeq(a, b) && CertLeq(b, c) ensures CertLeq(a, c) {
      if StringOrder.Leq(a.source, b.source) && StringOrder.Leq(b.source, c.source) {
        StringOrder.LeqTransitive(a.source, b.source, c.source);
      }
    }
  }

  // ------------------------------------------------------------ deduplication

  predicate HasPem(s: seq<TlsCert>, p: Pem) {
    exists c :: c in s && c.pem == p
  }

  /** Keep a certificate unless an earlier one has the same PEM pair. */
  function Dedup(s: seq<TlsCert>): seq<TlsCert> {
    if s == [] then []
    else
      var front, last := s[..|s| - 1], s[|s| - 1];
      if HasPem(front, last.pem) then Dedup(front) else Dedup(front) + [last]
  }

  function Pems(s: seq<TlsCert>): seq<Pem> {
    seq(|s|, i requires 0 <= i < |s| => s[i].pem)
  }

  ghost predicate PemDistinct(s: seq<TlsCert>) {
    forall i, j :: 0 <= i < j < |s| ==> s[i].pem != s[j].pem
  }

  lemma {:induction false} DedupMembers(s: seq<TlsCert>)
    ensures forall c :: c in Dedup(s) ==> c in s
    ensures forall p :: HasPem(Dedup(s), p) <==> HasPem(s, p)
    ensures PemDistinct(Dedup(s))
  {
    if s != [] {
      var front, last := s[..|s| - 1], s[|s| - 1];
      DedupMembers(front);
      assert s == front + [last];
      var d := Dedup(front);
      forall p ensures HasPem(Dedup(s), p) <==> HasPem(s, p) {
        assert HasPem(s, p) <==> HasPem(front, p) || last.pem == p;
        assert HasPem(d + [last], p) <==> HasPem(d, p) || last.pem == p;
      }
      if !HasPem(front, last.pem) {
        assert forall i :: 0 <= i < |d| ==> d[i] in d && d[i].pem != last.pem;
      }
    }
  }

  ghost predicate IsFirst(s: seq<TlsCert>, i: int)
    requires 0 <= i < |s|
  {
    !HasPem(s[..i], s[i].pem)
  }

  ghost function Firsts(s: seq<TlsCert>): set<int> {
    set i | 0 <= i < |s| && IsFirst(s, i)
  }

  /** `r` is `s` read at the indices `ix`, which list the set `at` in ascending order. */
  ghost predicate Selects(s: seq<TlsCert>, r: seq<TlsCert>, ix: seq<int>, at: set<int>) {
    && |ix| == |r|
    && (forall t :: 0 <= t < |ix| ==> 0 <= ix[t] < |s| && r[t] == s[ix[t]])
    && (forall t, u :: 0 <= t < u < |ix| ==> ix[t] < ix[u])
    && (forall i :: i in at <==> i in ix)
  }

  lemma SelectsExtends(s: seq<TlsCert>, r: seq<TlsCert>, ix: seq<int>, at: set<int>)
    requires s != [] && Selects(s[..|s| - 1], r, ix, at)
    ensures Selects(s, r, ix, at)
    ensures Selects(s, r + [s[|s| - 1]], ix + [|s| - 1], at + {|s| - 1})
  {
  }

  lemma FirstsExtend(s: seq<TlsCert>)
    requires s != []
    ensures Firsts(s) == Firsts(s[..|s| - 1]) + (if IsFirst(s, |s| - 1) then {|s| - 1} else {})
  {
    var front := s[..|s| - 1];
    forall i | 0 <= i < |front| ensures IsFirst(front, i) <==> IsFirst(s, i) {
      assert front[..i] == s[..i];
    }
  }

  /** Deduplication keeps exactly the first occurrence of each PEM pair, in order. */
  lemma {:induction false} DedupKeepsFirsts(s: seq<TlsCert>) returns (ix: seq<int>)
    ensures Selects(s, Dedup(s), ix, Firsts(s))
  {
    if s == [] {
      ix := [];
    } else {
      ix := DedupKeepsFirsts(s[..|s| - 1]);
      SelectsExtends(s, Dedup(s[..|s| - 1]), ix, Firsts(s[..|s| - 1]));
      FirstsExtend(s);
      if IsFirst(s, |s| - 1) {
        ix := ix + [|s| - 1];
      }
    }
  }

  /** The in-place loop: removes element `i` when an earlier survivor equals it. */
  method DedupCertVec(input: seq<TlsCert>) returns (certs: seq<TlsCert>)
    ensures certs == Dedup(input)
  {
    certs := input;
    var i := 0;
    ghost var p := 0;
    while i < |certs|
      invariant 0 <= i <= |certs| && 0 <= p <= |input|
      invariant certs[..i] == Dedup(input[..p]) && certs[i..] == input[p..]
      decreases |certs| - i
    {
      assert input[..p + 1][..p] == input[..p];
      assert certs[i] == certs[i..][0] == input[p];
      DedupMembers(input[..p]);
      if HasPem(certs[..i], certs[i].pem) {
        assert certs[i + 1..] == certs[i..][1..];
        certs := certs[..i] + certs[i + 1..];
      } else {
        assert certs[..i + 1] == certs[..i] + [certs[i]];
        assert certs[i + 1..] == certs[i..][1..];
        i := i + 1;
      }
      p := p + 1;
    }
    assert |input[p..]| == 0;
    assert input[..p] == input;
  }

  // ----------------------------------------------------------- canonical form

  /** The list a pattern ends up with: deduplicated in registration order, then sorted. */
  function Canon(s: seq<TlsCert>): seq<TlsCert> {
    Sort(CertLeq, Dedup(s))
  }

  lemma DistinctHasPem(s: seq<TlsCert>, p: Pem)
    ensures HasPem(s, p) <==> p in Pems(s)
  {
    if HasPem(s, p) {
      var c :| c in s && c.pem == p;
      var i :| 0 <= i < |s| && s[i] == c;
      assert Pems(s)[i] == p;
    }
    if p in Pems(s) {
      var i :| 0 <= i < |s| && Pems(s)[i] == p;
      assert s[i] in s;
    }
  }

  /** Sorted, duplicate-free, and holding one registered certificate for each PEM pair. */
  lemma CanonForm(s: seq<TlsCert>)
    ensures Sorted(CertLeq, Canon(s))
    ensures multiset(Canon(s)) == multiset(Dedup(s)) && |Canon(s)| == |Dedup(s)|
    ensures forall c :: c in Canon(s) ==> c in s
    ensures forall p :: p in Pems(Canon(s)) <==> HasPem(s, p)
    ensures NoRepeats(Pems(Canon(s)))
    ensures Canon(s) == [] <==> s == []
  {
    var d, r := Dedup(s), Canon(s);
    CertOrder();
    SortSorts(CertLeq, d);
    SortPermutes(CertLeq, d);
    SortMembers(CertLeq, d);
    DedupMembers(s);
    forall p ensures p in Pems(r) <==> HasPem(s, p) {
      DistinctHasPem(r, p);
      assert HasPem(r, p) <==> HasPem(d, p);
    }
    PermutedKeysDistinct((c: TlsCert) => c.pem, d, r);
    if s != [] {
      assert HasPem(s, s[0].pem);
      assert HasPem(d, s[0].pem);
    }
  }

  // ------------------------------------------------- independence of call order

  /** Some registered copy of `p` sorts no later than some registered copy of `q`. */
  ghost predicate CanPrecede(s: seq<TlsCert>, p: Pem, q: Pem) {
    exists x, y :: x in s && y in s && x.pem == p && y.pem == q && CertLeq(x, y)
  }

  /** Of two different PEM pairs, the copies of one all sort strictly before the copies of the other. */
  ghost predicate Unambiguous(s: seq<TlsCert>) {
    forall p, q :: p != q && CanPrecede(s, p, q) ==> !CanPrecede(s, q, p)
  }

  /** No reordering of the registrations changes the PEM sequence. */
  ghost predicate OrderFree(s: seq<TlsCert>) {
    forall t: seq<TlsCert> :: multiset(t) == multiset(s) ==> Pems(Canon(t)) == Pems(Canon(s))
  }

  lemma CanonStrict(s: seq<TlsCert>, t: seq<TlsCert>)
    requires Unambiguous(s) && multiset(t) == multiset(s)
    ensures StrictlySorted((p, q) => CanPrecede(s, p, q), Pems(Canon(t)))
  {
    CanonForm(t);
    SameMembers(s, t);
    var u := Canon(t);
    var w := Pems(u);
    forall i, j | 0 <= i < j < |w| ensures CanPrecede(s, w[i], w[j]) && !CanPrecede(s, w[j], w[i]) {
      assert w[i] != w[j];
      assert u[i] in u && u[j] in u && CertLeq(u[i], u[j]);
    }
  }

  lemma UnambiguousIsOrderFree(s: seq<TlsCert>)
    requires Unambiguous(s)
    ensures OrderFree(s)
  {
    forall t: seq<TlsCert> | multiset(t) == multiset(s) ensures Pems(Canon(t)) == Pems(Canon(s)) {
      CanonStrict(s, t);
      CanonStrict(s, s);
      CanonForm(s);
      CanonForm(t);
      SameMembers(s, t);
      forall p ensures p in Pems(Canon(t)) <==> p in Pems(Canon(s)) {
        assert HasPem(t, p) <==> HasPem(s, p);
      }
      StrictlySortedUnique((p, q) => CanPrecede(s, p, q), Pems(Canon(t)), Pems(Canon(s)));
    }
  }

  function RemoveOne(s: seq<TlsCert>, x: TlsCert): (r: seq<TlsCert>)
    requires x in s
    ensures multiset(s) == multiset{x} + multiset(r)
  {
    assert s == [s[0]] + s[1..];
    if s[0] == x then s[1..] else [s[0]] + RemoveOne(s[1..], x)
  }

  /** Registering `x` and then `y` first puts the pair of `x` ahead of that of `y`. */
  lemma FirstTwo(x: TlsCert, y: TlsCert, rest: seq<TlsCert>)
    requires x.pem != y.pem && CertLeq(x, y)
    ensures Precedes(Pems(Canon([x, y] + rest)), x.pem, y.pem)
  {
    DedupPrefix(x, y, rest);
    var d := Dedup([x, y] + rest);
    SortStable(CertLeq, d, 0, 1);
    var r := Canon([x, y] + rest);
    var i, j :| 0 <= i < j < |r| && r[i] == x && r[j] == y;
    assert Pems(r)[i] == x.pem && Pems(r)[j] == y.pem;
  }

  lemma {:induction false} DedupPrefix(x: TlsCert, y: TlsCert, rest: seq<TlsCert>)
    requires x.pem != y.pem
    ensures [x, y] <= Dedup([x, y] + rest)
  {
    var s := [x, y] + rest;
    if rest == [] {
      assert s == [x, y];
      assert s[..1] == [x] && s[..1][..0] == [];
      assert Dedup([x]) == [x];
    } else {
      assert s[..|s| - 1] == [x, y] + rest[..|rest| - 1];
      DedupPrefix(x, y, rest[..|rest| - 1]);
    }
  }

  /** A reordering that puts `x` and `y` in front. */
  lemma Reorder(s: seq<TlsCert>, x: TlsCert, y: TlsCert) returns (t: seq<TlsCert>)
    requires x in s && y in s && x.pem != y.pem && CertLeq(x, y)
    ensures multiset(t) == multiset(s) && Precedes(Pems(Canon(t)), x.pem, y.pem)
  {
    var s1 := RemoveOne(s, x);
    assert y in multiset(s);
    assert y in multiset(s1);
    var s2 := RemoveOne(s1, y);
    t := [x, y] + s2;
    assert multiset(t) == multiset{x} + (multiset{y} + multiset(s2));
    FirstTwo(x, y, s2);
  }

  lemma OrderFreeIsUnambiguous(s: seq<TlsCert>)
    requires OrderFree(s)
    ensures Unambiguous(s)
  {
    forall p, q | p != q && CanPrecede(s, p, q) ensures !CanPrecede(s, q, p) {
      var x, y :| x in s && y in s && x.pem == p && y.pem == q && CertLeq(x, y);
      var t := Reorder(s, x, y);
      if CanPrecede(s, q, p) {
        var y', x' :| y' in s && x' in s && y'.pem == q && x'.pem == p && CertLeq(y', x');
        var t' := Reorder(s, y', x');
        CanonForm(t);
        NotBothWays(Pems(Canon(s)), p, q);
      }
    }
  }

  lemma NotBothWays<T(!new)>(s: seq<T>, p: T, q: T)
    requires NoRepeats(s) && Precedes(s, p, q)
    ensures !Precedes(s, q, p)
  {
  }

  /**
   The order of `add_cert` calls is immaterial for a pattern exactly when its certificates are
   unambiguous; the documentation claims it for all of them.
   */
  lemma CallOrderImmaterialIff(s: seq<TlsCert>)
    ensures OrderFree(s) <==> Unambiguous(s)
  {
    if Unambiguous(s) {
      UnambiguousIsOrderFree(s);
    }
    if OrderFree(s) {
      OrderFreeIsUnambiguous(s);
    }
  }

  predicate SameSortKey(a: TlsCert, b: TlsCert) {
    a.keyAlgorithm == b.keyAlgorithm && a.notAfter == b.notAfter && a.source == b.source
  }

  /** Enough in practice: two certificates share a sort key exactly when they share their PEM pair. */
  lemma KeysThatIdentify(s: seq<TlsCert>)
    requires forall a, b :: a in s && b in s ==> (a.pem == b.pem <==> SameSortKey(a, b))
    ensures OrderFree(s)
  {
    forall p, q | p != q && CanPrecede(s, p, q) ensures !CanPrecede(s, q, p) {
      var x, y :| x in s && y in s && x.pem == p && y.pem == q && CertLeq(x, y);
      if CanPrecede(s, q, p) {
        var y', x' :| y' in s && x' in s && y'.pem == q && x'.pem == p && CertLeq(y', x');
        assert SameSortKey(x, x') && SameSortKey(y, y');
        assert CertLeq(y, x);
        TiesShareKeys(x, y);
      }
    }
    UnambiguousIsOrderFree(s);
  }

  lemma TiesShareKeys(a: TlsCert, b: TlsCert)
    requires CertLeq(a, b) && CertLeq(b, a)
    ensures SameSortKey(a, b)
  {
    StringOrder.LeqAntisymmetric(a.source, b.source);
  }

  /** Two certificates with one sort key: the order of the two calls decides which is served first. */
  lemma CallOrderMatters(a: TlsCert, b: TlsCert)
    requires a.pem != b.pem && SameSortKey(a, b)
    ensures Pems(Canon([a, b])) == [a.pem, b.pem] && Pems(Canon([b, a])) == [b.pem, a.pem]
    ensures !OrderFree([a, b])
  {
    StringOrder.LeqReflexive(a.source);
    PairStays(a, b);
    PairStays(b, a);
    assert multiset([a, b]) == multiset([b, a]);
    assert [a.pem, b.pem][0] != [b.pem, a.pem][0];
  }

  lemma PairStays(a: TlsCert, b: TlsCert)
    requires a.pem != b.pem && CertLeq(a, b)
    ensures Pems(Canon([a, b])) == [a.pem, b.pem]
  {
    DedupPrefix(a, b, []);
    assert [a, b] + [] == [a, b];
    assert [a, b][..1] == [a] && [a][..0] == [];
    assert Dedup([a]) == [a];
    assert Dedup([a, b]) == [a, b];
    assert Sort(CertLeq, [a]) == [a];
    assert Sort(CertLeq, [a, b]) == [a, b];
  }
}
