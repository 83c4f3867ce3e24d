/** Small shared vocabulary: optional values, byte-wise string order, and stable sorting. */

module Options {
  datatype Option<+T> = None | Some(value: T)

  /** The source's `unwrap_or`. */
  function GetOr<T>(o: Option<T>, default: T): T {
    match o
    case Some(v) => v
    case None => default
  }

  /** The source's `map.get(k).cloned()`. */
  function Lookup<K, V>(m: map<K, V>, k: K): Option<V> {
    if k in m then Some(m[k]) else None
  }

  function Max(a: nat, b: nat): nat {
    if a < b then b else a
  }
}

/** The `str` operations the source parses with. */
module StringOps {
  import opened Options

  function StripPrefix(s: string, prefix: string): Option<string> {
    if prefix <= s then Some(s[|prefix|..]) else None
  }

  function StripSuffix(s: string, suffix: string): Option<string> {
    if |suffix| <= |s| && s[|s| - |suffix|..] == suffix then Some(s[..|s| - |suffix|]) else None
  }

  /** The text before and after the first `c`. */
  function SplitOnce(s: string, c: char): Option<(string, string)> {
    if s == "" then None
    else if s[0] == c then Some(("", s[1..]))
    else
      var tail := SplitOnce(s[1..], c);
      if tail.None? then None else Some(([s[0]] + tail.value.0, tail.value.1))
  }

  lemma {:induction false} SplitOnceExact(s: string, c: char)
    ensures SplitOnce(s, c).None? <==> c !in s
    ensures SplitOnce(s, c).Some? ==>
            var (a, b) := SplitOnce(s, c).value; c !in a && s == a + [c] + b
  {
    if s != "" && s[0] != c {
      SplitOnceExact(s[1..], c);
      assert s == [s[0]] + s[1..];
    }
  }

  lemma {:induction false} SplitOnceJoined(a: string, b: string, c: char)
    requires c !in a
    ensures SplitOnce(a + [c] + b, c) == Some((a, b))
  {
    var s := a + [c] + b;
    if a == "" {
      assert s[1..] == b;
    } else {
      assert s[1..] == a[1..] + [c] + b && s[0] == a[0];
      SplitOnceJoined(a[1..], b, c);
      assert a == [a[0]] + a[1..];
    }
  }
}

/** The lexicographic order `str::cmp` gives: a total order on strings. */
module StringOrder {
  predicate Leq(a: string, b: string) {
    || a == []
    || (b != [] && (a[0] < b[0] || (a[0] == b[0] && Leq(a[1..], b[1..]))))
  }

  lemma {:induction false} LeqReflexive(a: string)
    ensures Leq(a, a)
  {
    if a != [] {
      LeqReflexive(a[1..]);
    }
  }

  lemma {:induction false} LeqTotal(a: string, b: string)
    ensures Leq(a, b) || Leq(b, a)
  {
    if a != [] && b != [] {
      LeqTotal(a[1..], b[1..]);
    }
  }

  lemma {:induction false} LeqAntisymmetric(a: string, b: string)
    requires Leq(a, b) && Leq(b, a)
    ensures a == b
  {
    if a != [] && b != [] {
      LeqAntisymmetric(a[1..], b[1..]);
      assert a == [a[0]] + a[1..] && b == [b[0]] + b[1..];
    }
  }

  lemma {:induction false} LeqTransitive(a: string, b: string, c: string)
    requires Leq(a, b) && Leq(b, c)
    ensures Leq(a, c)
  {
    if a != [] && a[0] == b[0] && b[0] == c[0] {
      LeqTransitive(a[1..], b[1..], c[1..]);
    }
  }
}

/**
 `slice::sort_by`: a stable sort by a total preorder, given as insertion from the left.
 An element is placed after every earlier element it does not strictly precede.
 */
module StableSort {
  ghost predicate TotalPreorder<T(!new)>(leq: (T, T) -> bool) {
    && (forall x, y :: leq(x, y) || leq(y, x))
    && (forall x, y, z :: leq(x, y) && leq(y, z) ==> leq(x, z))
  }

  ghost predicate Sorted<T(!new)>(leq: (T, T) -> bool, s: seq<T>) {
    forall i, j :: 0 <= i < j < |s| ==> leq(s[i], s[j])
  }

  function Insert<T>(leq: (T, T) -> bool, s: seq<T>, x: T): seq<T> {
    if s == [] || leq(s[|s| - 1], x) then s + [x]
    else Insert(leq, s[..|s| - 1], x) + [s[|s| - 1]]
  }

  function Sort<T>(leq: (T, T) -> bool, s: seq<T>): seq<T> {
    if s == [] then [] else Insert(leq, Sort(leq, s[..|s| - 1]), s[|s| - 1])
  }

  lemma {:induction false} InsertPermutes<T(!new)>(leq: (T, T) -> bool, s: seq<T>, x: T)
    ensures multiset(Insert(leq, s, x)) == multiset(s) + multiset{x}
  {
    if s != [] && !leq(s[|s| - 1], x) {
      InsertPermutes(leq, s[..|s| - 1], x);
      assert s == s[..|s| - 1] + [s[|s| - 1]];
    }
  }

  lemma {:induction false} InsertSorts<T(!new)>(leq: (T, T) -> bool, s: seq<T>, x: T)
    requires TotalPreorder(leq) && Sorted(leq, s)
    ensures Sorted(leq, Insert(leq, s, x))
  {
    if s != [] && !leq(s[|s| - 1], x) {
      var front, last := s[..|s| - 1], s[|s| - 1];
      InsertSorts(leq, front, x);
      InsertPermutes(leq, front, x);
      var r := Insert(leq, front, x);
      forall y | y in r ensures leq(y, last) {
        assert y in multiset(r);
        assert y in multiset(front) || y == x;
      }
    }
  }

  lemma {:induction false} SortPermutes<T(!new)>(leq: (T, T) -> bool, s: seq<T>)
    ensures multiset(Sort(leq, s)) == multiset(s)
    ensures |Sort(leq, s)| == |s|
  {
    if s != [] {
      SortPermutes(leq, s[..|s| - 1]);
      InsertPermutes(leq, Sort(leq, s[..|s| - 1]), s[|s| - 1]);
      assert s == s[..|s| - 1] + [s[|s| - 1]];
    }
    assert |multiset(Sort(leq, s))| == |Sort(leq, s)|;
  }

  lemma {:induction false} SortSorts<T(!new)>(leq: (T, T) -> bool, s: seq<T>)
    requires TotalPreorder(leq)
    ensures Sorted(leq, Sort(leq, s))
  {
    if s != [] {
      SortSorts(leq, s[..|s| - 1]);
      InsertSorts(leq, Sort(leq, s[..|s| - 1]), s[|s| - 1]);
    }
  }

  lemma SortMembers<T(!new)>(leq: (T, T) -> bool, s: seq<T>)
    ensures forall x :: x in Sort(leq, s) <==> x in s
  {
    SortPermutes(leq, s);
    forall x ensures x in Sort(leq, s) <==> x in s {
      assert x in Sort(leq, s) <==> x in multiset(Sort(leq, s));
      assert x in s <==> x in multiset(s);
    }
  }

  ghost predicate StrictlySorted<T(!new)>(leq: (T, T) -> bool, s: seq<T>) {
    forall i, j :: 0 <= i < j < |s| ==> leq(s[i], s[j]) && !leq(s[j], s[i])
  }

  lemma {:induction false} InsertStrict<T(!new)>(leq: (T, T) -> bool, s: seq<T>, x: T)
    requires TotalPreorder(leq) && StrictlySorted(leq, s)
    requires forall y :: y in s ==> !(leq(x, y) && leq(y, x))
    ensures StrictlySorted(leq, Insert(leq, s, x))
  {
    if s == [] || leq(s[|s| - 1], x) {
      forall y | y in s ensures leq(y, x) && !leq(x, y) {
        assert y == s[|s| - 1] || leq(y, s[|s| - 1]);
      }
    } else {
      var front, last := s[..|s| - 1], s[|s| - 1];
      InsertStrict(leq, front, x);
      InsertPermutes(leq, front, x);
      var r := Insert(leq, front, x);
      forall y | y in r ensures leq(y, last) && !leq(last, y) {
        assert y in multiset(r);
        assert y in multiset(front) || y == x;
      }
    }
  }

  /** Elements no two of which tie end up strictly ascending. */
  lemma {:induction false} SortStrict<T(!new)>(leq: (T, T) -> bool, s: seq<T>)
    requires TotalPreorder(leq)
    requires forall i, j :: 0 <= i < j < |s| ==> !(leq(s[i], s[j]) && leq(s[j], s[i]))
    ensures StrictlySorted(leq, Sort(leq, s))
  {
    if s != [] {
      SortStrict(leq, s[..|s| - 1]);
      SortMembers(leq, s[..|s| - 1]);
      InsertStrict(leq, Sort(leq, s[..|s| - 1]), s[|s| - 1]);
    }
  }

  /** A strictly sorted sequence is determined by its members. */
  lemma {:induction false} StrictlySortedUnique<T(!new)>(leq: (T, T) -> bool, a: seq<T>, b: seq<T>)
    requires StrictlySorted(leq, a) && StrictlySorted(leq, b)
    requires forall x :: x in a <==> x in b
    ensures a == b
  {
    assert |a| > 0 ==> a[0] in a;
    assert |b| > 0 ==> b[0] in b;
    if a != [] && b != [] {
      var k :| 0 <= k < |b| && b[k] == a[0];
      var m :| 0 <= m < |a| && a[m] == b[0];
      assert a[0] == b[0];
      var ta, tb := a[1..], b[1..];
      forall x ensures x in ta <==> x in tb {
        assert x in ta ==> x in a && leq(a[0], x) && !leq(x, a[0]);
        assert x in tb ==> x in b && leq(b[0], x) && !leq(x, b[0]);
      }
      StrictlySortedUnique(leq, ta, tb);
      assert a == [a[0]] + ta && b == [b[0]] + tb;
    }
  }

  /** `x` occurs before `y`. */
  ghost predicate Precedes<T(!new)>(s: seq<T>, x: T, y: T) {
    exists i, j :: 0 <= i < j < |s| && s[i] == x && s[j] == y
  }

  lemma {:induction false} InsertPrecedes<T(!new)>(leq: (T, T) -> bool, s: seq<T>, x: T, z: T)
    requires x in s && leq(x, z)
    ensures Precedes(Insert(leq, s, z), x, z)
  {
    if leq(s[|s| - 1], z) {
      var i :| 0 <= i < |s| && s[i] == x;
      assert (s + [z])[i] == x && (s + [z])[|s|] == z;
    } else {
      var front := s[..|s| - 1];
      var k :| 0 <= k < |s| && s[k] == x;
      assert front[k] == x;
      InsertPrecedes(leq, front, x, z);
      PrecedesAppend(Insert(leq, front, z), s[|s| - 1], x, z);
    }
  }

  lemma PrecedesAppend<T(!new)>(s: seq<T>, last: T, x: T, y: T)
    requires Precedes(s, x, y)
    ensures Precedes(s + [last], x, y)
  {
    var i, j :| 0 <= i < j < |s| && s[i] == x && s[j] == y;
    assert (s + [last])[i] == x && (s + [last])[j] == y;
  }

  lemma {:induction false} InsertKeepsPrecedes<T(!new)>(leq: (T, T) -> bool, s: seq<T>, x: T, y: T, z: T)
    requires Precedes(s, x, y)
    ensures Precedes(Insert(leq, s, z), x, y)
  {
    if leq(s[|s| - 1], z) {
      PrecedesAppend(s, z, x, y);
    } else {
      var front, last := s[..|s| - 1], s[|s| - 1];
      var r := Insert(leq, front, z);
      var i, j :| 0 <= i < j < |s| && s[i] == x && s[j] == y;
      if j < |front| {
        assert front[i] == x && front[j] == y;
        InsertKeepsPrecedes(leq, front, x, y, z);
        PrecedesAppend(r, last, x, y);
      } else {
        InsertPermutes(leq, front, z);
        assert front[i] == x;
        assert x in multiset(front);
        assert x in multiset(r);
        var k :| 0 <= k < |r| && r[k] == x;
        assert (r + [last])[k] == x && (r + [last])[|r|] == y;
      }
    }
  }

  /** Stability: of two elements in order, the one that comes first stays first. */
  lemma {:induction false} SortStable<T(!new)>(leq: (T, T) -> bool, s: seq<T>, i: nat, j: nat)
    requires i < j < |s| && leq(s[i], s[j])
    ensures Precedes(Sort(leq, s), s[i], s[j])
  {
    var front, last := s[..|s| - 1], s[|s| - 1];
    if j < |front| {
      SortStable(leq, front, i, j);
      InsertKeepsPrecedes(leq, Sort(leq, front), s[i], s[j], last);
    } else {
      SortMembers(leq, front);
      assert front[i] in front;
      InsertPrecedes(leq, Sort(leq, front), s[i], last);
    }
  }
}

/** Facts about repeated elements and permutations. */
module ListFacts {
  ghost predicate NoRepeats<T>(s: seq<T>) {
    forall i, j :: 0 <= i < j < |s| ==> s[i] != s[j]
  }

  lemma {:induction false} NoRepeatsMultiset<T>(s: seq<T>)
    ensures NoRepeats(s) <==> forall x :: multiset(s)[x] <= 1
  {
    if s != [] {
      var front, last := s[..|s| - 1], s[|s| - 1];
      NoRepeatsMultiset(front);
      assert s == front + [last];
      assert last in front <==> multiset(front)[last] >= 1;
      if NoRepeats(s) {
        assert NoRepeats(front);
        assert last !in front;
      }
      if forall x :: multiset(s)[x] <= 1 {
        assert forall x :: multiset(front)[x] <= multiset(s)[x];
        assert multiset(s)[last] == multiset(front)[last] + 1;
        assert last !in front;
      }
    }
  }

  ghost predicate KeysDistinct<T, K>(key: T -> K, s: seq<T>) {
    forall i, j :: 0 <= i < j < |s| ==> key(s[i]) != key(s[j])
  }

  /** A permutation of a list without repeated keys has no repeated keys. */
  lemma PermutedKeysDistinct<T, K>(key: T -> K, d: seq<T>, r: seq<T>)
    requires KeysDistinct(key, d) && multiset(d) == multiset(r)
    ensures KeysDistinct(key, r)
  {
    assert NoRepeats(d);
    NoRepeatsMultiset(d);
    NoRepeatsMultiset(r);
    forall i, j | 0 <= i < j < |r| ensures key(r[i]) != key(r[j]) {
      assert r[i] in multiset(r) && r[j] in multiset(r);
      assert r[i] in d && r[j] in d;
      var k :| 0 <= k < |d| && d[k] == r[i];
      var l :| 0 <= l < |d| && d[l] == r[j];
      assert k != l;
    }
  }

  lemma SameMembers<T>(s: seq<T>, t: seq<T>)
    requires multiset(s) == multiset(t)
    ensures forall x :: x in s <==> x in t
  {
    forall x ensures x in s <==> x in t {
      assert x in s <==> x in multiset(s);
      assert x in t <==> x in multiset(t);
    }
  }
}
