/** SNI and listener host patterns: exact names, single-label wildcards, and the catch-all. */
module HostPatterns {
  import opened Options
  import opened StringOps

  /** Whether `sni` matches `*.{suffix}` with exactly one label in place of the star. */
  predicate WildcardMatches(sni: string, suffix: string) {
    var rest := StripSuffix(sni, suffix);
    if rest.None? then false
    else
      var stem := StripSuffix(rest.value, ".");
      stem.Some? && stem.value != "" && '.' !in stem.value
  }

  /** What follows the first dot, when a non-empty label precedes it. */
  function ParentDomain(sni: string): Option<string> {
    if |sni| < 2 || sni[0] == '.' then None
    else if sni[1] == '.' then Some(sni[2..])
    else ParentDomain(sni[1..])
  }

  datatype Pattern = CatchAll | Wildcard(suffix: string) | Exact(host: string)

  /** How every builder reads a host pattern. */
  function Classify(pattern: string): Pattern {
    if pattern == "" || pattern == "*" then CatchAll
    else
      var suffix := StripPrefix(pattern, "*.");
      if suffix.Some? then Wildcard(suffix.value) else Exact(pattern)
  }

  ghost predicate SplitsAt(sni: string, d: int) {
    0 < d < |sni| && sni[d] == '.' && '.' !in sni[..d]
  }

  lemma {:induction false} SplitGivesParent(sni: string, d: int)
    requires SplitsAt(sni, d)
    ensures ParentDomain(sni) == Some(sni[d + 1..])
  {
    assert sni[..d][0] == sni[0];
    if d > 1 {
      assert sni[..d][1] == sni[1];
      var tail := sni[1..];
      assert tail[..d - 1] == sni[..d][1..];
      SplitGivesParent(tail, d - 1);
      assert tail[d..] == sni[d + 1..];
    }
  }

  lemma {:induction false} ParentGivesSplit(sni: string) returns (d: int)
    requires ParentDomain(sni).Some?
    ensures SplitsAt(sni, d) && ParentDomain(sni) == Some(sni[d + 1..])
  {
    if sni[1] == '.' {
      assert sni[..1] == [sni[0]];
      d := 1;
    } else {
      var tail := sni[1..];
      var e := ParentGivesSplit(tail);
      assert sni[..e + 1] == [sni[0]] + tail[..e];
      assert sni[e + 2..] == tail[e + 1..];
      d := e + 1;
    }
  }

  /** At most one wildcard can match a name: the one for the text after its first dot. */
  lemma {:induction false} OnlyTheParentMatches(sni: string, suffix: string)
    ensures WildcardMatches(sni, suffix) <==> ParentDomain(sni) == Some(suffix)
  {
    if WildcardMatches(sni, suffix) {
      var d := |sni| - |suffix| - 1;
      var rest := sni[..|sni| - |suffix|];
      var stem := StripSuffix(rest, ".").value;
      assert rest[|rest| - 1..] == ".";
      assert rest[|rest| - 1] == '.' && sni[d] == '.';
      assert stem == sni[..d];
      assert sni[d + 1..] == suffix;
      SplitGivesParent(sni, d);
    }
    if ParentDomain(sni) == Some(suffix) {
      var d := ParentGivesSplit(sni);
      assert |sni| - |suffix| == d + 1;
      var rest := sni[..d + 1];
      assert StripSuffix(sni, suffix) == Some(rest);
      assert rest[|rest| - 1..] == [sni[d]] == ".";
      assert StripSuffix(rest, ".") == Some(rest[..d]);
      assert rest[..d] == sni[..d];
    }
  }
}

/** Wildcard entries as every store keeps them: a list, longest suffix first, scanned in order. */
module WildcardLists {
  import opened Options
  import opened StableSort
  import opened ListFacts
  import opened HostPatterns

  predicate LongestFirst<T>(a: (string, T), b: (string, T)) {
    |a.0| >= |b.0|
  }

  /** The first entry that matches. */
  function FirstMatch<T>(wildcard: seq<(string, T)>, sni: string): Option<T> {
    if wildcard == [] then None
    else if WildcardMatches(sni, wildcard[0].0) then Some(wildcard[0].1)
    else FirstMatch(wildcard[1..], sni)
  }

  lemma {:induction false} FirstMatchIsParent<T(!new)>(wildcard: seq<(string, T)>, sni: string)
    ensures FirstMatch(wildcard, sni).None? <==>
            forall w :: w in wildcard ==> ParentDomain(sni) != Some(w.0)
    ensures FirstMatch(wildcard, sni).Some? ==>
            exists w :: w in wildcard && ParentDomain(sni) == Some(w.0) && FirstMatch(wildcard, sni) == Some(w.1)
  {
    if wildcard != [] {
      OnlyTheParentMatches(sni, wildcard[0].0);
      FirstMatchIsParent(wildcard[1..], sni);
      assert forall w :: w in wildcard <==> w == wildcard[0] || w in wildcard[1..];
      assert wildcard[0] in wildcard;
    }
  }

  function KeyOf<T>(w: (string, T)): string { w.0 }

  /** `w` lists the entries of `m`, each once. */
  ghost predicate ListsMap<T(!new)>(m: map<string, T>, w: seq<(string, T)>) {
    && (forall e :: e in w <==> e.0 in m && e.1 == m[e.0])
    && (forall i, j :: 0 <= i < j < |w| ==> w[i].0 != w[j].0)
  }

  /** Scanning such a list is looking the parent domain up in the map. */
  lemma ScanIsLookup<T(!new)>(m: map<string, T>, w: seq<(string, T)>, sni: string)
    requires ListsMap(m, w)
    ensures FirstMatch(w, sni) ==
            var parent := ParentDomain(sni);
            if parent.Some? && parent.value in m then Some(m[parent.value]) else None
  {
    FirstMatchIsParent(w, sni);
    var parent := ParentDomain(sni);
    if parent.Some? && parent.value in m {
      assert (parent.value, m[parent.value]) in w;
    }
  }

  lemma SortKeepsListing<T(!new)>(m: map<string, T>, w: seq<(string, T)>)
    requires ListsMap(m, w)
    ensures ListsMap(m, Sort(LongestFirst<T>, w)) && Sorted(LongestFirst<T>, Sort(LongestFirst<T>, w))
  {
    var r := Sort(LongestFirst<T>, w);
    SortSorts(LongestFirst<T>, w);
    SortPermutes(LongestFirst<T>, w);
    SortMembers(LongestFirst<T>, w);
    assert KeysDistinct(KeyOf<T>, w);
    PermutedKeysDistinct(KeyOf<T>, w, r);
    forall i, j | 0 <= i < j < |r| ensures r[i].0 != r[j].0 {
      assert KeyOf(r[i]) != KeyOf(r[j]);
    }
  }

  /** The entries of a hash map, collected in whatever order, then sorted. */
  method SortedEntries<T(!new)>(m: map<string, T>) returns (w: seq<(string, T)>)
    ensures ListsMap(m, w) && Sorted(LongestFirst<T>, w)
  {
    w := [];
    var todo := m.Keys;
    while todo != {}
      invariant todo <= m.Keys
      invariant forall e :: e in w <==> e.0 in m && e.0 !in todo && e.1 == m[e.0]
      invariant forall i, j :: 0 <= i < j < |w| ==> w[i].0 != w[j].0
      decreases |todo|
    {
      var h :| h in todo;
      assert forall i :: 0 <= i < |w| ==> w[i] in w;
      w := w + [(h, m[h])];
      todo := todo - {h};
    }
    SortKeepsListing(m, w);
    w := Sort(LongestFirst<T>, w);
  }
}
