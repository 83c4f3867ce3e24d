/** SPIFFE identities derived from Kubernetes service accounts. */
module Spiffe {
  import opened Options
  import opened StringOps

  datatype Error = InvalidFormat | EmptyTrustDomain

  /** A parsed URI with the offsets of its parts. */
  datatype SpiffeId = SpiffeId(
    uri: string, trustDomainStart: nat, trustDomainEnd: nat, nsStart: nat, nsEnd: nat, saStart: nat)

  datatype Result = Ok(id: SpiffeId) | Err(error: Error)

  const SCHEME := "spiffe://"

  function Parse(uri: string): Result {
    match StripPrefix(uri, SCHEME)
    case None => Err(InvalidFormat)
    case Some(rest) =>
      match SplitOnce(rest, '/')
      case None => Err(InvalidFormat)
      case Some((td, afterTd)) =>
        if td == "" then Err(EmptyTrustDomain)
        else
          match StripPrefix(afterTd, "ns/")
          case None => Err(InvalidFormat)
          case Some(afterNsKw) =>
            match SplitOnce(afterNsKw, '/')
            case None => Err(InvalidFormat)
            case Some((ns, afterNs)) =>
              if ns == "" then Err(InvalidFormat)
              else
                match StripPrefix(afterNs, "sa/")
                case None => Err(InvalidFormat)
                case Some(sa) =>
                  if sa == "" then Err(InvalidFormat) else Ok(WithOffsets(uri, |td|, |ns|))
  }

  function WithOffsets(uri: string, tdLen: nat, nsLen: nat): SpiffeId {
    var trustDomainStart := |SCHEME|;
    var trustDomainEnd := trustDomainStart + tdLen;
    var nsStart := trustDomainEnd + |"/ns/"|;
    var nsEnd := nsStart + nsLen;
    SpiffeId(uri, trustDomainStart, trustDomainEnd, nsStart, nsEnd, nsEnd + |"/sa/"|)
  }

  predicate InBounds(id: SpiffeId) {
    id.trustDomainStart <= id.trustDomainEnd <= id.nsStart <= id.nsEnd <= id.saStart <= |id.uri|
  }

  function TrustDomain(id: SpiffeId): string
    requires InBounds(id)
  {
    id.uri[id.trustDomainStart..id.trustDomainEnd]
  }

  function Namespace(id: SpiffeId): string
    requires InBounds(id)
  {
    id.uri[id.nsStart..id.nsEnd]
  }

  function ServiceAccount(id: SpiffeId): string
    requires InBounds(id)
  {
    id.uri[id.saStart..]
  }

  function Compose(td: string, ns: string, sa: string): string {
    SCHEME + td + "/ns/" + ns + "/sa/" + sa
  }

  /** The constructor from parts; `None` where the source panics. */
  function FromParts(td: string, ns: string, sa: string): Option<SpiffeId> {
    var r := Parse(Compose(td, ns, sa));
    if r.Ok? then Some(r.id) else None
  }

  predicate ValidParts(td: string, ns: string, sa: string) {
    td != "" && '/' !in td && ns != "" && '/' !in ns && sa != ""
  }

  /** What the getters return. */
  predicate HasParts(id: SpiffeId, td: string, ns: string, sa: string) {
    InBounds(id) && TrustDomain(id) == td && Namespace(id) == ns && ServiceAccount(id) == sa
  }

  lemma StripJoined(prefix: string, rest: string)
    ensures StripPrefix(prefix + rest, prefix) == Some(rest)
  {
  }

  lemma StripExact(s: string, prefix: string)
    ensures StripPrefix(s, prefix).Some? ==> s == prefix + StripPrefix(s, prefix).value
  {
  }

  /** The stored offsets cut the URI into exactly its parts. */
  lemma OffsetsSlice(td: string, ns: string, sa: string)
    ensures HasParts(WithOffsets(Compose(td, ns, sa), |td|, |ns|), td, ns, sa)
  {
    var uri := Compose(td, ns, sa);
    var a := SCHEME;
    var b := a + td;
    var c := b + "/ns/";
    var d := c + ns;
    var e := d + "/sa/";
    assert uri == e + sa;
    assert uri[|a|..|b|] == td;
    assert uri[|c|..|d|] == ns;
    assert uri[|e|..] == sa;
  }

  /** The URI as the parser takes it apart. */
  lemma Regroup(td: string, ns: string, sa: string)
    ensures Compose(td, ns, sa) == SCHEME + (td + "/" + ("ns/" + (ns + "/" + ("sa/" + sa))))
  {
    assert "/ns/" == "/" + "ns/" && "/sa/" == "/" + "sa/";
    var tail := ns + "/sa/" + sa;
    assert tail == ns + "/" + ("sa/" + sa);
    assert Compose(td, ns, sa) == SCHEME + (td + "/ns/" + tail);
    assert td + "/ns/" + tail == td + "/" + ("ns/" + tail);
  }

  /** A URI built from valid parts parses, and its getters give the parts back. */
  lemma ComposedParses(td: string, ns: string, sa: string)
    requires ValidParts(td, ns, sa)
    ensures Parse(Compose(td, ns, sa)) == Ok(WithOffsets(Compose(td, ns, sa), |td|, |ns|))
    ensures HasParts(Parse(Compose(td, ns, sa)).id, td, ns, sa)
  {
    var uri := Compose(td, ns, sa);
    var afterNs := "sa/" + sa;
    var afterNsKw := ns + "/" + afterNs;
    var afterTd := "ns/" + afterNsKw;
    var rest := td + "/" + afterTd;
    Regroup(td, ns, sa);
    StripJoined(SCHEME, rest);
    SplitOnceJoined(td, afterTd, '/');
    StripJoined("ns/", afterNsKw);
    SplitOnceJoined(ns, afterNs, '/');
    StripJoined("sa/", sa);
    OffsetsSlice(td, ns, sa);
  }

  /** Whatever parses is composed of valid parts. */
  lemma ParsedIsComposed(uri: string) returns (td: string, ns: string, sa: string)
    requires Parse(uri).Ok?
    ensures ValidParts(td, ns, sa) && uri == Compose(td, ns, sa)
    ensures Parse(uri).id == WithOffsets(uri, |td|, |ns|)
  {
    var rest := StripPrefix(uri, SCHEME).value;
    StripExact(uri, SCHEME);
    var (t, afterTd) := SplitOnce(rest, '/').value;
    td := t;
    SplitOnceExact(rest, '/');
    var afterNsKw := StripPrefix(afterTd, "ns/").value;
    StripExact(afterTd, "ns/");
    var (n, afterNs) := SplitOnce(afterNsKw, '/').value;
    ns := n;
    SplitOnceExact(afterNsKw, '/');
    sa := StripPrefix(afterNs, "sa/").value;
    StripExact(afterNs, "sa/");
    Regroup(td, ns, sa);
  }

  /** `parse` accepts exactly the composed URIs, and the getters recompose them. */
  lemma ParseIff(uri: string)
    ensures Parse(uri).Ok? <==> exists td, ns, sa :: ValidParts(td, ns, sa) && uri == Compose(td, ns, sa)
    ensures Parse(uri).Ok? ==>
            var id := Parse(uri).id;
            && id.uri == uri && InBounds(id)
            && ValidParts(TrustDomain(id), Namespace(id), ServiceAccount(id))
            && FromParts(TrustDomain(id), Namespace(id), ServiceAccount(id)) == Some(id)
  {
    if Parse(uri).Ok? {
      var td, ns, sa := ParsedIsComposed(uri);
      OffsetsSlice(td, ns, sa);
    }
    if exists td, ns, sa :: ValidParts(td, ns, sa) && uri == Compose(td, ns, sa) {
      var td, ns, sa :| ValidParts(td, ns, sa) && uri == Compose(td, ns, sa);
      ComposedParses(td, ns, sa);
    }
  }

  /** The constructor from parts returns an identity with those parts exactly when the parts are valid. */
  lemma FromPartsIff(td: string, ns: string, sa: string)
    ensures ValidParts(td, ns, sa) <==>
            FromParts(td, ns, sa).Some? && HasParts(FromParts(td, ns, sa).value, td, ns, sa)
  {
    if ValidParts(td, ns, sa) {
      ComposedParses(td, ns, sa);
    }
    if FromParts(td, ns, sa).Some? && HasParts(FromParts(td, ns, sa).value, td, ns, sa) {
      ParseIff(Compose(td, ns, sa));
    }
  }

  /** An empty trust domain makes it panic, although it is documented always to succeed. */
  lemma FromPartsCanPanic(ns: string, sa: string)
    ensures Parse(Compose("", ns, sa)) == Err(EmptyTrustDomain) && FromParts("", ns, sa) == None
  {
  }

  /** The one distinguished error: nothing between the scheme and the next slash. */
  lemma EmptyTrustDomainIff(uri: string)
    ensures Parse(uri) == Err(EmptyTrustDomain) <==> SCHEME + "/" <= uri
  {
  }
}
