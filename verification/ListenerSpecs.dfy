/** Listener specs and advertised ports derived from the per-Gateway listener status map. */
module ListenerSpecs {
  import opened Options
  import opened ListFacts

  /** Readiness states by the protocol they lead to; `Terminating` stands for all the others. */
  datatype Readiness = NotApplicable | TlsPassthrough | TlsTerminate | TcpProxy | UdpProxy | Terminating

  datatype Protocol = Http | Https | TlsL4 | TlsHybrid | Tcp | Udp

  /** A listener; `P` is a PROXY-protocol configuration. */
  datatype Info<P> = Info(internalPort: nat, port: nat, readiness: Readiness, proxy: Option<P>)

  /** The outer map is a hash map; each Gateway's listeners come in name order. */
  type Health<!K, P> = map<K, seq<Info<P>>>

  datatype PortState<P> = PortState(protocol: Protocol, proxy: Option<P>)

  datatype ListenerSpec<P> = ListenerSpec(port: nat, protocol: Protocol, proxy: Option<P>)

  function BindPort<P>(i: Info<P>): nat {
    if i.internalPort != 0 then i.internalPort else i.port
  }

  function ProtocolOf(r: Readiness): Protocol {
    match r
    case NotApplicable => Http
    case TlsPassthrough => TlsL4
    case TlsTerminate => TlsL4
    case TcpProxy => Tcp
    case UdpProxy => Udp
    case Terminating => Https
  }

  /** The `and_modify` arm: hybridise, and keep the first PROXY configuration. */
  function Upgrade<P>(s: PortState<P>, protocol: Protocol, proxy: Option<P>): PortState<P> {
    var hybrid := (s.protocol == TlsL4 && protocol == Https) || (s.protocol == Https && protocol == TlsL4);
    PortState(if hybrid then TlsHybrid else s.protocol, if s.proxy.None? then proxy else s.proxy)
  }

  // ---------------------------------------------------------- one bind port

  /** The listeners of a list that bind `port`, in order. */
  function OnPort<P>(infos: seq<Info<P>>, port: nat): seq<Info<P>> {
    if infos == [] then []
    else OnPort(infos[..|infos| - 1], port)
         + (if BindPort(infos[|infos| - 1]) == port then [infos[|infos| - 1]] else [])
  }

  /** The step-by-step accumulation over the listeners of one port. */
  function Fold<P>(s: seq<Info<P>>): PortState<P>
    requires s != []
  {
    var last := s[|s| - 1];
    if |s| == 1 then PortState(ProtocolOf(last.readiness), last.proxy)
    else Upgrade(Fold(s[..|s| - 1]), ProtocolOf(last.readiness), last.proxy)
  }

  ghost predicate HasProtocol<P>(s: seq<Info<P>>, p: Protocol) {
    exists i :: i in s && ProtocolOf(i.readiness) == p
  }

  function FirstProxy<P>(s: seq<Info<P>>): Option<P> {
    if s == [] then None
    else if s[0].proxy.Some? then s[0].proxy
    else FirstProxy(s[1..])
  }

  predicate IsTls(p: Protocol) {
    p == TlsL4 || p == Https
  }

  /** The accumulated protocol: hybrid when TLS comes first and both kinds occur, else the first one's. */
  ghost function Combined<P>(s: seq<Info<P>>): Protocol
    requires s != []
  {
    var first := ProtocolOf(s[0].readiness);
    if IsTls(first) && HasProtocol(s, TlsL4) && HasProtocol(s, Https) then TlsHybrid else first
  }

  lemma {:induction false} FirstProxySnoc<P>(s: seq<Info<P>>, last: Info<P>)
    ensures FirstProxy(s + [last]) == if FirstProxy(s).Some? then FirstProxy(s) else last.proxy
  {
    if s == [] {
      assert s + [last] == [last];
      assert FirstProxy([last][1..]) == None;
    } else {
      assert (s + [last])[1..] == s[1..] + [last];
      FirstProxySnoc(s[1..], last);
    }
  }

  lemma HasProtocolSnoc<P>(s: seq<Info<P>>, last: Info<P>, p: Protocol)
    ensures HasProtocol(s + [last], p) <==> HasProtocol(s, p) || ProtocolOf(last.readiness) == p
  {
    if ProtocolOf(last.readiness) == p {
      assert last in s + [last];
    }
    if HasProtocol(s, p) {
      var i :| i in s && ProtocolOf(i.readiness) == p;
      assert i in s + [last];
    }
  }

  /** The accumulation, in closed form. */
  lemma {:induction false} FoldIsCombined<P>(s: seq<Info<P>>)
    requires s != []
    ensures Fold(s) == PortState(Combined(s), FirstProxy(s))
  {
    var front, last := s[..|s| - 1], s[|s| - 1];
    assert s == front + [last];
    FirstProxySnoc(front, last);
    HasProtocolSnoc(front, last, TlsL4);
    HasProtocolSnoc(front, last, Https);
    if |s| == 1 {
      assert front == [];
    } else {
      FoldIsCombined(front);
      assert s[0] in front && s[0] == front[0];
    }
  }

  // -------------------------------------------------------- over the Gateways

  /** An order in which the hash map may be walked. */
  ghost predicate Enumerates<K(!new)>(order: seq<K>, keys: set<K>) {
    NoRepeats(order) && forall k :: k in order <==> k in keys
  }

  /** One Gateway's listeners after another's. */
  function Flat<K, P>(health: Health<K, P>, order: seq<K>): seq<Info<P>>
    requires forall k :: k in order ==> k in health
  {
    if order == [] then [] else Flat(health, order[..|order| - 1]) + health[order[|order| - 1]]
  }

  lemma {:induction false} OnPortConcat<P>(a: seq<Info<P>>, b: seq<Info<P>>, port: nat)
    ensures OnPort(a + b, port) == OnPort(a, port) + OnPort(b, port)
  {
    if b == [] {
      assert a + b == a;
    } else {
      assert (a + b)[..|a + b| - 1] == a + b[..|b| - 1];
      OnPortConcat(a, b[..|b| - 1], port);
    }
  }

  lemma {:induction false} OnPortMembers<P>(infos: seq<Info<P>>, port: nat)
    ensures forall i :: i in OnPort(infos, port) <==> i in infos && BindPort(i) == port
  {
    if infos != [] {
      OnPortMembers(infos[..|infos| - 1], port);
      assert infos == infos[..|infos| - 1] + [infos[|infos| - 1]];
    }
  }

  /** The first Gateway in the order with a listener on the port supplies the first listener. */
  lemma {:induction false} FlatHead<K(!new), P>(health: Health<K, P>, order: seq<K>, port: nat)
    requires forall k :: k in order ==> k in health
    ensures var s := OnPort(Flat(health, order), port);
            s != [] ==> exists k :: k in order && OnPort(health[k], port) != [] && s[0] == OnPort(health[k], port)[0]
    ensures forall k :: k in order && OnPort(health[k], port) != [] ==> OnPort(Flat(health, order), port) != []
  {
    if order != [] {
      var front, last := order[..|order| - 1], order[|order| - 1];
      FlatHead(health, front, port);
      OnPortConcat(Flat(health, front), health[last], port);
      assert order == front + [last];
      assert last in order;
    }
  }

  lemma {:induction false} FlatMembers<K(!new), P>(health: Health<K, P>, order: seq<K>, i: Info<P>)
    requires forall k :: k in order ==> k in health
    ensures i in Flat(health, order) <==> exists k :: k in order && i in health[k]
  {
    if order != [] {
      var front, last := order[..|order| - 1], order[|order| - 1];
      FlatMembers(health, front, i);
      assert order == front + [last];
    }
  }

  lemma {:induction false} FirstProxyConcat<P>(a: seq<Info<P>>, b: seq<Info<P>>)
    ensures FirstProxy(a + b) == if FirstProxy(a).Some? then FirstProxy(a) else FirstProxy(b)
  {
    if a == [] {
      assert a + b == b;
    } else {
      assert (a + b)[1..] == a[1..] + b;
      FirstProxyConcat(a[1..], b);
    }
  }

  lemma {:induction false} FlatProxy<K(!new), P>(health: Health<K, P>, order: seq<K>, port: nat)
    requires forall k :: k in order ==> k in health
    ensures var c := FirstProxy(OnPort(Flat(health, order), port));
            && (c.None? <==> forall k :: k in order ==> FirstProxy(OnPort(health[k], port)).None?)
            && (c.Some? ==> exists k :: k in order && FirstProxy(OnPort(health[k], port)) == c)
  {
    if order != [] {
      var front, last := order[..|order| - 1], order[|order| - 1];
      FlatProxy(health, front, port);
      OnPortConcat(Flat(health, front), health[last], port);
      FirstProxyConcat(OnPort(Flat(health, front), port), OnPort(health[last], port));
      assert order == front + [last];
      assert last in order;
    }
  }

  // ----------------------------------------------------- independence of order

  /** The state of a port is the same whatever order the Gateways are walked in. */
  ghost predicate PortStable<K(!new), P(!new)>(health: Health<K, P>, port: nat) {
    forall a, b :: Enumerates(a, health.Keys) && Enumerates(b, health.Keys) ==>
      StateAt(health, a, port) == StateAt(health, b, port)
  }

  ghost function StateAt<K(!new), P>(health: Health<K, P>, order: seq<K>, port: nat): Option<PortState<P>>
    requires forall k :: k in order ==> k in health
  {
    var s := OnPort(Flat(health, order), port);
    if s == [] then None else Some(Fold(s))
  }

  function HeadProtocol<K, P>(health: Health<K, P>, k: K, port: nat): Protocol
    requires k in health && OnPort(health[k], port) != []
  {
    ProtocolOf(OnPort(health[k], port)[0].readiness)
  }

  predicate Mix(a: Protocol, b: Protocol) {
    a == b || (IsTls(a) && IsTls(b))
  }

  /**
   Any two Gateways with a listener on the port start with one protocol, or both with a TLS one, and
   agree on the first PROXY configuration where they have one.
   */
  ghost predicate GatewaysAgree<K(!new), P>(health: Health<K, P>, port: nat) {
    forall k, k' ::
      k in health && k' in health && OnPort(health[k], port) != [] && OnPort(health[k'], port) != [] ==>
        && Mix(HeadProtocol(health, k, port), HeadProtocol(health, k', port))
        && (var c, c' := FirstProxy(OnPort(health[k], port)), FirstProxy(OnPort(health[k'], port));
            c.Some? && c'.Some? ==> c == c')
  }

  lemma FlatHasProtocol<K(!new), P(!new)>(health: Health<K, P>, a: seq<K>, b: seq<K>, port: nat, p: Protocol)
    requires Enumerates(a, health.Keys) && Enumerates(b, health.Keys)
    ensures HasProtocol(OnPort(Flat(health, a), port), p) ==> HasProtocol(OnPort(Flat(health, b), port), p)
  {
    var s, t := OnPort(Flat(health, a), port), OnPort(Flat(health, b), port);
    OnPortMembers(Flat(health, a), port);
    OnPortMembers(Flat(health, b), port);
    if HasProtocol(s, p) {
      var i :| i in s && ProtocolOf(i.readiness) == p;
      FlatMembers(health, a, i);
      FlatMembers(health, b, i);
      var k :| k in a && i in health[k];
      assert k in b;
      assert i in t;
    }
  }

  /** Only the first protocol, up to mixing, and the presence of the TLS ones matter. */
  lemma SameCombined<P>(s: seq<Info<P>>, t: seq<Info<P>>)
    requires s != [] && t != [] && Mix(ProtocolOf(s[0].readiness), ProtocolOf(t[0].readiness))
    requires HasProtocol(s, TlsL4) <==> HasProtocol(t, TlsL4)
    requires HasProtocol(s, Https) <==> HasProtocol(t, Https)
    ensures Combined(s) == Combined(t)
  {
    assert s[0] in s && t[0] in t;
    assert HasProtocol(s, ProtocolOf(s[0].readiness)) && HasProtocol(t, ProtocolOf(t[0].readiness));
  }

  lemma AgreeingProtocols<K(!new), P(!new)>(health: Health<K, P>, a: seq<K>, b: seq<K>, port: nat)
    requires GatewaysAgree(health, port)
    requires Enumerates(a, health.Keys) && Enumerates(b, health.Keys)
    requires OnPort(Flat(health, a), port) != [] && OnPort(Flat(health, b), port) != []
    ensures Combined(OnPort(Flat(health, a), port)) == Combined(OnPort(Flat(health, b), port))
  {
    var s, t := OnPort(Flat(health, a), port), OnPort(Flat(health, b), port);
    FlatHead(health, a, port);
    FlatHead(health, b, port);
    var k :| k in a && OnPort(health[k], port) != [] && s[0] == OnPort(health[k], port)[0];
    var k' :| k' in b && OnPort(health[k'], port) != [] && t[0] == OnPort(health[k'], port)[0];
    assert Mix(HeadProtocol(health, k, port), HeadProtocol(health, k', port));
    FlatHasProtocol(health, a, b, port, TlsL4);
    FlatHasProtocol(health, b, a, port, TlsL4);
    FlatHasProtocol(health, a, b, port, Https);
    FlatHasProtocol(health, b, a, port, Https);
    SameCombined(s, t);
  }

  lemma AgreeOn<K(!new), P(!new)>(health: Health<K, P>, k: K, k': K, port: nat)
    requires GatewaysAgree(health, port) && k in health && k' in health
    ensures var c, c' := FirstProxy(OnPort(health[k], port)), FirstProxy(OnPort(health[k'], port));
            c.Some? && c'.Some? ==> c == c'
  {
  }

  lemma AgreeingProxies<K(!new), P(!new)>(health: Health<K, P>, a: seq<K>, b: seq<K>, port: nat)
    requires GatewaysAgree(health, port)
    requires Enumerates(a, health.Keys) && Enumerates(b, health.Keys)
    requires FirstProxy(OnPort(Flat(health, a), port)).Some?
    ensures FirstProxy(OnPort(Flat(health, a), port)) == FirstProxy(OnPort(Flat(health, b), port))
  {
    FlatProxy(health, a, port);
    FlatProxy(health, b, port);
    var c, c' := FirstProxy(OnPort(Flat(health, a), port)), FirstProxy(OnPort(Flat(health, b), port));
    var k :| k in a && FirstProxy(OnPort(health[k], port)) == c;
    assert k in b;
    var k' :| k' in b && FirstProxy(OnPort(health[k'], port)) == c';
    AgreeOn(health, k, k', port);
  }

  lemma AgreementIsStable<K(!new), P(!new)>(health: Health<K, P>, port: nat)
    requires GatewaysAgree(health, port)
    ensures PortStable(health, port)
  {
    forall a, b | Enumerates(a, health.Keys) && Enumerates(b, health.Keys)
      ensures StateAt(health, a, port) == StateAt(health, b, port)
    {
      SameEmptiness(health, a, b, port);
      SameEmptiness(health, b, a, port);
      var s, t := OnPort(Flat(health, a), port), OnPort(Flat(health, b), port);
      if s != [] {
        FoldIsCombined(s);
        FoldIsCombined(t);
        AgreeingProtocols(health, a, b, port);
        if FirstProxy(s).Some? {
          AgreeingProxies(health, a, b, port);
        } else if FirstProxy(t).Some? {
          AgreeingProxies(health, b, a, port);
        }
      }
    }
  }

  lemma SameEmptiness<K(!new), P(!new)>(health: Health<K, P>, a: seq<K>, b: seq<K>, port: nat)
    requires Enumerates(a, health.Keys) && Enumerates(b, health.Keys)
    ensures OnPort(Flat(health, a), port) != [] ==> OnPort(Flat(health, b), port) != []
  {
    FlatHead(health, a, port);
    FlatHead(health, b, port);
  }

  /** A key set can be walked starting at any of its keys. */
  lemma {:induction false} WalkFrom<K(!new)>(keys: set<K>, first: K) returns (order: seq<K>)
    requires first in keys
    ensures Enumerates(order, keys) && order[0] == first
    decreases |keys|
  {
    var rest := keys - {first};
    if rest == {} {
      order := [first];
    } else {
      var k :| k in rest;
      var tail := WalkFrom(rest, k);
      order := [first] + tail;
      assert first !in tail;
      forall x ensures x in order <==> x in keys {
        assert x in tail <==> x in rest;
      }
    }
  }

  lemma {:induction false} FlatStarts<K(!new), P>(health: Health<K, P>, order: seq<K>, port: nat)
    requires order != [] && forall k :: k in order ==> k in health
    ensures OnPort(health[order[0]], port) <= OnPort(Flat(health, order), port)
  {
    var front, last := order[..|order| - 1], order[|order| - 1];
    OnPortConcat(Flat(health, front), health[last], port);
    if |order| == 1 {
      assert Flat(health, front) == [];
    } else {
      FlatStarts(health, front, port);
    }
  }

  /** Walked from `k`, the port starts as `k` starts it. */
  lemma StartsAs<K(!new), P(!new)>(health: Health<K, P>, order: seq<K>, port: nat)
    requires Enumerates(order, health.Keys) && order != [] && OnPort(health[order[0]], port) != []
    ensures var s := OnPort(Flat(health, order), port);
            && s != []
            && (!IsTls(HeadProtocol(health, order[0], port)) ==> Combined(s) == HeadProtocol(health, order[0], port))
            && (IsTls(HeadProtocol(health, order[0], port)) ==> IsTls(Combined(s)) || Combined(s) == TlsHybrid)
            && (FirstProxy(OnPort(health[order[0]], port)).Some? ==>
                FirstProxy(s) == FirstProxy(OnPort(health[order[0]], port)))
  {
    FlatStarts(health, order, port);
    var h, s := OnPort(health[order[0]], port), OnPort(Flat(health, order), port);
    assert s == h + s[|h|..];
    assert s[0] == h[0];
    FirstProxyConcat(h, s[|h|..]);
  }

  lemma StableIsAgreement<K(!new), P(!new)>(health: Health<K, P>, port: nat)
    requires PortStable(health, port)
    ensures GatewaysAgree(health, port)
  {
    forall k, k' | k in health && k' in health && OnPort(health[k], port) != [] && OnPort(health[k'], port) != []
      ensures Mix(HeadProtocol(health, k, port), HeadProtocol(health, k', port))
      ensures var c, c' := FirstProxy(OnPort(health[k], port)), FirstProxy(OnPort(health[k'], port));
              c.Some? && c'.Some? ==> c == c'
    {
      var a := WalkFrom(health.Keys, k);
      var b := WalkFrom(health.Keys, k');
      StartsAs(health, a, port);
      StartsAs(health, b, port);
      FoldIsCombined(OnPort(Flat(health, a), port));
      FoldIsCombined(OnPort(Flat(health, b), port));
      assert StateAt(health, a, port) == StateAt(health, b, port);
    }
  }

  /** The spec of a port is independent of hash-map order exactly when its Gateways agree. */
  lemma PortStableIff<K(!new), P(!new)>(health: Health<K, P>, port: nat)
    ensures PortStable(health, port) <==> GatewaysAgree(health, port)
  {
    if GatewaysAgree(health, port) {
      AgreementIsStable(health, port);
    }
    if PortStable(health, port) {
      StableIsAgreement(health, port);
    }
  }

  /** Two Gateways that bring different plain protocols to one port: the walk decides. */
  lemma PlainProtocolsDependOnTheWalk<P(!new)>(a: Info<P>, b: Info<P>)
    requires BindPort(a) == BindPort(b)
    requires a.readiness == NotApplicable && b.readiness == TcpProxy
    ensures var health: Health<bool, P> := map[false := [a], true := [b]]; !PortStable(health, BindPort(a))
  {
    var health: Health<bool, P> := map[false := [a], true := [b]];
    var port := BindPort(a);
    assert [a][..0] == [] && [b][..0] == [];
    assert OnPort(health[false], port) == [a] && OnPort(health[true], port) == [b];
    assert !Mix(HeadProtocol(health, false, port), HeadProtocol(health, true, port));
    PortStableIff(health, port);
  }
}
