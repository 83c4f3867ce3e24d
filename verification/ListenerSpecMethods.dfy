/** The two loops over the listener status map. */
module ListenerSpecMethods {
  import opened Options
  import opened ListFacts
  import opened ListenerSpecs

  ghost predicate TracksAt<P>(state: map<nat, PortState<P>>, infos: seq<Info<P>>, excluded: set<nat>, port: nat) {
    && (port in state <==> port !in excluded && OnPort(infos, port) != [])
    && (port in state ==> state[port] == Fold(OnPort(infos, port)))
  }

  /** `state` is the accumulation over `infos`, port by port, leaving excluded ports out. */
  ghost predicate Tracks<P>(state: map<nat, PortState<P>>, infos: seq<Info<P>>, excluded: set<nat>) {
    forall port: nat :: TracksAt(state, infos, excluded, port)
  }

  /** One turn of the inner loop. */
  function Take<P>(state: map<nat, PortState<P>>, excluded: set<nat>, i: Info<P>): map<nat, PortState<P>> {
    var port, protocol := BindPort(i), ProtocolOf(i.readiness);
    if port in excluded then state
    else if port in state then state[port := Upgrade(state[port], protocol, i.proxy)]
    else state[port := PortState(protocol, i.proxy)]
  }

  lemma TakeTracksAt<P>(state: map<nat, PortState<P>>, infos: seq<Info<P>>, excluded: set<nat>, i: Info<P>, port: nat)
    requires TracksAt(state, infos, excluded, port)
    ensures TracksAt(Take(state, excluded, i), infos + [i], excluded, port)
  {
    assert (infos + [i])[..|infos|] == infos;
    var s := OnPort(infos, port);
    if BindPort(i) == port {
      assert OnPort(infos + [i], port) == s + [i];
      assert (s + [i])[..|s|] == s;
      assert s == [] ==> |s + [i]| == 1;
    } else {
      assert OnPort(infos + [i], port) == s;
    }
  }

  lemma TakeTracks<P>(state: map<nat, PortState<P>>, infos: seq<Info<P>>, excluded: set<nat>, i: Info<P>)
    requires Tracks(state, infos, excluded)
    ensures Tracks(Take(state, excluded, i), infos + [i], excluded)
  {
    forall port: nat ensures TracksAt(Take(state, excluded, i), infos + [i], excluded, port) {
      TakeTracksAt(state, infos, excluded, i, port);
    }
  }

  method TakeAll<P>(state: map<nat, PortState<P>>, ghost before: seq<Info<P>>, excluded: set<nat>, infos: seq<Info<P>>)
    returns (next: map<nat, PortState<P>>)
    requires Tracks(state, before, excluded)
    ensures Tracks(next, before + infos, excluded)
  {
    next := state;
    ghost var taken := before;
    for j := 0 to |infos|
      invariant taken == before + infos[..j]
      invariant Tracks(next, taken, excluded)
    {
      TakeTracks(next, taken, excluded, infos[j]);
      next := Take(next, excluded, infos[j]);
      taken := taken + [infos[j]];
    }
    assert infos[..|infos|] == infos;
  }

  /** The specs after walking the Gateways in `order`. */
  ghost function SpecSet<K(!new), P(!new)>(health: Health<K, P>, excluded: set<nat>,
                                           order: seq<K>): set<ListenerSpec<P>>
    requires forall k :: k in order ==> k in health
  {
    set i | i in Flat(health, order) && BindPort(i) !in excluded && StateAt(health, order, BindPort(i)).Some? ::
      var s := StateAt(health, order, BindPort(i)).value;
      ListenerSpec(BindPort(i), s.protocol, s.proxy)
  }

  /** Exactly one spec for each bound port that is not excluded. */
  lemma SpecSetHas<K(!new), P(!new)>(health: Health<K, P>, excluded: set<nat>, order: seq<K>, spec: ListenerSpec<P>)
    requires forall k :: k in order ==> k in health
    ensures spec in SpecSet(health, excluded, order) <==>
            spec.port !in excluded && StateAt(health, order, spec.port) == Some(PortState(spec.protocol, spec.proxy))
  {
    if spec.port !in excluded && StateAt(health, order, spec.port) == Some(PortState(spec.protocol, spec.proxy)) {
      var s := OnPort(Flat(health, order), spec.port);
      OnPortMembers(Flat(health, order), spec.port);
      assert s[0] in s;
      assert BindPort(s[0]) == spec.port;
    }
  }

  lemma TracksStateAt<K(!new), P(!new)>(health: Health<K, P>, excluded: set<nat>, order: seq<K>,
                                        state: map<nat, PortState<P>>, port: nat)
    requires forall k :: k in order ==> k in health
    requires Tracks(state, Flat(health, order), excluded)
    ensures port in state <==> port !in excluded && StateAt(health, order, port).Some?
    ensures port in state ==> StateAt(health, order, port) == Some(state[port])
  {
    assert TracksAt(state, Flat(health, order), excluded, port);
  }

  /** The specs of some walk: one for each port with a listener that is not excluded, and no other. */
  method DeriveGatewaySpecs<K(!new, ==), P(!new, ==)>(health: Health<K, P>, excluded: set<nat>)
    returns (specs: set<ListenerSpec<P>>)
    ensures exists order :: Enumerates(order, health.Keys) && specs == SpecSet(health, excluded, order)
    ensures forall port: nat ::
              (exists spec :: spec in specs && spec.port == port) <==>
              port !in excluded && exists k :: k in health && OnPort(health[k], port) != []
    ensures forall spec, spec' :: spec in specs && spec' in specs && spec.port == spec'.port ==> spec == spec'
  {
    ghost var order;
    var state;
    state, order := Accumulate(health, excluded);
    specs := set port | port in state :: ListenerSpec(port, state[port].protocol, state[port].proxy);
    forall spec ensures spec in specs <==> spec in SpecSet(health, excluded, order) {
      SpecSetHas(health, excluded, order, spec);
      TracksStateAt(health, excluded, order, state, spec.port);
    }
    forall port: nat
      ensures (exists spec :: spec in specs && spec.port == port) <==>
              port !in excluded && exists k :: k in health && OnPort(health[k], port) != []
    {
      TracksStateAt(health, excluded, order, state, port);
      FlatHead(health, order, port);
      assert port in state ==> ListenerSpec(port, state[port].protocol, state[port].proxy) in specs;
    }
  }

  method Accumulate<K(!new, ==), P(!new)>(health: Health<K, P>, excluded: set<nat>)
    returns (state: map<nat, PortState<P>>, ghost order: seq<K>)
    ensures Enumerates(order, health.Keys) && Tracks(state, Flat(health, order), excluded)
  {
    state, order := map[], [];
    var todo := health.Keys;
    while todo != {}
      invariant todo <= health.Keys && Enumerates(order, health.Keys - todo)
      invariant Tracks(state, Flat(health, order), excluded)
      decreases |todo|
    {
      var k :| k in todo;
      state := TakeAll(state, Flat(health, order), excluded, health[k]);
      assert (order + [k])[..|order|] == order;
      EnumerateOneMore(order, health.Keys - todo, k);
      assert health.Keys - (todo - {k}) == health.Keys - todo + {k};
      order := order + [k];
      todo := todo - {k};
    }
    assert health.Keys - {} == health.Keys;
  }

  lemma EnumerateOneMore<K(!new)>(order: seq<K>, keys: set<K>, k: K)
    requires Enumerates(order, keys) && k !in keys
    ensures Enumerates(order + [k], keys + {k})
  {
    assert k !in order;
    forall x ensures x in order + [k] <==> x in keys + {k} {
    }
  }

  /** The whole set of specs is independent of hash-map order. */
  ghost predicate SpecsStable<K(!new), P(!new)>(health: Health<K, P>, excluded: set<nat>) {
    forall a, b :: Enumerates(a, health.Keys) && Enumerates(b, health.Keys) ==>
      SpecSet(health, excluded, a) == SpecSet(health, excluded, b)
  }

  /** It is so exactly when the Gateways agree on every port that is not excluded. */
  lemma SpecsStableIff<K(!new), P(!new)>(health: Health<K, P>, excluded: set<nat>)
    ensures SpecsStable(health, excluded) <==> forall port: nat :: port !in excluded ==> GatewaysAgree(health, port)
  {
    if SpecsStable(health, excluded) {
      forall port: nat | port !in excluded ensures GatewaysAgree(health, port) {
        StableSetStablePort(health, excluded, port);
        PortStableIff(health, port);
      }
    }
    if forall port: nat :: port !in excluded ==> GatewaysAgree(health, port) {
      forall a, b | Enumerates(a, health.Keys) && Enumerates(b, health.Keys)
        ensures SpecSet(health, excluded, a) == SpecSet(health, excluded, b)
      {
        AgreeingSets(health, excluded, a, b);
      }
    }
  }

  lemma AgreeingSets<K(!new), P(!new)>(health: Health<K, P>, excluded: set<nat>, a: seq<K>, b: seq<K>)
    requires forall port: nat :: port !in excluded ==> GatewaysAgree(health, port)
    requires Enumerates(a, health.Keys) && Enumerates(b, health.Keys)
    ensures SpecSet(health, excluded, a) == SpecSet(health, excluded, b)
  {
    forall spec ensures spec in SpecSet(health, excluded, a) <==> spec in SpecSet(health, excluded, b) {
      SpecSetHas(health, excluded, a, spec);
      SpecSetHas(health, excluded, b, spec);
      if spec.port !in excluded {
        PortStableIff(health, spec.port);
      }
    }
  }

  lemma StableSetStablePort<K(!new), P(!new)>(health: Health<K, P>, excluded: set<nat>, port: nat)
    requires SpecsStable(health, excluded) && port !in excluded
    ensures PortStable(health, port)
  {
    forall a, b | Enumerates(a, health.Keys) && Enumerates(b, health.Keys)
      ensures StateAt(health, a, port) == StateAt(health, b, port)
    {
      SameEmptiness(health, a, b, port);
      SameEmptiness(health, b, a, port);
      if StateAt(health, a, port).Some? {
        var s := StateAt(health, a, port).value;
        var spec := ListenerSpec(port, s.protocol, s.proxy);
        SpecSetHas(health, excluded, a, spec);
        SpecSetHas(health, excluded, b, spec);
      }
    }
  }

  ghost predicate ListsOn<K(!new), P>(health: Health<K, P>, i: Info<P>, port: nat) {
    exists k :: k in health && i in OnPort(health[k], port)
  }

  /** One protocol, or only TLS ones, and one PROXY configuration, among the listeners of the port. */
  ghost predicate Uniform<K(!new), P(!new)>(health: Health<K, P>, port: nat) {
    forall i, i' :: ListsOn(health, i, port) && ListsOn(health, i', port) ==>
      && Mix(ProtocolOf(i.readiness), ProtocolOf(i'.readiness))
      && (i.proxy.Some? && i'.proxy.Some? ==> i.proxy == i'.proxy)
  }

  /** Enough in practice, whatever Gateways the listeners belong to. */
  lemma UniformPortsAgree<K(!new), P(!new)>(health: Health<K, P>, port: nat)
    requires Uniform(health, port)
    ensures GatewaysAgree(health, port)
  {
    forall k, k' | k in health && k' in health && OnPort(health[k], port) != [] && OnPort(health[k'], port) != []
      ensures Mix(HeadProtocol(health, k, port), HeadProtocol(health, k', port))
      ensures var c, c' := FirstProxy(OnPort(health[k], port)), FirstProxy(OnPort(health[k'], port));
              c.Some? && c'.Some? ==> c == c'
    {
      var s, t := OnPort(health[k], port), OnPort(health[k'], port);
      assert ListsOn(health, s[0], port) && ListsOn(health, t[0], port);
      FirstProxyIsSome(s);
      FirstProxyIsSome(t);
      if FirstProxy(s).Some? && FirstProxy(t).Some? {
        var i :| i in s && i.proxy == FirstProxy(s);
        var i' :| i' in t && i'.proxy == FirstProxy(t);
        assert ListsOn(health, i, port) && ListsOn(health, i', port);
      }
    }
  }

  lemma {:induction false} FirstProxyIsSome<P>(s: seq<Info<P>>)
    ensures FirstProxy(s).Some? ==> exists i :: i in s && i.proxy == FirstProxy(s)
  {
    if s != [] && s[0].proxy.None? {
      FirstProxyIsSome(s[1..]);
    } else if s != [] {
      assert s[0] in s;
    }
  }

  // --------------------------------------------------------- advertised ports

  ghost predicate Lists<K(!new), P>(health: Health<K, P>, i: Info<P>) {
    exists k :: k in health && i in health[k]
  }

  /** Listeners that share a bind port share their spec port. */
  ghost predicate SharedPortsAgree<K(!new), P(!new)>(health: Health<K, P>) {
    forall i, i' :: Lists(health, i) && Lists(health, i') && BindPort(i) == BindPort(i') ==> i.port == i'.port
  }

  /** The map takes every listener's bind port back to its spec port. */
  ghost predicate Inverts<K(!new), P(!new)>(health: Health<K, P>, m: map<nat, nat>) {
    forall i :: Lists(health, i) ==> BindPort(i) in m && m[BindPort(i)] == i.port
  }

  /** The keys are the bind ports, and each value is the spec port of a listener bound there. */
  ghost predicate Advertises<K(!new), P(!new)>(health: Health<K, P>, m: map<nat, nat>) {
    && (forall i :: Lists(health, i) ==> BindPort(i) in m)
    && (forall port :: port in m ==> exists i :: Lists(health, i) && BindPort(i) == port && i.port == m[port])
  }

  /** Any such map inverts the binding exactly when shared bind ports agree. */
  lemma InvertsIff<K(!new), P(!new)>(health: Health<K, P>, m: map<nat, nat>)
    requires Advertises(health, m)
    ensures Inverts(health, m) <==> SharedPortsAgree(health)
  {
    if SharedPortsAgree(health) {
      forall i | Lists(health, i) ensures BindPort(i) in m && m[BindPort(i)] == i.port {
        var i' :| Lists(health, i') && BindPort(i') == BindPort(i) && i'.port == m[BindPort(i)];
      }
    }
  }

  /** Every spec's port is advertised. */
  lemma SpecsAreAdvertised<K(!new), P(!new)>(health: Health<K, P>, excluded: set<nat>, order: seq<K>,
                                             m: map<nat, nat>, spec: ListenerSpec<P>)
    requires Enumerates(order, health.Keys) && Advertises(health, m)
    requires spec in SpecSet(health, excluded, order)
    ensures spec.port in m
  {
    SpecSetHas(health, excluded, order, spec);
    var s := OnPort(Flat(health, order), spec.port);
    OnPortMembers(Flat(health, order), spec.port);
    assert s[0] in s;
    FlatMembers(health, order, s[0]);
    assert Lists(health, s[0]);
  }

  /** `m` holds, for each bind port, the spec port of the last listener inserted for it. */
  ghost predicate TracksPorts<P>(m: map<nat, nat>, infos: seq<Info<P>>) {
    forall port: nat ::
      && (port in m <==> OnPort(infos, port) != [])
      && (port in m ==> m[port] == OnPort(infos, port)[|OnPort(infos, port)| - 1].port)
  }

  lemma InsertTracks<P>(m: map<nat, nat>, infos: seq<Info<P>>, i: Info<P>)
    requires TracksPorts(m, infos)
    ensures TracksPorts(m[BindPort(i) := i.port], infos + [i])
  {
    assert (infos + [i])[..|infos|] == infos;
    forall port: nat
      ensures OnPort(infos + [i], port) == OnPort(infos, port) + (if BindPort(i) == port then [i] else []) {
    }
  }

  lemma TrackedIsAdvertised<K(!new), P(!new)>(health: Health<K, P>, order: seq<K>, m: map<nat, nat>)
    requires Enumerates(order, health.Keys) && TracksPorts(m, Flat(health, order))
    ensures Advertises(health, m)
  {
    var all := Flat(health, order);
    forall i | Lists(health, i) ensures BindPort(i) in m {
      FlatMembers(health, order, i);
      OnPortMembers(all, BindPort(i));
      assert i in OnPort(all, BindPort(i));
    }
    forall port | port in m ensures exists i :: Lists(health, i) && BindPort(i) == port && i.port == m[port] {
      var s := OnPort(all, port);
      OnPortMembers(all, port);
      var i := s[|s| - 1];
      assert i in s;
      FlatMembers(health, order, i);
      assert Lists(health, i);
    }
  }

  method InsertAll<P>(m: map<nat, nat>, ghost before: seq<Info<P>>, infos: seq<Info<P>>) returns (next: map<nat, nat>)
    requires TracksPorts(m, before)
    ensures TracksPorts(next, before + infos)
  {
    next := m;
    ghost var taken := before;
    for j := 0 to |infos|
      invariant taken == before + infos[..j]
      invariant TracksPorts(next, taken)
    {
      InsertTracks(next, taken, infos[j]);
      next := next[BindPort(infos[j]) := infos[j].port];
      taken := taken + [infos[j]];
    }
    assert infos[..|infos|] == infos;
  }

  method DeriveAdvertisedPorts<K(!new, ==), P(!new)>(health: Health<K, P>) returns (m: map<nat, nat>)
    ensures exists order :: Enumerates(order, health.Keys) && TracksPorts(m, Flat(health, order))
    ensures Advertises(health, m)
    ensures Inverts(health, m) <==> SharedPortsAgree(health)
  {
    m := map[];
    var todo := health.Keys;
    ghost var order: seq<K> := [];
    while todo != {}
      invariant todo <= health.Keys && Enumerates(order, health.Keys - todo)
      invariant TracksPorts(m, Flat(health, order))
      decreases |todo|
    {
      var k :| k in todo;
      m := InsertAll(m, Flat(health, order), health[k]);
      assert (order + [k])[..|order|] == order;
      EnumerateOneMore(order, health.Keys - todo, k);
      assert health.Keys - (todo - {k}) == health.Keys - todo + {k};
      order := order + [k];
      todo := todo - {k};
    }
    assert health.Keys - {} == health.Keys;
    TrackedIsAdvertised(health, order, m);
    InvertsIff(health, m);
  }
}
