/** Peers found on the local network: what the mDNS event loop keeps of the services that appear and go, and when
    its peer list and the live service names agree. */
module Mdns {
  import opened Foundation
  import opened Paths

  // ----- peers

  type Octets4 = b: Bytes | |b| == 4 witness [0, 0, 0, 0]
  type Octets16 = b: Bytes | |b| == 16 witness [0, 0, 0, 0, 0, 0, 0, 0, 0, 0, 0, 0, 0, 0, 0, 0]

  datatype IpAddr = V4(v4: Octets4) | V6(v6: Octets16)

  /** 10.0.0.0/8, 172.16.0.0/12, 192.168.0.0/16 */
  predicate IsPrivate(a: Octets4) {
    || a[0] == 10
    || (a[0] == 172 && 16 <= a[1] < 32)
    || (a[0] == 192 && a[1] == 168)
  }

  /** Not ff00::/8 */
  predicate IsUnicast(a: Octets16) {
    a[0] != 0xff
  }

  /** fc00::/7 */
  predicate IsUniqueLocal(a: Octets16) {
    0xfc <= a[0] < 0xfe
  }

  predicate IsLocal(address: IpAddr) {
    match address
    case V4(v4) => IsPrivate(v4)
    case V6(v6) => IsUnicast(v6) && IsUniqueLocal(v6)
  }

  /** The first `bits` bits of the 32-bit number `address` are those of `net`. */
  predicate InNet(address: nat, net: nat, bits: nat)
    requires bits <= 32
  {
    address / Power(32 - bits) == net / Power(32 - bits)
  }

  function Power(n: nat): (r: nat)
    ensures r > 0
  {
    if n == 0 then 1 else 2 * Power(n - 1)
  }

  function Number(a: Octets4): nat {
    ((a[0] as nat * 0x100 + a[1] as nat) * 0x100 + a[2] as nat) * 0x100 + a[3] as nat
  }

  /** The addresses of local networks are those of 10.0.0.0/8, 172.16.0.0/12, 192.168.0.0/16 and, of the sixth version,
      fc00::/7. */
  lemma LocalIff(v4: Octets4, v6: Octets16)
    ensures IsLocal(V4(v4)) <==>
            InNet(Number(v4), Number([10, 0, 0, 0]), 8) || InNet(Number(v4), Number([172, 16, 0, 0]), 12)
            || InNet(Number(v4), Number([192, 168, 0, 0]), 16)
    ensures IsLocal(V6(v6)) <==> v6[0] / 2 == 0xfc / 2
  {
    Powers();
    Parts(v4);
    hide Power, Number;
    Parts([10, 0, 0, 0]);
    Parts([172, 16, 0, 0]);
    Parts([192, 168, 0, 0]);
  }

  /** The number's first 8, 12 and 16 bits. */
  lemma Parts(a: Octets4)
    ensures Number(a) / 0x100_0000 == a[0] as nat
    ensures Number(a) / 0x10_0000 == a[0] as nat * 16 + a[1] as nat / 16
    ensures Number(a) / 0x1_0000 == a[0] as nat * 0x100 + a[1] as nat
  {
  }

  lemma Powers()
    ensures Power(16) == 0x1_0000 && Power(20) == 0x10_0000 && Power(24) == 0x100_0000
  {
    assert Power(4) == 16;
    assert Power(8) == 0x100;
    assert Power(12) == 0x1000;
    assert Power(16) == 0x1_0000;
    assert Power(20) == 0x10_0000;
  }

  /** `addresses` are in the order of iteration. */
  datatype ServiceInfo = ServiceInfo(
    fullname: string,
    hostname: string,
    addresses: seq<IpAddr>,
    port: nat,
    properties: map<string, string>)

  datatype MdnsPeer = MdnsPeer(vkey: Key, ip: IpAddr, port: nat, name: string)

  function FindLocal(addresses: seq<IpAddr>): Option<IpAddr> {
    if addresses == [] then None
    else if IsLocal(addresses[0]) then Some(addresses[0])
    else FindLocal(addresses[1..])
  }

  ghost predicate FirstLocal(addresses: seq<IpAddr>, i: nat) {
    i < |addresses| && IsLocal(addresses[i]) && forall j :: 0 <= j < i ==> !IsLocal(addresses[j])
  }

  lemma {:induction false} FindsFirst(addresses: seq<IpAddr>, i: nat)
    requires FirstLocal(addresses, i)
    ensures FindLocal(addresses) == Some(addresses[i])
  {
    if i == 0 {
    } else {
      FindsFirst(addresses[1..], i - 1);
    }
  }

  lemma {:induction false} FindsNone(addresses: seq<IpAddr>)
    requires forall i :: 0 <= i < |addresses| ==> !IsLocal(addresses[i])
    ensures FindLocal(addresses) == None
  {
    if addresses != [] {
      FindsNone(addresses[1..]);
    }
  }

  /** `MdnsPeer::try_from`. `decode` is the Base64 decoding of a property followed by the check of the key. */
  function TryFrom(decode: string -> Option<Key>, info: ServiceInfo): Option<MdnsPeer> {
    var address := FindLocal(info.addresses);
    var vkey := if "verifying_key" in info.properties then decode(info.properties["verifying_key"]) else None;
    if address.Some? && vkey.Some? then
      var name := if "name" in info.properties then info.properties["name"] else info.hostname;
      Some(MdnsPeer(vkey.value, address.value, info.port, name))
    else None
  }

  /** A service is a peer exactly when it has an address of a local network and a property that is a key; the peer
      has that key, the first such address, the service's port, and the name property or else the host name. */
  lemma PeerIffUsable(decode: string -> Option<Key>, info: ServiceInfo, i: nat)
    ensures FirstLocal(info.addresses, i) ==>
              match TryFrom(decode, info)
              case Some(peer) =>
                && "verifying_key" in info.properties && decode(info.properties["verifying_key"]) == Some(peer.vkey)
                && peer.ip == info.addresses[i] && peer.port == info.port
                && peer.name == if "name" in info.properties then info.properties["name"] else info.hostname
              case None => "verifying_key" in info.properties ==> decode(info.properties["verifying_key"]) == None
    ensures (forall j :: 0 <= j < |info.addresses| ==> !IsLocal(info.addresses[j])) ==> TryFrom(decode, info) == None
  {
    if FirstLocal(info.addresses, i) {
      FindsFirst(info.addresses, i);
    }
    if forall j :: 0 <= j < |info.addresses| ==> !IsLocal(info.addresses[j]) {
      FindsNone(info.addresses);
    }
  }

  // ----- events

  datatype Event =
    | Found(fullname: string)
    | Resolved(info: ServiceInfo)
    | Removed(fullname: string)
    | Search

  /** `services` are the node's own. */
  datatype State = State(services: set<string>, keyMap: map<string, Key>, lanPeers: map<Key, MdnsPeer>)

  /** The peer that an event resolves, unless it is a service of this node or unusable. */
  function PeerOf(decode: string -> Option<Key>, services: set<string>, event: Event): Option<MdnsPeer> {
    if event.Resolved? && event.info.fullname !in services then TryFrom(decode, event.info) else None
  }

  /** One event. A peer already listed keeps its entry: merging does nothing yet. */
  function Handle(decode: string -> Option<Key>, s: State, event: Event): State {
    match event
    case Resolved(info) =>
      (match PeerOf(decode, s.services, event)
       case None => s
       case Some(peer) =>
         s.(keyMap := s.keyMap[info.fullname := peer.vkey],
            lanPeers := if peer.vkey in s.lanPeers then s.lanPeers else s.lanPeers[peer.vkey := peer]))
    case Removed(fullname) =>
      if fullname in s.keyMap
      then s.(keyMap := s.keyMap - {fullname}, lanPeers := s.lanPeers - {s.keyMap[fullname]})
      else s
    case _ => s
  }

  function After(decode: string -> Option<Key>, services: set<string>, events: seq<Event>): State {
    if events == [] then State(services, map[], map[])
    else Handle(decode, After(decode, services, Front(events)), Last(events))
  }

  // ----- always

  ghost predicate Consistent(s: State) {
    && (forall v :: v in s.lanPeers ==> s.lanPeers[v].vkey == v)
    && s.keyMap.Keys !! s.services
  }

  /** After any events, every peer is listed under its own key, and no service of the node is in the key map. */
  lemma {:induction false} AlwaysConsistent(decode: string -> Option<Key>, services: set<string>, events: seq<Event>)
    ensures Consistent(After(decode, services, events)) && After(decode, services, events).services == services
  {
    if events == [] {
    } else {
      AlwaysConsistent(decode, services, Front(events));
    }
  }

  // ----- what the maps hold

  /** The event resolves service `n` of another node as `peer`. */
  predicate ResolvesTo(decode: string -> Option<Key>, services: set<string>, event: Event, n: string, peer: MdnsPeer) {
    event.Resolved? && event.info.fullname == n && n !in services && TryFrom(decode, event.info) == Some(peer)
  }

  /** The event resolves service `n` of another node with key `v`. */
  predicate Resolves(decode: string -> Option<Key>, services: set<string>, event: Event, n: string, v: Key) {
    && event.Resolved? && event.info.fullname == n && n !in services
    && TryFrom(decode, event.info).Some? && TryFrom(decode, event.info).value.vkey == v
  }

  /** The event resolves service `n` of another node, or removes it. */
  predicate Touches(decode: string -> Option<Key>, services: set<string>, event: Event, n: string) {
    event == Removed(n)
    || (event.Resolved? && event.info.fullname == n && n !in services && TryFrom(decode, event.info).Some?)
  }

  /** The event removes a live name of key `v`. */
  predicate RemovesKey(s: State, event: Event, v: Key) {
    event.Removed? && event.fullname in s.keyMap && s.keyMap[event.fullname] == v
  }

  lemma HandleMaps(decode: string -> Option<Key>, s: State, event: Event, n: string, v: Key)
    ensures var s' := Handle(decode, s, event);
            && (!Touches(decode, s.services, event, n) ==>
                  (n in s'.keyMap <==> n in s.keyMap) && (n in s.keyMap ==> s'.keyMap[n] == s.keyMap[n]))
            && (event == Removed(n) ==> n !in s'.keyMap)
            && (Resolves(decode, s.services, event, n, v) ==> n in s'.keyMap && s'.keyMap[n] == v && v in s'.lanPeers)
            && (Touches(decode, s.services, event, n) && n in s'.keyMap && s'.keyMap[n] == v ==>
                  Resolves(decode, s.services, event, n, v))
            && (v in s.lanPeers && !RemovesKey(s, event, v) ==> v in s'.lanPeers && s'.lanPeers[v] == s.lanPeers[v])
            && (RemovesKey(s, event, v) ==> v !in s'.lanPeers)
            && (v in s'.lanPeers && v !in s.lanPeers ==>
                  event.Resolved? && s'.lanPeers[v].vkey == v
                  && ResolvesTo(decode, s.services, event, event.info.fullname, s'.lanPeers[v]))
  {
  }

  /** The `i`th event was the last to resolve or remove `n`, and resolved it with key `v`. */
  ghost predicate LastNamed(decode: string -> Option<Key>, services: set<string>, events: seq<Event>, n: string, v: Key,
                            i: nat)
  {
    && i < |events| && Resolves(decode, services, events[i], n, v)
    && forall j :: i < j < |events| ==> !Touches(decode, services, events[j], n)
  }

  lemma LastNamedFront(decode: string -> Option<Key>, services: set<string>, events: seq<Event>, n: string, v: Key,
                       i: nat)
    requires events != [] && i + 1 < |events|
    ensures LastNamed(decode, services, events, n, v, i) <==>
            LastNamed(decode, services, Front(events), n, v, i) && !Touches(decode, services, Last(events), n)
  {
  }

  /** A name is live with a key exactly if the last event that resolved or removed it resolved it with that key. */
  lemma {:induction false} KeyMapIsLast(decode: string -> Option<Key>, services: set<string>, events: seq<Event>,
                                        n: string, v: Key)
    ensures var keyMap := After(decode, services, events).keyMap;
            n in keyMap && keyMap[n] == v <==> exists i: nat :: LastNamed(decode, services, events, n, v, i)
  {
    hide Handle, TryFrom;
    if events == [] {
    } else {
      KeyMapIsLast(decode, services, Front(events), n, v);
      AlwaysConsistent(decode, services, Front(events));
      HandleMaps(decode, After(decode, services, Front(events)), Last(events), n, v);
      if i: nat :| LastNamed(decode, services, Front(events), n, v, i) {
        LastNamedFront(decode, services, events, n, v, i);
      }
      if i: nat :| LastNamed(decode, services, events, n, v, i) && i + 1 < |events| {
        LastNamedFront(decode, services, events, n, v, i);
      }
      if Resolves(decode, services, Last(events), n, v) {
        assert LastNamed(decode, services, events, n, v, |events| - 1);
      }
    }
  }

  /** A listed peer is the one that was resolved when its key was last not listed; nothing later changed it. */
  lemma {:induction false} ListedPeerIsFirst(decode: string -> Option<Key>, services: set<string>, events: seq<Event>,
                                             v: Key)
    returns (i: nat)
    requires v in After(decode, services, events).lanPeers
    ensures i < |events| && events[i].Resolved? && var peer := After(decode, services, events).lanPeers[v];
            && peer.vkey == v && ResolvesTo(decode, services, events[i], events[i].info.fullname, peer)
            && v !in After(decode, services, events[..i]).lanPeers
            && forall j :: i < j <= |events| ==> v in After(decode, services, events[..j]).lanPeers
  {
    assert events != [];
    Prefixes(events);
    AlwaysConsistent(decode, services, Front(events));
    var before := After(decode, services, Front(events));
    HandleMaps(decode, before, Last(events), "", v);
    if v in before.lanPeers {
      i := ListedPeerIsFirst(decode, services, Front(events), v);
      forall j | i < j <= |events| ensures v in After(decode, services, events[..j]).lanPeers {
        assert j < |events| ==> events[..j] == Front(events)[..j];
      }
    } else {
      i := |events| - 1;
    }
  }

  /** The `i`th event resolved a service with key `v`, and no live name of the key was removed since. */
  ghost predicate ListedBy(decode: string -> Option<Key>, services: set<string>, events: seq<Event>, v: Key, i: nat) {
    && i < |events| && events[i].Resolved? && Resolves(decode, services, events[i], events[i].info.fullname, v)
    && forall j :: i < j < |events| ==> !RemovesKey(After(decode, services, events[..j]), events[j], v)
  }

  lemma ListedByFront(decode: string -> Option<Key>, services: set<string>, events: seq<Event>, v: Key, i: nat)
    requires events != [] && i + 1 < |events|
    ensures ListedBy(decode, services, events, v, i) <==>
            ListedBy(decode, services, Front(events), v, i)
            && !RemovesKey(After(decode, services, Front(events)), Last(events), v)
  {
    hide TryFrom, Handle;
    assert forall j :: 0 <= j < |events| - 1 ==> events[..j] == Front(events)[..j];
    assert events[..|events| - 1] == Front(events);
  }

  /** A key is listed exactly if it was resolved and no live name of it was removed since. */
  lemma {:induction false} ListedIff(decode: string -> Option<Key>, services: set<string>, events: seq<Event>, v: Key)
    ensures v in After(decode, services, events).lanPeers <==>
            exists i: nat :: ListedBy(decode, services, events, v, i)
  {
    hide Handle, TryFrom;
    if events == [] {
    } else {
      ListedIff(decode, services, Front(events), v);
      AlwaysConsistent(decode, services, Front(events));
      var n := if Last(events).Resolved? then Last(events).info.fullname else "";
      HandleMaps(decode, After(decode, services, Front(events)), Last(events), n, v);
      if i: nat :| ListedBy(decode, services, Front(events), v, i) {
        ListedByFront(decode, services, events, v, i);
      }
      if i: nat :| ListedBy(decode, services, events, v, i) && i + 1 < |events| {
        ListedByFront(decode, services, events, v, i);
      }
      if Resolves(decode, services, Last(events), n, v) {
        assert ListedBy(decode, services, events, v, |events| - 1);
      }
    }
  }

  // ----- when the list and the live names agree

  /** Every listed peer has a live name. */
  ghost predicate PeersNamed(s: State) {
    forall v :: v in s.lanPeers ==> exists n :: n in s.keyMap && s.keyMap[n] == v
  }

  /** Every live name's peer is listed. */
  ghost predicate NamesListed(s: State) {
    forall n :: n in s.keyMap ==> s.keyMap[n] in s.lanPeers
  }

  /** No other live name has the key of `n`. */
  predicate OnlyName(keyMap: map<string, Key>, n: string)
    requires n in keyMap
  {
    forall m :: m in keyMap && keyMap[m] == keyMap[n] ==> m == n
  }

  /** The event gives the only live name of a listed peer to another key. */
  predicate TakesName(decode: string -> Option<Key>, s: State, event: Event) {
    var peer := PeerOf(decode, s.services, event);
    && peer.Some? && var n := event.info.fullname;
    && n in s.keyMap && s.keyMap[n] != peer.value.vkey && s.keyMap[n] in s.lanPeers && OnlyName(s.keyMap, n)
  }

  /** The event removes one of several live names of a key. */
  predicate RemovesAlias(s: State, event: Event) {
    event.Removed? && event.fullname in s.keyMap && !OnlyName(s.keyMap, event.fullname)
  }

  /** Exactly the events that take a peer's only name leave a listed peer without one. */
  lemma PeersNamedStep(decode: string -> Option<Key>, s: State, event: Event)
    requires PeersNamed(s)
    ensures PeersNamed(Handle(decode, s, event)) <==> !TakesName(decode, s, event)
  {
    var s' := Handle(decode, s, event);
    var peer := PeerOf(decode, s.services, event);
    if TakesName(decode, s, event) {
      var v := s.keyMap[event.info.fullname];
      assert v in s'.lanPeers && forall n :: n in s'.keyMap ==> s'.keyMap[n] != v;
    } else {
      forall v | v in s'.lanPeers ensures exists n :: n in s'.keyMap && s'.keyMap[n] == v {
        if peer.Some? && v == peer.value.vkey {
          assert s'.keyMap[event.info.fullname] == v;
        } else {
          var n :| n in s.keyMap && s.keyMap[n] == v;
          if peer.Some? && n == event.info.fullname {
            var m :| m in s.keyMap && s.keyMap[m] == v && m != n;
            assert s'.keyMap[m] == v;
          } else {
            assert n in s'.keyMap && s'.keyMap[n] == v;
          }
        }
      }
    }
  }

  /** Exactly the events that remove one of several names of a key leave a live name without a listed peer. */
  lemma NamesListedStep(decode: string -> Option<Key>, s: State, event: Event)
    requires NamesListed(s)
    ensures NamesListed(Handle(decode, s, event)) <==> !RemovesAlias(s, event)
  {
    if RemovesAlias(s, event) {
      var m :| m in s.keyMap && s.keyMap[m] == s.keyMap[event.fullname] && m != event.fullname;
      assert m in Handle(decode, s, event).keyMap;
    }
  }

  /** Over any events: every listed peer has a live name at all times exactly when no event takes a peer's only
      name. */
  lemma {:induction false} PeersNamedIff(decode: string -> Option<Key>, services: set<string>, events: seq<Event>)
    ensures (forall i :: 0 <= i <= |events| ==> PeersNamed(After(decode, services, events[..i])))
            <==> (forall i :: 0 <= i < |events| ==> !TakesName(decode, After(decode, services, events[..i]), events[i]))
  {
    if events == [] {
      assert events[..0] == [];
    } else {
      var before := Front(events);
      PeersNamedIff(decode, services, before);
      Prefixes(events);
      if PeersNamed(After(decode, services, before)) {
        PeersNamedStep(decode, After(decode, services, before), Last(events));
      }
    }
  }

  /** Over any events: every live name's peer is listed at all times exactly when no event removes one of several
      names of a key. */
  lemma {:induction false} NamesListedIff(decode: string -> Option<Key>, services: set<string>, events: seq<Event>)
    ensures (forall i :: 0 <= i <= |events| ==> NamesListed(After(decode, services, events[..i])))
            <==> (forall i :: 0 <= i < |events| ==> !RemovesAlias(After(decode, services, events[..i]), events[i]))
  {
    if events == [] {
      assert events[..0] == [];
    } else {
      var before := Front(events);
      NamesListedIff(decode, services, before);
      Prefixes(events);
      if NamesListed(After(decode, services, before)) {
        NamesListedStep(decode, After(decode, services, before), Last(events));
      }
    }
  }

  lemma Prefixes(events: seq<Event>)
    requires events != []
    ensures forall i :: 0 <= i < |events| ==> events[..i] == Front(events)[..i]
    ensures events[..|events| - 1] == Front(events) == Front(events)[..|events| - 1] && events[..|events|] == events
    ensures events[|events| - 1] == Last(events)
  {
  }

  // ----- stable names

  /** No service name is resolved with two keys. */
  ghost predicate NamesKeepKeys(decode: string -> Option<Key>, services: set<string>, events: seq<Event>) {
    forall i, j :: 0 <= i < |events| && 0 <= j < |events| ==>
      var (p, q) := (PeerOf(decode, services, events[i]), PeerOf(decode, services, events[j]));
      p.Some? && q.Some? && events[i].info.fullname == events[j].info.fullname ==> p.value.vkey == q.value.vkey
  }

  /** No key is resolved with two service names. */
  ghost predicate KeysKeepNames(decode: string -> Option<Key>, services: set<string>, events: seq<Event>) {
    forall i, j :: 0 <= i < |events| && 0 <= j < |events| ==>
      var (p, q) := (PeerOf(decode, services, events[i]), PeerOf(decode, services, events[j]));
      p.Some? && q.Some? && p.value.vkey == q.value.vkey ==> events[i].info.fullname == events[j].info.fullname
  }

  /** A live name was resolved with its key. */
  lemma {:induction false} NamesWereResolved(decode: string -> Option<Key>, services: set<string>,
                                             events: seq<Event>, n: string)
    returns (i: nat)
    requires n in After(decode, services, events).keyMap
    ensures i < |events| && Resolves(decode, services, events[i], n, After(decode, services, events).keyMap[n])
  {
    var before := After(decode, services, Front(events));
    AlwaysConsistent(decode, services, Front(events));
    if Resolves(decode, services, Last(events), n, After(decode, services, events).keyMap[n]) {
      i := |events| - 1;
    } else {
      assert n in before.keyMap && before.keyMap[n] == After(decode, services, events).keyMap[n];
      i := NamesWereResolved(decode, services, Front(events), n);
    }
  }

  /** If no name ever changes its key, every listed peer has a live name. */
  lemma {:induction false} StableNamesNamed(decode: string -> Option<Key>, services: set<string>, events: seq<Event>)
    requires NamesKeepKeys(decode, services, events)
    ensures PeersNamed(After(decode, services, events))
  {
    if events == [] {
    } else {
      var (before, last) := (After(decode, services, Front(events)), Last(events));
      StableNamesNamed(decode, services, Front(events));
      AlwaysConsistent(decode, services, Front(events));
      if PeerOf(decode, services, last).Some? && last.info.fullname in before.keyMap {
        var i := NamesWereResolved(decode, services, Front(events), last.info.fullname);
        assert events[|events| - 1] == last && events[i] == Front(events)[i];
      }
      PeersNamedStep(decode, before, last);
    }
  }

  lemma {:induction false} SingleNamesListed(decode: string -> Option<Key>, services: set<string>, events: seq<Event>)
    requires KeysKeepNames(decode, services, events)
    ensures NamesListed(After(decode, services, events))
  {
    if events == [] {
    } else {
      var (before, last) := (After(decode, services, Front(events)), Last(events));
      SingleNamesListed(decode, services, Front(events));
      forall m, n | m in before.keyMap && n in before.keyMap && before.keyMap[m] == before.keyMap[n] ensures m == n {
        var i := NamesWereResolved(decode, services, Front(events), m);
        var j := NamesWereResolved(decode, services, Front(events), n);
      }
      NamesListedStep(decode, before, last);
    }
  }

  /** If also no key ever has two names, live names and listed peers are in bijection: the key map leads from each
      live name to a listed peer, to each listed peer from one name. */
  lemma Bijection(decode: string -> Option<Key>, services: set<string>, events: seq<Event>)
    requires NamesKeepKeys(decode, services, events) && KeysKeepNames(decode, services, events)
    ensures var s := After(decode, services, events);
            && s.keyMap.Values == s.lanPeers.Keys
            && forall m, n :: m in s.keyMap && n in s.keyMap && s.keyMap[m] == s.keyMap[n] ==> m == n
  {
    var s := After(decode, services, events);
    StableNamesNamed(decode, services, events);
    SingleNamesListed(decode, services, events);
    forall m, n | m in s.keyMap && n in s.keyMap && s.keyMap[m] == s.keyMap[n] ensures m == n {
      var i := NamesWereResolved(decode, services, events, m);
      var j := NamesWereResolved(decode, services, events, n);
    }
    forall v | v in s.lanPeers.Keys ensures v in s.keyMap.Values {
      var n :| n in s.keyMap && s.keyMap[n] == v;
    }
  }

  /** Two peers that use one name one after the other: the first stays listed when the name is gone. */
  lemma RenamedPeerStays(decode: string -> Option<Key>, a: ServiceInfo, b: ServiceInfo, p: MdnsPeer, q: MdnsPeer)
    requires TryFrom(decode, a) == Some(p) && TryFrom(decode, b) == Some(q)
    requires a.fullname == b.fullname && p.vkey != q.vkey
    ensures var s := After(decode, {}, [Resolved(a), Resolved(b), Removed(a.fullname)]);
            s.keyMap == map[] && s.lanPeers == map[p.vkey := p]
  {
    Unroll(decode, Resolved(a), Resolved(b), Removed(a.fullname));
  }

  /** Two services of one peer: when one goes, the peer is no longer listed, though the other is still there. */
  lemma AliasedPeerVanishes(decode: string -> Option<Key>, a: ServiceInfo, b: ServiceInfo, p: MdnsPeer, q: MdnsPeer)
    requires TryFrom(decode, a) == Some(p) && TryFrom(decode, b) == Some(q)
    requires a.fullname != b.fullname && p.vkey == q.vkey
    ensures var s := After(decode, {}, [Resolved(a), Resolved(b), Removed(a.fullname)]);
            s.keyMap == map[b.fullname := p.vkey] && s.lanPeers == map[]
  {
    Unroll(decode, Resolved(a), Resolved(b), Removed(a.fullname));
  }

  lemma Unroll(decode: string -> Option<Key>, x: Event, y: Event, z: Event)
    ensures After(decode, {}, [x, y, z])
            == Handle(decode, Handle(decode, Handle(decode, State({}, map[], map[]), x), y), z)
  {
    assert Front([x, y, z]) == [x, y] && Front([x, y]) == [x] && Front([x]) == [];
    assert After(decode, {}, []) == State({}, map[], map[]);
    assert After(decode, {}, [x]) == Handle(decode, After(decode, {}, []), x);
    assert After(decode, {}, [x, y]) == Handle(decode, After(decode, {}, [x]), y);
  }

  // ----- the loop

  /** What the loop selects: a command or a closed command queue, an event, or word of the daemon. */
  datatype Input = Stop | Event(event: Event) | Daemon

  /** The events before the first stop. */
  function EventsOf(inputs: seq<Input>): seq<Event> {
    if inputs == [] then []
    else EventsOf(Front(inputs)) + if Last(inputs).Event? then [Last(inputs).event] else []
  }

  class MdnsListener {
    const decode: string -> Option<Key>
    const services: set<string>
    var keyMap: map<string, Key>
    var lanPeers: map<Key, MdnsPeer>

    ghost function View(): State
      reads this
    {
      State(services, keyMap, lanPeers)
    }

    constructor (decode: string -> Option<Key>, services: set<string>)
      ensures this.decode == decode && View() == After(decode, services, [])
    {
      this.decode, this.services, keyMap, lanPeers := decode, services, map[], map[];
    }

    /** One turn of the loop on a service event. */
    method OnEvent(event: Event)
      modifies this
      ensures View() == Handle(decode, old(View()), event)
    {
      match event {
        case Resolved(info) =>
          if info.fullname !in services {
            var resolved := TryFrom(decode, info);
            if resolved.Some? {
              var peer := resolved.value;
              keyMap := keyMap[info.fullname := peer.vkey];
              if peer.vkey !in lanPeers {
                lanPeers := lanPeers[peer.vkey := peer];
              }
            }
          }
        case Removed(fullname) =>
          if fullname in keyMap {
            var vkey := keyMap[fullname];
            keyMap := keyMap - {fullname};
            lanPeers := lanPeers - {vkey};
          }
        case _ =>
      }
    }

    /** The loop: the service events before the first stop are handled, in order, and none after. */
    method Listen(inputs: seq<Input>) returns (taken: nat)
      requires View() == After(decode, services, [])
      modifies this
      ensures taken <= |inputs| && (taken < |inputs| ==> inputs[taken] == Stop)
      ensures forall i :: 0 <= i < taken ==> inputs[i] != Stop
      ensures View() == After(decode, services, EventsOf(inputs[..taken]))
    {
      taken := 0;
      while taken < |inputs| && inputs[taken] != Stop
        invariant taken <= |inputs| && forall i :: 0 <= i < taken ==> inputs[i] != Stop
        invariant View() == After(decode, services, EventsOf(inputs[..taken]))
      {
        ghost var before := EventsOf(inputs[..taken]);
        assert Front(inputs[..taken + 1]) == inputs[..taken];
        if inputs[taken].Event? {
          OnEvent(inputs[taken].event);
          assert Front(before + [inputs[taken].event]) == before;
        } else {
          assert before + [] == before;
        }
        taken := taken + 1;
      }
    }
  }
}
