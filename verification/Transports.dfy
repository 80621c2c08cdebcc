/** Which transports a swarm gets, and which listen ports TCP and WebSocket share. */
module Transports {
  import opened Outcomes
  import opened Lists
  import opened Text

  datatype Kind = Tcp | WebTransport | Quic | WebSocket | WebRtcDirect | WebRtcPrivate

  /** One protocol of a multiaddr with its value, `""` when it has none. */
  datatype Component = Component(name: string, value: string)

  type Address = seq<Component>

  function Names(a: Address): seq<string> {
    seq(|a|, i requires 0 <= i < |a| => a[i].name)
  }

  predicate Has(a: Address, name: string) {
    name in Names(a)
  }

  predicate IsWs(a: Address) {
    Has(a, "ws") || Has(a, "wss")
  }

  predicate IsQuic(a: Address) {
    Has(a, "quic") || Has(a, "quic-v1")
  }

  /** The transport an address calls for; those that need the host key are skipped without one. */
  function Classify(a: Address, hasKey: bool): Option<Kind> {
    if Has(a, "tcp") && !IsWs(a) then Some(Tcp)
    else if Has(a, "webtransport") then if hasKey then Some(WebTransport) else None
    else if IsQuic(a) then if hasKey then Some(Quic) else None
    else if IsWs(a) then Some(WebSocket)
    else if Has(a, "webrtc-direct") then if hasKey then Some(WebRtcDirect) else None
    else if Has(a, "webrtc") then if hasKey then Some(WebRtcPrivate) else None
    else None
  }

  datatype Flags = Flags(quic: bool, webrtc: bool, webtransport: bool, tcp: bool, websocket: bool)

  datatype BuildError = NoKeyPair

  // ----- what the detection loop computes -----

  /** The kinds that occur, each once, in the order of their first occurrence. */
  function FirstOccurrences(ks: seq<Option<Kind>>): seq<Kind> {
    if ks == [] then []
    else
      var before, last := FirstOccurrences(ks[..|ks| - 1]), ks[|ks| - 1];
      if last.Some? && last.value !in before then before + [last.value] else before
  }

  function Classified(addrs: seq<Address>, hasKey: bool): seq<Option<Kind>> {
    seq(|addrs|, i requires 0 <= i < |addrs| => Classify(addrs[i], hasKey))
  }

  function Detected(addrs: seq<Address>, hasKey: bool): seq<Kind> {
    FirstOccurrences(Classified(addrs, hasKey))
  }

  /** The kind occurs at position i and nowhere before. */
  ghost predicate FirstAt(ks: seq<Option<Kind>>, k: Kind, i: nat) {
    i < |ks| && ks[i] == Some(k) && forall j :: 0 <= j < i ==> ks[j] != Some(k)
  }

  lemma {:induction false} FirstOccurrencesHold(ks: seq<Option<Kind>>, k: Kind)
    ensures k in FirstOccurrences(ks) <==> Some(k) in ks
    ensures NoRepeats(FirstOccurrences(ks))
  {
    if ks != [] {
      var init, last := ks[..|ks| - 1], ks[|ks| - 1];
      assert ks == init + [last];
      FirstOccurrencesHold(init, k);
    }
  }

  /** Kinds stand in the order of their first occurrences. */
  lemma {:induction false} FirstOccurrencesInOrder(ks: seq<Option<Kind>>, p: nat, q: nat, i: nat, j: nat)
    requires p < q < |FirstOccurrences(ks)|
    requires FirstAt(ks, FirstOccurrences(ks)[p], i) && FirstAt(ks, FirstOccurrences(ks)[q], j)
    ensures i < j
  {
    var init := ks[..|ks| - 1];
    var before := FirstOccurrences(init);
    var k, l := FirstOccurrences(ks)[p], FirstOccurrences(ks)[q];
    FirstOccurrencesHold(init, k);
    FirstOccurrencesHold(init, l);
    assert before[p] == k;
    assert k in before && Some(k) in init;
    var n :| 0 <= n < |init| && init[n] == Some(k);
    assert ks[n] == Some(k) && i <= n;
    if q < |before| {
      assert l in before && Some(l) in init;
      var m :| 0 <= m < |init| && init[m] == Some(l);
      assert ks[m] == Some(l) && j <= m;
      assert forall r :: 0 <= r < |init| ==> init[r] == ks[r];
      FirstOccurrencesInOrder(init, p, q, i, j);
    } else {
      assert l !in before;
      assert forall r :: 0 <= r < |init| ==> init[r] == ks[r] && init[r] in init;
      assert j == |ks| - 1;
    }
  }

  function When(cond: bool, k: Kind): seq<Kind> {
    if cond then [k] else []
  }

  function Streams(flags: Flags): seq<Kind> {
    When(flags.quic, Quic) + When(flags.websocket, WebSocket)
  }

  function Asked(flags: Flags, hasKey: bool): seq<Kind> {
    Streams(flags) + (When(flags.webrtc && hasKey, WebRtcDirect) + When(flags.webtransport && hasKey, WebTransport))
  }

  /** The transports the flags ask for; TCP when they ask for nothing else. */
  function FromFlags(flags: Flags, hasKey: bool): seq<Kind> {
    Asked(flags, hasKey) + When(flags.tcp || Asked(flags, hasKey) == [], Tcp)
  }

  /** QUIC is asked for and none of the given addresses is a QUIC one. */
  predicate QuicReplaces(addrs: seq<Address>, flags: Flags, hasKey: bool) {
    addrs != [] && flags.quic && Some(Quic) !in Classified(addrs, hasKey)
  }

  /** `listen == []` stands for no listen addresses, given or not. */
  function Transports(
      given: Option<seq<Kind>>, listen: seq<Address>, flags: Flags, hasKey: bool): Result<seq<Kind>, BuildError>
  {
    if given.Some? then Ok(given.value)
    else if QuicReplaces(listen, flags, hasKey) then if hasKey then Ok([Quic]) else Err(NoKeyPair)
    else if Detected(listen, hasKey) != [] then Ok(Detected(listen, hasKey))
    else if flags.quic && !hasKey then Err(NoKeyPair)
    else Ok(FromFlags(flags, hasKey))
  }

  method BuildTransports(given: Option<seq<Kind>>, listen: seq<Address>, flags: Flags, hasKey: bool)
    returns (result: Result<seq<Kind>, BuildError>)
    ensures result == Transports(given, listen, flags, hasKey)
  {
    if given.Some? {
      return Ok(given.value);
    }
    hide Classify, FromFlags, FirstOccurrences;
    var kinds: seq<Kind> := [];
    NothingDetected(hasKey);
    if listen != [] {
      kinds := Detect(listen, hasKey);
      FirstOccurrencesHold(Classified(listen, hasKey), Quic);
      if flags.quic && Quic !in kinds {
        if !hasKey {
          return Err(NoKeyPair);
        }
        kinds := [Quic];
      }
    }
    if kinds == [] {
      if flags.quic && !hasKey {
        return Err(NoKeyPair);
      }
      kinds := FlagTransports(flags, hasKey);
    }
    result := Ok(kinds);
  }

  /** The flags in their fixed order, when nothing was detected. */
  method FlagTransports(flags: Flags, hasKey: bool) returns (kinds: seq<Kind>)
    requires flags.quic ==> hasKey
    ensures kinds == FromFlags(flags, hasKey)
  {
    kinds := [];
    if flags.quic {
      kinds := kinds + [Quic];
    }
    if flags.websocket {
      kinds := kinds + [WebSocket];
    }
    assert kinds == Streams(flags);
    if flags.webrtc && hasKey {
      kinds := kinds + [WebRtcDirect];
    }
    if flags.webtransport && hasKey {
      kinds := kinds + [WebTransport];
    }
    assert kinds == Asked(flags, hasKey);
    if flags.tcp || kinds == [] {
      kinds := kinds + [Tcp];
    }
  }

  lemma NothingDetected(hasKey: bool)
    ensures Classified([], hasKey) == [] && Detected([], hasKey) == []
  {
  }

  /** The loop over the listen addresses, with the set of kinds already seen. */
  method Detect(listen: seq<Address>, hasKey: bool) returns (kinds: seq<Kind>)
    ensures kinds == Detected(listen, hasKey)
  {
    hide Classify;
    kinds := [];
    var seen: set<Kind> := {};
    ghost var ks := Classified(listen, hasKey);
    for i := 0 to |listen|
      invariant kinds == FirstOccurrences(ks[..i])
      invariant forall k :: k in seen <==> k in kinds
    {
      assert ks[..i + 1][..i] == ks[..i];
      var kind := Classify(listen[i], hasKey);
      if kind.None? {
        continue;
      }
      if kind.value !in seen {
        seen := seen + {kind.value};
        kinds := kinds + [kind.value];
      }
    }
    assert ks[..|listen|] == ks;
  }

  /** Without an explicit list, the result is never empty and never names a kind twice. */
  lemma NeverEmptyNeverTwice(listen: seq<Address>, flags: Flags, hasKey: bool)
    ensures var r := Transports(None, listen, flags, hasKey);
      && (r.Ok? ==> r.value != [] && NoRepeats(r.value))
      && (r.Err? <==> flags.quic && !hasKey)
  {
    hide Classify, FromFlags;
    var ks := Classified(listen, hasKey);
    FirstOccurrencesHold(ks, Quic);
    FlagsNeverTwice(flags, hasKey);
    NothingDetected(hasKey);
    if !hasKey {
      InClassified(listen, hasKey, Quic);
      forall a: Address
        ensures Classify(a, false) != Some(Quic)
      {
        NoKeyNoQuic(a);
      }
    }
  }

  lemma NoKeyNoQuic(a: Address)
    ensures Classify(a, false) != Some(Quic)
  {
  }

  /** The fixed order of the flags. */
  function Rank(k: Kind): nat {
    match k
    case Quic => 0
    case WebSocket => 1
    case WebRtcDirect => 2
    case WebTransport => 3
    case Tcp => 4
    case WebRtcPrivate => 5
  }

  ghost predicate Ranked(kinds: seq<Kind>) {
    forall i, j :: 0 <= i < j < |kinds| ==> Rank(kinds[i]) < Rank(kinds[j])
  }

  ghost predicate RanksWithin(kinds: seq<Kind>, lo: nat, hi: nat) {
    forall i :: 0 <= i < |kinds| ==> lo <= Rank(kinds[i]) <= hi
  }

  lemma RankedConcat(a: seq<Kind>, b: seq<Kind>, mid: nat, hi: nat)
    requires Ranked(a) && Ranked(b) && RanksWithin(a, 0, mid) && RanksWithin(b, mid + 1, hi) && mid <= hi
    ensures Ranked(a + b) && RanksWithin(a + b, 0, hi)
  {
  }

  lemma AskedRanked(flags: Flags, hasKey: bool)
    ensures Ranked(Asked(flags, hasKey)) && RanksWithin(Asked(flags, hasKey), 0, 3)
  {
    StreamsRanked(flags);
    hide Streams;
    var rest := When(flags.webrtc && hasKey, WebRtcDirect) + When(flags.webtransport && hasKey, WebTransport);
    assert Ranked(rest) && RanksWithin(rest, 2, 3);
    RankedConcat(Streams(flags), rest, 1, 3);
  }

  lemma StreamsRanked(flags: Flags)
    ensures Ranked(Streams(flags)) && RanksWithin(Streams(flags), 0, 1)
  {
  }

  /** The flag list is in the fixed order and so names no kind twice; it is never empty. */
  lemma FlagsNeverTwice(flags: Flags, hasKey: bool)
    ensures FromFlags(flags, hasKey) != [] && Ranked(FromFlags(flags, hasKey)) && NoRepeats(FromFlags(flags, hasKey))
    ensures FromFlags(Flags(true, true, true, true, true), true) == [Quic, WebSocket, WebRtcDirect, WebTransport, Tcp]
  {
    AllFlags();
    hide Asked;
    AskedRanked(flags, hasKey);
    var last := When(flags.tcp || Asked(flags, hasKey) == [], Tcp);
    RankedConcat(Asked(flags, hasKey), last, 3, 4);
    RankedHasNoRepeats(FromFlags(flags, hasKey));
  }

  lemma AllFlags()
    ensures FromFlags(Flags(true, true, true, true, true), true) == [Quic, WebSocket, WebRtcDirect, WebTransport, Tcp]
  {
  }

  lemma RankedHasNoRepeats(kinds: seq<Kind>)
    requires Ranked(kinds)
    ensures NoRepeats(kinds)
  {
  }

  /** It names what the flags ask for, and TCP when asked or when nothing else is. */
  lemma FlagsNamed(flags: Flags, hasKey: bool)
    ensures var kinds := FromFlags(flags, hasKey);
      && (Quic in kinds <==> flags.quic)
      && (WebSocket in kinds <==> flags.websocket)
      && (WebRtcDirect in kinds <==> flags.webrtc && hasKey)
      && (WebTransport in kinds <==> flags.webtransport && hasKey)
      && (Tcp in kinds <==> flags.tcp || kinds == [Tcp])
  {
    hide Asked;
    AskedNamed(flags, hasKey);
  }

  lemma AskedNamed(flags: Flags, hasKey: bool)
    ensures forall k :: k in Asked(flags, hasKey) <==>
      (k == Quic && flags.quic) || (k == WebSocket && flags.websocket)
      || (k == WebRtcDirect && flags.webrtc && hasKey) || (k == WebTransport && flags.webtransport && hasKey)
  {
  }

  lemma FirstIsIn(kinds: seq<Kind>)
    ensures kinds == [] || exists k :: k in kinds
  {
    if kinds != [] {
      assert kinds[0] in kinds;
    }
  }

  lemma InClassified(listen: seq<Address>, hasKey: bool, k: Kind)
    ensures Some(k) in Classified(listen, hasKey) <==>
      exists i :: 0 <= i < |listen| && Classify(listen[i], hasKey) == Some(k)
  {
    hide Classify;
    var ks := Classified(listen, hasKey);
    if exists i :: 0 <= i < |listen| && Classify(listen[i], hasKey) == Some(k) {
      var i :| 0 <= i < |listen| && Classify(listen[i], hasKey) == Some(k);
      assert ks[i] == Some(k);
    }
  }

  // ----- from the names in an address to the transports -----

  /** Some component of the address has the name. */
  ghost predicate Mentions(a: Address, name: string) {
    exists i :: 0 <= i < |a| && a[i].name == name
  }

  /** What the names in an address call for. TCP yields to WebSocket, and WebTransport comes before QUIC. */
  ghost predicate CallsFor(a: Address, k: Kind) {
    var ws := Mentions(a, "ws") || Mentions(a, "wss");
    var plainTcp := Mentions(a, "tcp") && !ws;
    var webTransport := !plainTcp && Mentions(a, "webtransport");
    var quic := !plainTcp && !webTransport && (Mentions(a, "quic") || Mentions(a, "quic-v1"));
    var webRtc := !plainTcp && !webTransport && !quic && !ws;
    match k
    case Tcp => plainTcp
    case WebTransport => webTransport
    case Quic => quic
    case WebSocket => ws && !webTransport && !quic
    case WebRtcDirect => webRtc && Mentions(a, "webrtc-direct")
    case WebRtcPrivate => webRtc && Mentions(a, "webrtc") && !Mentions(a, "webrtc-direct")
  }

  /** Only TCP and WebSocket do without the host's key. */
  predicate NeedsKey(k: Kind) {
    !k.Tcp? && !k.WebSocket?
  }

  lemma HasExact(a: Address, name: string)
    ensures Has(a, name) <==> Mentions(a, name)
  {
    if Mentions(a, name) {
      var i :| 0 <= i < |a| && a[i].name == name;
      assert Names(a)[i] == name;
    }
  }

  /** An address is taken for a kind exactly when its names call for it and the key, if needed, is there. */
  lemma KindExact(a: Address, hasKey: bool, k: Kind)
    ensures Classify(a, hasKey) == Some(k) <==> CallsFor(a, k) && (NeedsKey(k) ==> hasKey)
  {
    hide Has, Mentions;
    HasExact(a, "tcp");
    HasExact(a, "ws");
    HasExact(a, "wss");
    HasExact(a, "webtransport");
    HasExact(a, "quic");
    HasExact(a, "quic-v1");
    HasExact(a, "webrtc-direct");
    HasExact(a, "webrtc");
  }

  /** Some listen address calls for the kind, and the key, if needed, is there. */
  ghost predicate Wanted(listen: seq<Address>, hasKey: bool, k: Kind) {
    (NeedsKey(k) ==> hasKey) && exists i :: 0 <= i < |listen| && CallsFor(listen[i], k)
  }

  lemma DetectedExact(listen: seq<Address>, hasKey: bool, k: Kind)
    ensures k in Detected(listen, hasKey) <==> Wanted(listen, hasKey, k)
    ensures Some(k) in Classified(listen, hasKey) <==> Wanted(listen, hasKey, k)
  {
    hide Classify, CallsFor;
    FirstOccurrencesHold(Classified(listen, hasKey), k);
    InClassified(listen, hasKey, k);
    forall i | 0 <= i < |listen|
      ensures Classify(listen[i], hasKey) == Some(k) <==> CallsFor(listen[i], k) && (NeedsKey(k) ==> hasKey)
    {
      KindExact(listen[i], hasKey, k);
    }
  }

  /**
   The whole way from the names in the listen addresses to the transports. When
   QUIC is asked for and no address calls for it, QUIC alone; otherwise the kinds
   that the addresses call for, as far as the key allows; if there are none, what
   the flags ask for.
   */
  lemma WhichTransports(listen: seq<Address>, flags: Flags, hasKey: bool, k: Kind)
    ensures var r := Transports(None, listen, flags, hasKey);
            var replaced := listen != [] && flags.quic && !Wanted(listen, hasKey, Quic);
            var detected := exists x :: Wanted(listen, hasKey, x);
      && (replaced ==> r == if hasKey then Ok([Quic]) else Err(NoKeyPair))
      && (!replaced && detected ==>
            r == Ok(Detected(listen, hasKey)) && (k in r.value <==> Wanted(listen, hasKey, k)))
      && (!replaced && !detected ==>
            r == if flags.quic && !hasKey then Err(NoKeyPair) else Ok(FromFlags(flags, hasKey)))
  {
    hide Wanted, FromFlags, FirstOccurrences, Classified;
    forall x: Kind
      ensures x in Detected(listen, hasKey) <==> Wanted(listen, hasKey, x)
    {
      DetectedExact(listen, hasKey, x);
    }
    DetectedExact(listen, hasKey, Quic);
    FirstIsIn(Detected(listen, hasKey));
  }

  /** An explicit list is taken as it is. */
  lemma GivenListWins(given: seq<Kind>, listen: seq<Address>, flags: Flags, hasKey: bool)
    ensures Transports(Some(given), listen, flags, hasKey) == Ok(given)
  {
  }

  /** A single address gets exactly the transport it calls for. */
  lemma OneAddress(a: Address, flags: Flags, hasKey: bool, k: Kind)
    requires CallsFor(a, k) && (NeedsKey(k) ==> hasKey) && (flags.quic ==> k == Quic)
    ensures Transports(None, [a], flags, hasKey) == Ok([k])
  {
    hide Classify, CallsFor;
    KindExact(a, hasKey, k);
    var ks := Classified([a], hasKey);
    assert ks == [Some(k)] && ks[..|ks| - 1] == [];
    assert FirstOccurrences(ks[..|ks| - 1]) == [];
    assert Detected([a], hasKey) == [k];
    assert Some(Quic) in ks <==> k == Quic;
  }

  // ----- shared ports -----

  type PortKey = (string, int)

  /** `value_for_protocol`: the first value of the protocol; None where the library raises. */
  function Lookup(a: Address, name: string): Option<string> {
    if a == [] then None
    else if a[0].name == name then Some(a[0].value)
    else Lookup(a[1..], name)
  }

  /** `ip4 or ip6`: without an ip4 component the first lookup raises and the address is skipped. */
  function HostOf(a: Address): Option<string> {
    match Lookup(a, "ip4")
    case None => None
    case Some(host) => if host != "" then Some(host) else Lookup(a, "ip6")
  }

  predicate Digits(s: string) {
    s != "" && forall i :: 0 <= i < |s| ==> '0' <= s[i] <= '9'
  }

  /** The key under which the detection files an address, if it does not skip it. */
  function KeyOf(a: Address): Option<PortKey> {
    var host, port := HostOf(a), Lookup(a, "tcp");
    if host.Some? && port.Some? && Digits(port.value) then Some((host.value, Number(port.value))) else None
  }

  /** Some plain TCP address and some WebSocket address are filed under the key. */
  ghost predicate SharedBy(addrs: seq<Address>, k: PortKey) {
    && (exists a :: a in addrs && KeyOf(a) == Some(k) && !IsWs(a))
    && (exists a :: a in addrs && KeyOf(a) == Some(k) && IsWs(a))
  }

  /** The first loop: for each key, whether the addresses filed under it are WebSocket ones, in order. */
  function Filed(addrs: seq<Address>, k: PortKey): seq<bool> {
    if addrs == [] then []
    else
      var last := addrs[|addrs| - 1];
      Filed(addrs[..|addrs| - 1], k) + if KeyOf(last) == Some(k) then [IsWs(last)] else []
  }

  lemma {:induction false} FiledHolds(addrs: seq<Address>, k: PortKey, ws: bool)
    ensures ws in Filed(addrs, k) <==> exists a :: a in addrs && KeyOf(a) == Some(k) && IsWs(a) == ws
  {
    hide KeyOf, IsWs;
    if addrs != [] {
      var init, last := addrs[..|addrs| - 1], addrs[|addrs| - 1];
      assert addrs == init + [last];
      FiledHolds(init, k, ws);
      if exists a :: a in addrs && KeyOf(a) == Some(k) && IsWs(a) == ws {
        var a :| a in addrs && KeyOf(a) == Some(k) && IsWs(a) == ws;
        assert a in init || a == last;
      }
    }
  }

  /** Exactly the keys that a plain TCP and a WebSocket address share get a demultiplexer. */
  method DetectSharedPorts(addrs: seq<Address>) returns (demuxers: set<PortKey>)
    ensures forall k :: k in demuxers <==> SharedBy(addrs, k)
  {
    hide KeyOf, IsWs;
    var filed: map<PortKey, seq<bool>> := map[];
    for i := 0 to |addrs|
      invariant forall k :: k in filed ==> filed[k] == Filed(addrs[..i], k)
      invariant forall k :: k !in filed ==> Filed(addrs[..i], k) == []
    {
      assert addrs[..i + 1][..i] == addrs[..i];
      var key := KeyOf(addrs[i]);
      if key.None? {
        continue;
      }
      var before := if key.value in filed then filed[key.value] else [];
      filed := filed[key.value := before + [IsWs(addrs[i])]];
    }
    assert addrs[..|addrs|] == addrs;
    demuxers := {};
    var todo := filed.Keys;
    while todo != {}
      invariant todo <= filed.Keys
      invariant forall k :: k in demuxers <==> k in filed && k !in todo && false in filed[k] && true in filed[k]
      decreases todo
    {
      var k :| k in todo;
      if false in filed[k] && true in filed[k] {
        demuxers := demuxers + {k};
      }
      todo := todo - {k};
    }
    forall k: PortKey
      ensures k in demuxers <==> SharedBy(addrs, k)
    {
      FiledHolds(addrs, k, false);
      FiledHolds(addrs, k, true);
    }
  }

  /** The order of the addresses does not matter. */
  lemma SharingIgnoresOrder(addrs: seq<Address>, others: seq<Address>, k: PortKey)
    requires multiset(addrs) == multiset(others)
    ensures SharedBy(addrs, k) <==> SharedBy(others, k)
  {
    hide KeyOf, IsWs;
    assert forall a :: a in addrs <==> a in multiset(addrs);
    assert forall a :: a in others <==> a in multiset(others);
  }

  /** The key an address has on paper: its ip4 host or else its ip6 host, and its TCP port. */
  function PaperKey(a: Address): Option<PortKey> {
    var ip4 := Lookup(a, "ip4");
    var host := if ip4.Some? && ip4.value != "" then ip4 else Lookup(a, "ip6");
    var port := Lookup(a, "tcp");
    if host.Some? && port.Some? && Digits(port.value) then Some((host.value, Number(port.value))) else None
  }

  /** Detection files an address under its key exactly when the address has an ip4 component. */
  lemma FiledUnderPaperKey(a: Address, k: PortKey)
    ensures KeyOf(a) == Some(k) <==> PaperKey(a) == Some(k) && Lookup(a, "ip4").Some?
  {
  }

  /**
   A port that plain TCP and WebSocket share on paper gets its demultiplexer exactly
   when addresses with an ip4 component share it: two ip6 addresses never do.
   */
  lemma SharedOnPaper(addrs: seq<Address>, k: PortKey)
    ensures SharedBy(addrs, k) <==>
      && (exists a :: a in addrs && PaperKey(a) == Some(k) && Lookup(a, "ip4").Some? && !IsWs(a))
      && (exists a :: a in addrs && PaperKey(a) == Some(k) && Lookup(a, "ip4").Some? && IsWs(a))
  {
  }

  lemma LookupCons(c: Component, rest: Address, name: string)
    ensures Lookup([c] + rest, name) == if c.name == name then Some(c.value) else Lookup(rest, name)
    ensures Has([c] + rest, name) <==> c.name == name || Has(rest, name)
  {
    assert ([c] + rest)[1..] == rest;
    assert Names([c] + rest) == [c.name] + Names(rest);
  }

  /** A plain TCP or a WebSocket address on a host of the given family. */
  function TcpAddress(family: string, host: string, port: string, ws: bool): Address {
    [Component(family, host)] + ([Component("tcp", port)] + if ws then [Component("ws", "")] + [] else [])
  }

  lemma TcpAddressParts(family: string, host: string, port: string, ws: bool)
    requires family == "ip4" || family == "ip6"
    ensures var a := TcpAddress(family, host, port, ws);
      && Lookup(a, "ip4") == (if family == "ip4" then Some(host) else None)
      && Lookup(a, "ip6") == (if family == "ip6" then Some(host) else None)
      && Lookup(a, "tcp") == Some(port)
      && IsWs(a) == ws
  {
    hide Lookup, Has;
    var tail := if ws then [Component("ws", "")] + [] else [];
    forall name: string
      ensures Lookup(TcpAddress(family, host, port, ws), name)
           == if name == family then Some(host) else if name == "tcp" then Some(port) else Lookup(tail, name)
      ensures Has(TcpAddress(family, host, port, ws), name) <==> name == family || name == "tcp" || Has(tail, name)
    {
      LookupCons(Component(family, host), [Component("tcp", port)] + tail, name);
      LookupCons(Component("tcp", port), tail, name);
    }
    TailParts(ws, "ip4");
    TailParts(ws, "ip6");
    TailParts(ws, "ws");
    TailParts(ws, "wss");
  }

  lemma TailParts(ws: bool, name: string)
    ensures var tail := if ws then [Component("ws", "")] + [] else [];
      && (name != "ws" ==> Lookup(tail, name) == None)
      && (Has(tail, name) <==> ws && name == "ws")
  {
    LookupCons(Component("ws", ""), [], name);
  }

  /** A plain TCP and a WebSocket address on one port share it on an ip4 host, and on an ip6 host they do not. */
  lemma PortSharedOnIp4Only(family: string, host: string, port: nat)
    requires (family == "ip4" || family == "ip6") && host != ""
    ensures
      var tcp, ws := TcpAddress(family, host, Decimal(port), false), TcpAddress(family, host, Decimal(port), true);
      && PaperKey(tcp) == PaperKey(ws) == Some((host, port))
      && !IsWs(tcp) && IsWs(ws)
      && (SharedBy([tcp, ws], (host, port)) <==> family == "ip4")
  {
    hide Lookup, IsWs, TcpAddress, Decimal, Number;
    DecimalReadsBack(port);
    DecimalNotEmpty(port);
    TcpAddressParts(family, host, Decimal(port), false);
    TcpAddressParts(family, host, Decimal(port), true);
    var tcp, ws := TcpAddress(family, host, Decimal(port), false), TcpAddress(family, host, Decimal(port), true);
    assert tcp in [tcp, ws] && ws in [tcp, ws];
  }

  lemma DecimalNotEmpty(n: nat)
    ensures Decimal(n) != ""
  {
  }

  /** A lookup finds the first component of that name. */
  lemma {:induction false} LookupFindsFirst(a: Address, name: string, i: nat)
    requires i < |a| && a[i].name == name && forall j :: 0 <= j < i ==> a[j].name != name
    ensures Lookup(a, name) == Some(a[i].value)
  {
    if i > 0 {
      LookupFindsFirst(a[1..], name, i - 1);
    }
  }

  /** And it finds one exactly when there is one. */
  lemma {:induction false} LookupFinds(a: Address, name: string)
    ensures Lookup(a, name).Some? <==> Mentions(a, name)
  {
    if a != [] && a[0].name != name {
      LookupFinds(a[1..], name);
      assert forall i :: 0 < i < |a| ==> a[i] == a[1..][i - 1];
      if Mentions(a[1..], name) {
        var i :| 0 <= i < |a[1..]| && a[1..][i].name == name;
        assert a[i + 1].name == name;
      }
    }
  }

  /** The address does not mix WebSocket with QUIC or WebTransport. */
  predicate Unmixed(a: Address) {
    IsWs(a) ==> !IsQuic(a) && !Has(a, "webtransport")
  }

  /**
   The two detections agree: a port that gets a demultiplexer gets both transports
   it is shared by, unless an explicit list or the QUIC replacement overrides them.
   */
  lemma SharedPortHasBothTransports(addrs: seq<Address>, flags: Flags, hasKey: bool, k: PortKey)
    requires SharedBy(addrs, k) && (forall a :: a in addrs ==> Unmixed(a)) && !QuicReplaces(addrs, flags, hasKey)
    ensures var r := Transports(None, addrs, flags, hasKey); r.Ok? && Tcp in r.value && WebSocket in r.value
  {
    var plain :| plain in addrs && KeyOf(plain) == Some(k) && !IsWs(plain);
    var ws :| ws in addrs && KeyOf(ws) == Some(k) && IsWs(ws);
    LookupFinds(plain, "tcp");
    HasExact(plain, "tcp");
    assert Classify(plain, hasKey) == Some(Tcp);
    assert Unmixed(ws);
    assert Classify(ws, hasKey) == Some(WebSocket);
    var i :| 0 <= i < |addrs| && addrs[i] == plain;
    var j :| 0 <= j < |addrs| && addrs[j] == ws;
    var ks := Classified(addrs, hasKey);
    assert ks[i] == Some(Tcp) && ks[j] == Some(WebSocket);
    FirstOccurrencesHold(ks, Tcp);
    FirstOccurrencesHold(ks, WebSocket);
  }
}
