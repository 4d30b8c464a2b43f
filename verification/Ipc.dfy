/** The text CreateIPCRequest writes, and a reference decoder for the WireGuard configuration protocol. */
module Ipc {
  import opened Wrappers
  import opened Text

  datatype Peer = Peer(publicKey: string, preSharedKey: string, endpoint: Option<string>, keepAlive: int, allowedIPs: seq<string>)

  datatype DeviceConfig = DeviceConfig(secretKey: string, listenPort: Option<int>, peers: seq<Peer>)

  const DEFAULT_ROUTES: seq<string> := ["0.0.0.0/0", "::0/0"]

  // ----- Lines -----

  datatype Field = PrivateKey | ListenPort | PublicKey | KeepAlive | PresharedKey | Endpoint | AllowedIP

  function FieldName(f: Field): string {
    match f
    case PrivateKey => "private_key"
    case ListenPort => "listen_port"
    case PublicKey => "public_key"
    case KeepAlive => "persistent_keepalive_interval"
    case PresharedKey => "preshared_key"
    case Endpoint => "endpoint"
    case AllowedIP => "allowed_ip"
  }

  datatype Entry = Entry(field: Field, value: string)

  function LineOf(e: Entry): string {
    FieldName(e.field) + ['='] + e.value
  }

  function LinesOf(es: seq<Entry>): (r: seq<string>)
    ensures |r| == |es| && forall i :: 0 <= i < |r| ==> r[i] == LineOf(es[i])
  {
    seq(|es|, i requires 0 <= i < |es| => LineOf(es[i]))
  }

  // ----- The printer -----

  function Allowed(ips: seq<string>): (r: seq<Entry>)
    ensures |r| == |ips| && forall i :: 0 <= i < |r| ==> r[i] == Entry(AllowedIP, ips[i])
  {
    seq(|ips|, i requires 0 <= i < |ips| => Entry(AllowedIP, ips[i]))
  }

  function Routes(p: Peer): seq<string> {
    if p.allowedIPs == [] then DEFAULT_ROUTES else p.allowedIPs
  }

  function PeerHead(p: Peer): seq<Entry> {
    [Entry(PublicKey, p.publicKey), Entry(KeepAlive, Itoa(p.keepAlive)), Entry(PresharedKey, p.preSharedKey)]
  }

  function PeerEndpoint(p: Peer): seq<Entry> {
    if p.endpoint.Some? then [Entry(Endpoint, p.endpoint.value)] else []
  }

  function PeerEntries(p: Peer): seq<Entry> {
    PeerHead(p) + PeerEndpoint(p) + Allowed(Routes(p))
  }

  function PeersEntries(ps: seq<Peer>): seq<Entry> {
    if ps == [] then [] else PeersEntries(ps[..|ps|-1]) + PeerEntries(ps[|ps|-1])
  }

  function DeviceEntries(c: DeviceConfig): seq<Entry> {
    [Entry(PrivateKey, c.secretKey)]
    + (if c.listenPort.Some? then [Entry(ListenPort, Itoa(c.listenPort.value))] else [])
    + PeersEntries(c.peers)
  }

  function Render(c: DeviceConfig): string {
    Unlines(LinesOf(DeviceEntries(c)))
  }

  // ----- The request as text -----

  function AllowedLines(ips: seq<string>): (r: seq<string>)
    ensures |r| == |ips| && forall i :: 0 <= i < |r| ==> r[i] == "allowed_ip=" + ips[i]
  {
    seq(|ips|, i requires 0 <= i < |ips| => "allowed_ip=" + ips[i])
  }

  function PeerLines(p: Peer): seq<string> {
    ["public_key=" + p.publicKey, "persistent_keepalive_interval=" + Itoa(p.keepAlive), "preshared_key=" + p.preSharedKey]
    + (if p.endpoint.Some? then ["endpoint=" + p.endpoint.value] else [])
    + (if p.allowedIPs == [] then ["allowed_ip=0.0.0.0/0", "allowed_ip=::0/0"] else AllowedLines(p.allowedIPs))
  }

  function PeersLines(ps: seq<Peer>): seq<string> {
    if ps == [] then [] else PeersLines(ps[..|ps|-1]) + PeerLines(ps[|ps|-1])
  }

  /** The lines of the request of a device, written out. */
  function DeviceLines(c: DeviceConfig): seq<string> {
    ["private_key=" + c.secretKey]
    + (if c.listenPort.Some? then ["listen_port=" + Itoa(c.listenPort.value)] else [])
    + PeersLines(c.peers)
  }

  lemma LinesOfAppend(a: seq<Entry>, b: seq<Entry>)
    ensures LinesOf(a + b) == LinesOf(a) + LinesOf(b)
  {}

  lemma DeviceLineTexts(v: string)
    ensures LineOf(Entry(PrivateKey, v)) == "private_key=" + v && LineOf(Entry(ListenPort, v)) == "listen_port=" + v
  {
    assert "private_key" + ['='] == "private_key=" && "listen_port" + ['='] == "listen_port=";
  }

  lemma KeyLineTexts(v: string)
    ensures LineOf(Entry(PublicKey, v)) == "public_key=" + v && LineOf(Entry(PresharedKey, v)) == "preshared_key=" + v
    ensures LineOf(Entry(KeepAlive, v)) == "persistent_keepalive_interval=" + v
  {
    assert "public_key" + ['='] == "public_key=" && "preshared_key" + ['='] == "preshared_key=";
    assert "persistent_keepalive_interval" + ['='] == "persistent_keepalive_interval=";
  }

  lemma AddressLineTexts(v: string)
    ensures LineOf(Entry(Endpoint, v)) == "endpoint=" + v && LineOf(Entry(AllowedIP, v)) == "allowed_ip=" + v
  {
    assert "endpoint" + ['='] == "endpoint=" && "allowed_ip" + ['='] == "allowed_ip=";
  }

  lemma HeadLines(p: Peer)
    ensures LinesOf(PeerHead(p)) ==
            ["public_key=" + p.publicKey, "persistent_keepalive_interval=" + Itoa(p.keepAlive), "preshared_key=" + p.preSharedKey]
  {
    KeyLineTexts(p.publicKey);
    KeyLineTexts(Itoa(p.keepAlive));
    KeyLineTexts(p.preSharedKey);
  }

  lemma EndpointLines(p: Peer)
    ensures LinesOf(PeerEndpoint(p)) == if p.endpoint.Some? then ["endpoint=" + p.endpoint.value] else []
  {
    if p.endpoint.Some? {
      AddressLineTexts(p.endpoint.value);
    }
  }

  lemma RouteLines(p: Peer)
    ensures LinesOf(Allowed(Routes(p))) ==
            if p.allowedIPs == [] then ["allowed_ip=0.0.0.0/0", "allowed_ip=::0/0"] else AllowedLines(p.allowedIPs)
  {
    forall ip: string ensures LineOf(Entry(AllowedIP, ip)) == "allowed_ip=" + ip {
      AddressLineTexts(ip);
    }
    assert "allowed_ip=" + "0.0.0.0/0" == "allowed_ip=0.0.0.0/0" && "allowed_ip=" + "::0/0" == "allowed_ip=::0/0";
  }

  lemma PeerLinesAre(p: Peer)
    ensures LinesOf(PeerEntries(p)) == PeerLines(p)
  {
    HeadLines(p);
    EndpointLines(p);
    RouteLines(p);
    LinesOfAppend(PeerHead(p), PeerEndpoint(p));
    LinesOfAppend(PeerHead(p) + PeerEndpoint(p), Allowed(Routes(p)));
  }

  lemma {:induction false} PeersLinesAre(ps: seq<Peer>)
    ensures LinesOf(PeersEntries(ps)) == PeersLines(ps)
  {
    if ps != [] {
      var n := |ps| - 1;
      PeersLinesAre(ps[..n]);
      PeerLinesAre(ps[n]);
      LinesOfAppend(PeersEntries(ps[..n]), PeerEntries(ps[n]));
    }
  }

  /** The request is its lines, each with a newline. */
  lemma RenderIsText(c: DeviceConfig)
    ensures Render(c) == Unlines(DeviceLines(c))
  {
    var head := [Entry(PrivateKey, c.secretKey)];
    var port := if c.listenPort.Some? then [Entry(ListenPort, Itoa(c.listenPort.value))] else [];
    DeviceLineTexts(c.secretKey);
    if c.listenPort.Some? {
      DeviceLineTexts(Itoa(c.listenPort.value));
    }
    PeersLinesAre(c.peers);
    LinesOfAppend(head, port);
    LinesOfAppend(head + port, PeersEntries(c.peers));
    assert LinesOf(head) == ["private_key=" + c.secretKey];
    assert LinesOf(port) == if c.listenPort.Some? then ["listen_port=" + Itoa(c.listenPort.value)] else [];
  }

  /** The byte buffer of the request, as the entries printed into it. */
  class Buffer {
    var entries: seq<Entry>

    constructor ()
      ensures entries == []
    {
      entries := [];
    }

    /** fmt.Fprintf of a field and its value with a newline. */
    method Print(field: Field, value: string)
      modifies this
      ensures entries == old(entries) + [Entry(field, value)]
    {
      entries := entries + [Entry(field, value)];
    }

    function String(): string
      reads this
    {
      Unlines(LinesOf(entries))
    }
  }

  method WriteRoutes(request: Buffer, peer: Peer)
    modifies request
    ensures request.entries == old(request.entries) + Allowed(Routes(peer))
  {
    if |peer.allowedIPs| > 0 {
      for i := 0 to |peer.allowedIPs|
        invariant request.entries == old(request.entries) + Allowed(peer.allowedIPs)[..i]
      {
        request.Print(AllowedIP, peer.allowedIPs[i]);
      }
    } else {
      request.Print(AllowedIP, DEFAULT_ROUTES[0]);
      request.Print(AllowedIP, DEFAULT_ROUTES[1]);
    }
  }

  method WriteKeys(request: Buffer, peer: Peer)
    modifies request
    ensures request.entries == old(request.entries) + PeerHead(peer)
  {
    request.Print(PublicKey, peer.publicKey);
    request.Print(KeepAlive, Itoa(peer.keepAlive));
    request.Print(PresharedKey, peer.preSharedKey);
  }

  method WritePeer(request: Buffer, peer: Peer)
    modifies request
    ensures request.entries == old(request.entries) + PeerEntries(peer)
  {
    WriteKeys(request, peer);
    ghost var before, head, end := old(request.entries), PeerHead(peer), PeerEndpoint(peer);
    if peer.endpoint.Some? {
      request.Print(Endpoint, peer.endpoint.value);
    }
    assert request.entries == (before + head) + end;
    WriteRoutes(request, peer);
    AppendAssoc(before, head, end);
    AppendAssoc(before, head + end, Allowed(Routes(peer)));
  }

  lemma PeersEntriesSnoc(ps: seq<Peer>, n: nat)
    requires n < |ps|
    ensures PeersEntries(ps[..n+1]) == PeersEntries(ps[..n]) + PeerEntries(ps[n])
  {
    assert ps[..n+1][..n] == ps[..n];
  }

  method WritePeers(request: Buffer, peers: seq<Peer>)
    modifies request
    ensures request.entries == old(request.entries) + PeersEntries(peers)
  {
    for n := 0 to |peers|
      invariant request.entries == old(request.entries) + PeersEntries(peers[..n])
    {
      WritePeer(request, peers[n]);
      AppendAssoc(old(request.entries), PeersEntries(peers[..n]), PeerEntries(peers[n]));
      PeersEntriesSnoc(peers, n);
    }
    assert peers[..|peers|] == peers;
  }

  method WriteDevice(request: Buffer, conf: DeviceConfig)
    requires request.entries == []
    modifies request
    ensures request.entries == DeviceEntries(conf)
  {
    request.Print(PrivateKey, conf.secretKey);
    if conf.listenPort.Some? {
      request.Print(ListenPort, Itoa(conf.listenPort.value));
    }
    WritePeers(request, conf.peers);
  }

  method CreateIPCRequest(conf: DeviceConfig) returns (text: string)
    ensures text == Render(conf)
    ensures text == Unlines(DeviceLines(conf))
  {
    var request := new Buffer();
    WriteDevice(request, conf);
    text := request.String();
    RenderIsText(conf);
  }

  // ----- The reference decoder -----

  /** The field a key names. */
  function FieldNamed(key: string): Option<Field> {
    match key
    case "private_key" => Some(PrivateKey)
    case "listen_port" => Some(ListenPort)
    case "public_key" => Some(PublicKey)
    case "persistent_keepalive_interval" => Some(KeepAlive)
    case "preshared_key" => Some(PresharedKey)
    case "endpoint" => Some(Endpoint)
    case "allowed_ip" => Some(AllowedIP)
    case _ => None
  }

  datatype Decoding = Decoding(secretKey: Option<string>, listenPort: Option<int>, peers: seq<Peer>)

  function WithLast(d: Decoding, p: Peer): Decoding
    requires d.peers != []
  {
    d.(peers := d.peers[..|d.peers|-1] + [p])
  }

  /** What a peer-level line does to the open peer. */
  function SetField(p: Peer, e: Entry): Option<Peer> {
    match e.field
    case PresharedKey => Some(p.(preSharedKey := e.value))
    case Endpoint => Some(p.(endpoint := Some(e.value)))
    case AllowedIP => Some(p.(allowedIPs := p.allowedIPs + [e.value]))
    case KeepAlive => if ParseInt(e.value).Some? then Some(p.(keepAlive := ParseInt(e.value).value)) else None
    case _ => None
  }

  /** public_key opens a peer; the device's own keys come before any peer, all others belong to the open peer. */
  function Accept(d: Decoding, e: Entry): Option<Decoding> {
    match e.field
    case PublicKey => Some(d.(peers := d.peers + [Peer(e.value, "", None, 0, [])]))
    case PrivateKey => if d.peers == [] then Some(d.(secretKey := Some(e.value))) else None
    case ListenPort => if d.peers == [] && ParseInt(e.value).Some? then Some(d.(listenPort := ParseInt(e.value))) else None
    case _ =>
      if d.peers == [] then None
      else match SetField(d.peers[|d.peers|-1], e)
           case None => None
           case Some(p) => Some(WithLast(d, p))
  }

  function ParseLine(line: string): Option<Entry> {
    match Cut(line, '=')
    case None => None
    case Some((key, value)) =>
      match FieldNamed(key)
      case None => None
      case Some(f) => Some(Entry(f, value))
  }

  /** Run a partial step over a sequence, stopping at the first failure. */
  function Fold<S, E>(step: (S, E) -> Option<S>, s: S, es: seq<E>): Option<S> {
    if es == [] then Some(s)
    else
      var n := |es| - 1;
      match Fold(step, s, es[..n])
      case None => None
      case Some(s') => step(s', es[n])
  }

  function AcceptAll(d: Decoding, es: seq<Entry>): Option<Decoding> {
    Fold(Accept, d, es)
  }

  /** All or nothing. */
  function Collect<E>(os: seq<Option<E>>): Option<seq<E>> {
    if os == [] then Some([])
    else
      var n := |os| - 1;
      match (Collect(os[..n]), os[n])
      case (Some(es), Some(e)) => Some(es + [e])
      case _ => None
  }

  function ParseEach(lines: seq<string>): (r: seq<Option<Entry>>)
    ensures |r| == |lines| && forall i :: 0 <= i < |r| ==> r[i] == ParseLine(lines[i])
  {
    seq(|lines|, i requires 0 <= i < |lines| => ParseLine(lines[i]))
  }

  function ParseLines(lines: seq<string>): Option<seq<Entry>> {
    Collect(ParseEach(lines))
  }

  /** A request is newline-terminated lines that set a private key and any number of peers. */
  function Decode(text: string): Option<DeviceConfig> {
    var lines := Split(text, '\n');
    var n := |lines| - 1;
    if lines[n] != "" || ParseLines(lines[..n]).None? then None
    else match AcceptAll(Decoding(None, None, []), ParseLines(lines[..n]).value)
         case None => None
         case Some(d) => if d.secretKey.None? then None else Some(DeviceConfig(d.secretKey.value, d.listenPort, d.peers))
  }

  // ----- Decoding undoes printing -----

  function NormalPeer(p: Peer): Peer {
    p.(allowedIPs := Routes(p))
  }

  /** The configuration with the default routes written out for peers that list none. */
  function Normal(c: DeviceConfig): DeviceConfig {
    c.(peers := NormalPeers(c.peers))
  }

  function NormalPeers(ps: seq<Peer>): (r: seq<Peer>)
    ensures |r| == |ps| && forall i :: 0 <= i < |r| ==> r[i] == NormalPeer(ps[i])
  {
    seq(|ps|, i requires 0 <= i < |ps| => NormalPeer(ps[i]))
  }

  predicate OneLine(s: string) {
    Lacks(s, '\n')
  }

  predicate CleanPeer(p: Peer) {
    && OneLine(p.publicKey) && OneLine(p.preSharedKey) && (p.endpoint.Some? ==> OneLine(p.endpoint.value))
    && forall i :: 0 <= i < |p.allowedIPs| ==> OneLine(p.allowedIPs[i])
  }

  /** No string of the configuration contains a newline, as holds for hex keys, IP literals and port numbers. */
  predicate Clean(c: DeviceConfig) {
    OneLine(c.secretKey) && forall i :: 0 <= i < |c.peers| ==> CleanPeer(c.peers[i])
  }

  lemma FieldNameDecodes(f: Field)
    ensures FieldNamed(FieldName(f)) == Some(f)
  {}

  lemma FieldNameIsPlain(f: Field, c: char)
    requires c == '=' || c == '\n'
    ensures Lacks(FieldName(f), c)
  {}

  lemma ParseLineOf(e: Entry)
    ensures ParseLine(LineOf(e)) == Some(e)
    ensures OneLine(e.value) ==> OneLine(LineOf(e))
  {
    FieldNameDecodes(e.field);
    FieldNameIsPlain(e.field, '=');
    FieldNameIsPlain(e.field, '\n');
    CutIs(FieldName(e.field), '=', e.value);
  }

  lemma {:induction false} CollectSome<E>(os: seq<Option<E>>, es: seq<E>)
    requires |os| == |es| && forall i :: 0 <= i < |os| ==> os[i] == Some(es[i])
    ensures Collect(os) == Some(es)
  {
    if os != [] {
      var n := |os| - 1;
      CollectSome(os[..n], es[..n]);
      assert es == es[..n] + [es[n]];
    }
  }

  lemma ParseLinesOf(es: seq<Entry>)
    ensures ParseLines(LinesOf(es)) == Some(es)
  {
    var os := ParseEach(LinesOf(es));
    forall i | 0 <= i < |es| ensures os[i] == Some(es[i]) {
      ParseLineOf(es[i]);
    }
    CollectSome(os, es);
  }

  lemma {:induction false} FoldAppend<S, E>(step: (S, E) -> Option<S>, s: S, a: seq<E>, b: seq<E>)
    ensures Fold(step, s, a + b) == if Fold(step, s, a).None? then None else Fold(step, Fold(step, s, a).value, b)
  {
    if b == [] {
      assert a + b == a;
    } else {
      var n := |b| - 1;
      FoldAppend(step, s, a, b[..n]);
      assert (a + b)[..|a|+n] == a + b[..n];
    }
  }

  lemma FoldOne<S, E>(step: (S, E) -> Option<S>, s: S, e: E)
    ensures Fold(step, s, [e]) == step(s, e)
  {
    assert [e][..0] == [];
  }

  /** Accepting `a` and then one more entry. */
  lemma AcceptSnoc(d: Decoding, a: seq<Entry>, e: Entry, d': Decoding)
    requires AcceptAll(d, a) == Some(d')
    ensures AcceptAll(d, a + [e]) == Accept(d', e)
  {
    FoldAppend(Accept, d, a, [e]);
    FoldOne(Accept, d', e);
  }

  lemma WithLastOf(d: Decoding, q: Peer, r: Peer)
    ensures WithLast(d.(peers := d.peers + [q]), r) == d.(peers := d.peers + [r])
  {
    assert (d.peers + [q])[..|d.peers|] == d.peers;
  }

  lemma {:induction false} AcceptAllowed(d: Decoding, q: Peer, ips: seq<string>)
    ensures AcceptAll(d.(peers := d.peers + [q]), Allowed(ips)) == Some(d.(peers := d.peers + [q.(allowedIPs := q.allowedIPs + ips)]))
  {
    if ips == [] {
      assert q.allowedIPs + ips == q.allowedIPs;
    } else {
      var n := |ips| - 1;
      var r := q.(allowedIPs := q.allowedIPs + ips[..n]);
      AcceptAllowed(d, q, ips[..n]);
      assert Allowed(ips) == Allowed(ips[..n]) + [Entry(AllowedIP, ips[n])];
      AcceptSnoc(d.(peers := d.peers + [q]), Allowed(ips[..n]), Entry(AllowedIP, ips[n]), d.(peers := d.peers + [r]));
      WithLastOf(d, r, r.(allowedIPs := r.allowedIPs + [ips[n]]));
      assert r.allowedIPs + [ips[n]] == q.allowedIPs + ips;
    }
  }

  lemma AcceptKeys(d: Decoding, key: string, keepAlive: int)
    ensures AcceptAll(d, [Entry(PublicKey, key), Entry(KeepAlive, Itoa(keepAlive))])
         == Some(d.(peers := d.peers + [Peer(key, "", None, keepAlive, [])]))
  {
    var e0, e1 := Entry(PublicKey, key), Entry(KeepAlive, Itoa(keepAlive));
    var q := Peer(key, "", None, 0, []);
    FoldOne(Accept, d, e0);
    ParseItoa(keepAlive);
    AcceptSnoc(d, [e0], e1, d.(peers := d.peers + [q]));
    WithLastOf(d, q, q.(keepAlive := keepAlive));
    assert [e0] + [e1] == [e0, e1];
  }

  lemma AcceptHead(d: Decoding, p: Peer)
    ensures AcceptAll(d, [Entry(PublicKey, p.publicKey), Entry(KeepAlive, Itoa(p.keepAlive)), Entry(PresharedKey, p.preSharedKey)])
         == Some(d.(peers := d.peers + [Peer(p.publicKey, p.preSharedKey, None, p.keepAlive, [])]))
  {
    var keys, e2 := [Entry(PublicKey, p.publicKey), Entry(KeepAlive, Itoa(p.keepAlive))], Entry(PresharedKey, p.preSharedKey);
    var q := Peer(p.publicKey, "", None, p.keepAlive, []);
    AcceptKeys(d, p.publicKey, p.keepAlive);
    AcceptSnoc(d, keys, e2, d.(peers := d.peers + [q]));
    WithLastOf(d, q, q.(preSharedKey := p.preSharedKey));
    assert keys + [e2] == [Entry(PublicKey, p.publicKey), Entry(KeepAlive, Itoa(p.keepAlive)), e2];
  }

  lemma AcceptEndpoint(d: Decoding, q: Peer, endpoint: Option<string>)
    requires q.endpoint.None?
    ensures AcceptAll(d.(peers := d.peers + [q]), if endpoint.Some? then [Entry(Endpoint, endpoint.value)] else [])
         == Some(d.(peers := d.peers + [q.(endpoint := endpoint)]))
  {
    if endpoint.Some? {
      FoldOne(Accept, d.(peers := d.peers + [q]), Entry(Endpoint, endpoint.value));
      WithLastOf(d, q, q.(endpoint := endpoint));
    }
  }

  lemma AcceptPeer(d: Decoding, p: Peer)
    ensures AcceptAll(d, PeerEntries(p)) == Some(d.(peers := d.peers + [NormalPeer(p)]))
  {
    var head := [Entry(PublicKey, p.publicKey), Entry(KeepAlive, Itoa(p.keepAlive)), Entry(PresharedKey, p.preSharedKey)];
    var mid := if p.endpoint.Some? then [Entry(Endpoint, p.endpoint.value)] else [];
    var q := Peer(p.publicKey, p.preSharedKey, None, p.keepAlive, []);
    AcceptHead(d, p);
    FoldAppend(Accept, d, head, mid);
    AcceptEndpoint(d, q, p.endpoint);
    FoldAppend(Accept, d, head + mid, Allowed(Routes(p)));
    AcceptAllowed(d, q.(endpoint := p.endpoint), Routes(p));
    assert [] + Routes(p) == Routes(p);
  }

  lemma NormalPeersSnoc(ps: seq<Peer>, n: nat)
    requires |ps| == n + 1
    ensures NormalPeers(ps) == NormalPeers(ps[..n]) + [NormalPeer(ps[n])]
  {}

  lemma {:induction false} AcceptPeers(d: Decoding, ps: seq<Peer>)
    ensures AcceptAll(d, PeersEntries(ps)) == Some(d.(peers := d.peers + NormalPeers(ps)))
  {
    if ps == [] {
      assert d.peers + NormalPeers(ps) == d.peers;
    } else {
      var n := |ps| - 1;
      var d' := d.(peers := d.peers + NormalPeers(ps[..n]));
      AcceptPeers(d, ps[..n]);
      FoldAppend(Accept, d, PeersEntries(ps[..n]), PeerEntries(ps[n]));
      AcceptPeer(d', ps[n]);
      NormalPeersSnoc(ps, n);
      assert d'.peers + [NormalPeer(ps[n])] == d.peers + (NormalPeers(ps[..n]) + [NormalPeer(ps[n])]);
    }
  }

  lemma AcceptDevice(c: DeviceConfig)
    ensures AcceptAll(Decoding(None, None, []), DeviceEntries(c)) == Some(Decoding(Some(c.secretKey), c.listenPort, NormalPeers(c.peers)))
  {
    var d, d1 := Decoding(None, None, []), Decoding(Some(c.secretKey), None, []);
    var head := [Entry(PrivateKey, c.secretKey)];
    var mid := if c.listenPort.Some? then [Entry(ListenPort, Itoa(c.listenPort.value))] else [];
    FoldOne(Accept, d, head[0]);
    FoldAppend(Accept, d, head, mid);
    if c.listenPort.Some? {
      ParseItoa(c.listenPort.value);
      FoldOne(Accept, d1, mid[0]);
    }
    FoldAppend(Accept, d, head + mid, PeersEntries(c.peers));
    AcceptPeers(d1.(listenPort := c.listenPort), c.peers);
    assert [] + NormalPeers(c.peers) == NormalPeers(c.peers);
  }

  predicate CleanEntries(es: seq<Entry>) {
    forall i :: 0 <= i < |es| ==> OneLine(es[i].value)
  }

  lemma CleanPeerEntries(p: Peer)
    requires CleanPeer(p)
    ensures CleanEntries(PeerEntries(p))
  {
    ItoaLacks(p.keepAlive, '\n');
    assert forall i :: 0 <= i < |Routes(p)| ==> OneLine(Routes(p)[i]);
  }

  lemma {:induction false} CleanPeersEntries(ps: seq<Peer>)
    requires forall i :: 0 <= i < |ps| ==> CleanPeer(ps[i])
    ensures CleanEntries(PeersEntries(ps))
  {
    if ps != [] {
      CleanPeersEntries(ps[..|ps|-1]);
      CleanPeerEntries(ps[|ps|-1]);
    }
  }

  lemma SplitRender(es: seq<Entry>)
    requires CleanEntries(es)
    ensures Split(Unlines(LinesOf(es)), '\n') == LinesOf(es) + [""]
  {
    forall l | l in LinesOf(es) ensures Lacks(l, '\n') {
      var i :| 0 <= i < |es| && LinesOf(es)[i] == l;
      ParseLineOf(es[i]);
    }
    SplitUnlines(LinesOf(es), "");
    assert Unlines(LinesOf(es)) + "" == Unlines(LinesOf(es));
  }

  lemma DeviceEntriesAreClean(c: DeviceConfig)
    requires Clean(c)
    ensures CleanEntries(DeviceEntries(c))
  {
    CleanPeersEntries(c.peers);
    if c.listenPort.Some? {
      ItoaLacks(c.listenPort.value, '\n');
    }
  }

  /** Decoding text that is made of the given entries. */
  lemma DecodeLines(text: string, es: seq<Entry>, d: Decoding)
    requires Split(text, '\n') == LinesOf(es) + [""] && ParseLines(LinesOf(es)) == Some(es)
    requires AcceptAll(Decoding(None, None, []), es) == Some(d) && d.secretKey.Some?
    ensures Decode(text) == Some(DeviceConfig(d.secretKey.value, d.listenPort, d.peers))
  {
    var lines := LinesOf(es) + [""];
    assert lines[..|lines|-1] == LinesOf(es);
  }

  /** Whatever the peers, decoding the printed request gives the configuration back. */
  lemma DecodeRender(c: DeviceConfig)
    ensures Clean(c) ==> Decode(Render(c)) == Some(Normal(c))
  {
    if Clean(c) {
      var es := DeviceEntries(c);
      DeviceEntriesAreClean(c);
      SplitRender(es);
      ParseLinesOf(es);
      AcceptDevice(c);
      DecodeLines(Render(c), es, Decoding(Some(c.secretKey), c.listenPort, NormalPeers(c.peers)));
    }
  }

  /** The printer is injective on clean configurations up to writing out the default routes. */
  lemma RenderInjective(a: DeviceConfig, b: DeviceConfig)
    requires Clean(a) && Clean(b)
    ensures Render(a) == Render(b) <==> Normal(a) == Normal(b)
  {
    DecodeRender(a);
    DecodeRender(b);
    RenderNormal(a);
    RenderNormal(b);
  }

  lemma RenderNormal(c: DeviceConfig)
    ensures Render(Normal(c)) == Render(c)
  {
    PeersEntriesNormal(c.peers);
  }

  lemma {:induction false} PeersEntriesNormal(ps: seq<Peer>)
    ensures PeersEntries(NormalPeers(ps)) == PeersEntries(ps)
  {
    if ps != [] {
      var n := |ps| - 1;
      PeersEntriesNormal(ps[..n]);
      assert NormalPeers(ps)[..n] == NormalPeers(ps[..n]);
      assert PeerEntries(NormalPeer(ps[n])) == PeerEntries(ps[n]);
    }
  }

  // ----- Cleanliness is exactly what the round trip needs -----

  lemma {:induction false} CollectedFrom<E>(os: seq<Option<E>>)
    requires Collect(os).Some?
    ensures |Collect(os).value| == |os| && forall i :: 0 <= i < |os| ==> os[i] == Some(Collect(os).value[i])
  {
    if os != [] {
      CollectedFrom(os[..|os|-1]);
    }
  }

  lemma ParsedIsClean(lines: seq<string>)
    requires ParseLines(lines).Some? && forall i :: 0 <= i < |lines| ==> OneLine(lines[i])
    ensures CleanEntries(ParseLines(lines).value)
  {
    var es := ParseLines(lines).value;
    CollectedFrom(ParseEach(lines));
    forall i | 0 <= i < |es| ensures OneLine(es[i].value) {
      ParsedValueIsClean(lines[i]);
    }
  }

  lemma ParsedValueIsClean(line: string)
    requires OneLine(line) && ParseLine(line).Some?
    ensures OneLine(ParseLine(line).value.value)
  {
    var value := ParseLine(line).value.value;
    assert value == line[|line|-|value|..];
  }

  predicate CleanDecoding(d: Decoding) {
    (d.secretKey.Some? ==> OneLine(d.secretKey.value)) && forall i :: 0 <= i < |d.peers| ==> CleanPeer(d.peers[i])
  }

  lemma {:induction false} AcceptedIsClean(d: Decoding, es: seq<Entry>)
    requires CleanDecoding(d) && CleanEntries(es) && AcceptAll(d, es).Some?
    ensures CleanDecoding(AcceptAll(d, es).value)
  {
    if es != [] {
      var n := |es| - 1;
      AcceptedIsClean(d, es[..n]);
      AcceptKeepsClean(AcceptAll(d, es[..n]).value, es[n]);
    }
  }

  lemma AcceptKeepsClean(d: Decoding, e: Entry)
    requires CleanDecoding(d) && OneLine(e.value) && Accept(d, e).Some?
    ensures CleanDecoding(Accept(d, e).value)
  {}

  lemma DecodedIsClean(text: string)
    requires Decode(text).Some?
    ensures Clean(Decode(text).value)
  {
    var lines := Split(text, '\n');
    var n := |lines| - 1;
    forall i | 0 <= i < n ensures OneLine(lines[..n][i]) {
      SplitParts(text, '\n', i);
    }
    ParsedIsClean(lines[..n]);
    AcceptedIsClean(Decoding(None, None, []), ParseLines(lines[..n]).value);
  }

  /** The round trip works exactly for the configurations without newlines in their strings. */
  lemma RoundTripIff(c: DeviceConfig)
    ensures Decode(Render(c)) == Some(Normal(c)) <==> Clean(c)
  {
    DecodeRender(c);
    if Decode(Render(c)) == Some(Normal(c)) {
      DecodedIsClean(Render(c));
      forall i | 0 <= i < |c.peers| ensures CleanPeer(c.peers[i]) {
        assert CleanPeer(Normal(c).peers[i]);
      }
    }
  }
}
