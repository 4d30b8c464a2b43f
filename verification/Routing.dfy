/** Which network a routine dials on, for every request it can receive. */
module Routing {
  import opened Wrappers
  import opened Text
  import opened HostPort
  import opened Config

  /** Regular expression matching and strings.ToLower. */
  datatype Matcher = Matcher(matches: (Pattern, string) -> bool, lower: string -> string)

  function TrimDot(host: string): string {
    if host != "" && host[|host|-1] == '.' then host[..|host|-1] else host
  }

  predicate ShouldTunnel(patterns: seq<Pattern>, host: string, m: Matcher) {
    patterns == [] || exists p :: p in patterns && m.matches(p, m.lower(TrimDot(host)))
  }

  /** shouldTunnel: the patterns are tried in order. */
  method TryPatterns(patterns: seq<Pattern>, host: string, m: Matcher) returns (tunnel: bool)
    ensures tunnel <==> ShouldTunnel(patterns, host, m)
  {
    if |patterns| == 0 {
      return true;
    }
    var name := m.lower(TrimDot(host));
    for i := 0 to |patterns|
      invariant forall j :: 0 <= j < i ==> !m.matches(patterns[j], name)
    {
      if m.matches(patterns[i], name) {
        return true;
      }
    }
    return false;
  }

  function HostFromAddr(address: string): string {
    match SplitHostPort(address)
    case Err(_) => address
    case Ok(hp) => hp.host
  }

  /** parseAddressPort */
  function ParseAddressPort(endpoint: string): Option<(string, int)> {
    match SplitHostPort(endpoint)
    case Err(_) => None
    case Ok(hp) =>
      match Atoi(hp.port)
      case None => None
      case Some(n) => if 0 <= n <= 65535 then Some((hp.host, n)) else None
  }

  datatype Via = Tunnel | Host

  /** A TCP connect; `port` is the number the code has parsed, if it parses one. */
  datatype Connect = Connect(via: Via, address: string, port: Option<int>)

  /** What a client can ask of a routine. */
  datatype Request =
    | SocksRequest(fqdn: string, address: string)
    | HttpRequest(host: string, isConnect: bool)
    | ClientHello(serverName: string)
    | Accepted

  function RoutedDial(patterns: seq<Pattern>, host: string, address: string, m: Matcher): Connect {
    Connect(if ShouldTunnel(patterns, host, m) then Tunnel else Host, address, None)
  }

  /** The TCP connection the routine opens for the request, if it opens one. */
  function Dial(r: Routine, req: Request, m: Matcher): Option<Connect> {
    match (r, req)
    case (Socks5(_, domains, log), SocksRequest(fqdn, address)) =>
      if domains == [] && !log then Some(Connect(Tunnel, address, None))
      else Some(RoutedDial(domains, if fqdn == "" then HostFromAddr(address) else fqdn, address, m))
    case (HTTP(_, domains, _), HttpRequest(host, isConnect)) =>
      var address := if ':' in host then host else JoinHostPort(host, if isConnect then "443" else "80");
      Some(RoutedDial(domains, HostFromAddr(address), address, m))
    case (SNI(_, domains, _), ClientHello(name)) =>
      if name == "" then None
      else Some(RoutedDial(domains, HostFromAddr(JoinHostPort(name, "443")), JoinHostPort(name, "443"), m))
    case (TCPClientTunnel(_, target), Accepted) =>
      (match ParseAddressPort(target)
       case None => None
       case Some((host, port)) => Some(Connect(Tunnel, target, Some(port))))
    case (STDIOTunnel(target), Accepted) =>
      (match ParseAddressPort(target)
       case None => None
       case Some((host, port)) => Some(Connect(Tunnel, target, Some(port))))
    case (TCPServerTunnel(_, target), Accepted) =>
      (match ParseAddressPort(target)
       case None => None
       case Some((host, port)) => Some(Connect(Host, target, Some(port))))
    case _ => None
  }

  /** A proxy with a TunnelDomains list, which may dial other hosts directly. */
  predicate SplitRouted(r: Routine) {
    (r.Socks5? || r.HTTP? || r.SNI?) && r.domains != []
  }

  ghost predicate CanLeaveTunnel(r: Routine) {
    exists req, m :: Dial(r, req, m).Some? && Dial(r, req, m).value.via == Host
  }

  /** Exactly the split-routed proxies and the server tunnels with a usable target can connect outside the tunnel. */
  lemma LeavesTunnelIff(r: Routine)
    ensures CanLeaveTunnel(r) <==> SplitRouted(r) || (r.TCPServerTunnel? && ParseAddressPort(r.target).Some?)
  {
    var none := Matcher((p, h) => false, h => h);
    if SplitRouted(r) {
      var req := if r.Socks5? then SocksRequest("a", "a") else if r.HTTP? then HttpRequest("a", true) else ClientHello("a");
      assert Dial(r, req, none).value.via == Host;
    } else if r.TCPServerTunnel? && ParseAddressPort(r.target).Some? {
      assert Dial(r, Accepted, none).value.via == Host;
    }
  }

  // ----- Which host decides, and where the connection goes -----

  /** `name` is the host of the address, or all of an address that does not read host:port. */
  ghost predicate IsHostOf(name: string, address: string) {
    || (exists port :: IsHostPort(address, name, port))
    || (name == address && forall host, port :: !IsHostPort(address, host, port))
  }

  /** The request asks for the host `name` and is to be connected to `address`. */
  ghost predicate Asks(req: Request, name: string, address: string) {
    match req
    case SocksRequest(fqdn, a) => address == a && if fqdn != "" then name == fqdn else IsHostOf(name, address)
    case HttpRequest(host, isConnect) =>
      && address == (if ':' in host then host else if isConnect then host + ":443" else host + ":80")
      && IsHostOf(name, address)
    case ClientHello(server) =>
      && server != "" && address == (if ':' in server then "[" + server + "]:443" else server + ":443")
      && IsHostOf(name, address)
    case Accepted => false
  }

  /** `h` is the name without one trailing dot. */
  predicate IsUndotted(h: string, name: string) {
    name == h + "." || (name == h && (h == "" || h[|h|-1] != '.'))
  }

  predicate IsProxy(r: Routine) {
    r.Socks5? || r.HTTP? || r.SNI?
  }

  /** The proxy serves requests of that kind. */
  predicate Serves(r: Routine, req: Request) {
    match req
    case SocksRequest(_, _) => r.Socks5?
    case HttpRequest(_, _) => r.HTTP?
    case ClientHello(server) => r.SNI? && server != ""
    case Accepted => false
  }

  lemma HostOfIs(name: string, address: string)
    ensures IsHostOf(name, address) <==> HostFromAddr(address) == name
  {
    if SplitHostPort(address).Ok? {
      var hp := SplitHostPort(address).value;
      SplitIff(address, hp.host, hp.port);
      forall port | IsHostPort(address, name, port) ensures name == hp.host {
        SplitIff(address, name, port);
      }
    } else {
      forall host, port ensures !IsHostPort(address, host, port) {
        SplitIff(address, host, port);
      }
    }
  }

  lemma UndottedIs(h: string, name: string)
    ensures IsUndotted(h, name) <==> TrimDot(name) == h
  {
    if name != "" && name[|name|-1] == '.' {
      assert name == name[..|name|-1] + ".";
    }
  }

  lemma JoinTexts(host: string)
    ensures JoinHostPort(host, "443") == if ':' in host then "[" + host + "]:443" else host + ":443"
    ensures ':' !in host ==> JoinHostPort(host, "80") == host + ":80"
  {
    assert [':'] + "443" == ":443" && [':'] + "80" == ":80";
    assert "[" + host + "]:443" == "[" + host + "]" + [':'] + "443";
  }

  /** The address of the request, as the code puts it together. */
  function AddressOf(req: Request): string {
    match req
    case SocksRequest(_, a) => a
    case HttpRequest(host, isConnect) => if ':' in host then host else JoinHostPort(host, if isConnect then "443" else "80")
    case ClientHello(server) => JoinHostPort(server, "443")
    case Accepted => ""
  }

  function NameOf(req: Request): string {
    if req.SocksRequest? && req.fqdn != "" then req.fqdn else HostFromAddr(AddressOf(req))
  }

  lemma AddressIs(req: Request, name: string, address: string)
    requires Asks(req, name, address)
    ensures address == AddressOf(req)
  {
    match req
    case SocksRequest(_, _) =>
    case HttpRequest(host, _) => JoinTexts(host);
    case ClientHello(server) => JoinTexts(server);
  }

  lemma AsksIs(req: Request, name: string, address: string)
    requires Asks(req, name, address)
    ensures address == AddressOf(req) && name == NameOf(req)
  {
    AddressIs(req, name, address);
    HostOfIs(name, address);
  }

  lemma DialIs(r: Routine, req: Request, m: Matcher)
    requires IsProxy(r) && Serves(r, req)
    ensures Dial(r, req, m).Some? && Dial(r, req, m).value.address == AddressOf(req)
    ensures Dial(r, req, m).value.via == Tunnel <==> ShouldTunnel(r.domains, NameOf(req), m)
  {}

  /** A proxy connects through the tunnel exactly when it has no TunnelDomains or one of them matches the lower-cased
      name of the requested host, and it connects to the requested address. */
  lemma RoutesByName(r: Routine, req: Request, m: Matcher, name: string, h: string, address: string)
    requires IsProxy(r) && Serves(r, req) && Asks(req, name, address) && IsUndotted(h, name)
    ensures Dial(r, req, m).Some? && Dial(r, req, m).value.address == address
    ensures Dial(r, req, m).value.via == Tunnel <==> r.domains == [] || exists p :: p in r.domains && m.matches(p, m.lower(h))
  {
    AsksIs(req, name, address);
    UndottedIs(h, name);
    DialIs(r, req, m);
  }

  lemma AsksAddress(req: Request)
    requires !req.Accepted? && req != ClientHello("")
    ensures Asks(req, NameOf(req), AddressOf(req))
  {
    HostOfIs(HostFromAddr(AddressOf(req)), AddressOf(req));
    match req
    case SocksRequest(_, _) =>
    case HttpRequest(host, _) => JoinTexts(host);
    case ClientHello(server) => JoinTexts(server);
  }

  lemma ServesIff(r: Routine, req: Request, m: Matcher)
    requires IsProxy(r)
    ensures Dial(r, req, m).Some? <==> Serves(r, req)
  {}

  /** Every request that a proxy serves asks for some host, and the proxies dial for no other requests. */
  lemma EveryRequestAsks(r: Routine, req: Request, m: Matcher) returns (name: string, h: string, address: string)
    requires IsProxy(r)
    ensures Dial(r, req, m).Some? <==> Serves(r, req)
    ensures Serves(r, req) ==> Asks(req, name, address) && IsUndotted(h, name)
  {
    name, h, address := NameOf(req), TrimDot(NameOf(req)), AddressOf(req);
    ServesIff(r, req, m);
    UndottedIs(h, name);
    if Serves(r, req) {
      AsksAddress(req);
    }
  }

  /** A plain host name is itself what the patterns are matched against, whatever the proxy. */
  lemma PlainNameDecides(host: string)
    requires Bracketless(host) && ':' !in host && host != ""
    ensures Asks(SocksRequest(host, host + ":443"), host, host + ":443")
    ensures Asks(SocksRequest("", host + ":443"), host, host + ":443")
    ensures Asks(HttpRequest(host, true), host, host + ":443") && Asks(HttpRequest(host, false), host, host + ":80")
    ensures Asks(ClientHello(host), host, host + ":443")
  {
    assert host + ":443" == host + [':'] + "443" && host + ":80" == host + [':'] + "80";
    assert IsHostPort(host + ":443", host, "443") && IsHostPort(host + ":80", host, "80");
  }

  /** The text reads host:port, and the port is the number n, which is at most 65535. */
  ghost predicate HasPort(s: string, n: int) {
    0 <= n <= 65535 && exists host, port :: IsHostPort(s, host, port) && Atoi(port) == Some(n)
  }

  lemma HasPortIff(s: string, n: int)
    ensures HasPort(s, n) <==> 0 <= n <= 65535 && SplitHostPort(s).Ok? && Atoi(SplitHostPort(s).value.port) == Some(n)
  {
    if HasPort(s, n) {
      var host, port :| IsHostPort(s, host, port) && Atoi(port) == Some(n);
      SplitIff(s, host, port);
    }
    if SplitHostPort(s).Ok? {
      SplitRejoins(s);
    }
  }

  lemma ParsesIff(s: string, n: int)
    ensures HasPort(s, n) <==> ParseAddressPort(s).Some? && ParseAddressPort(s).value.1 == n
  {
    HasPortIff(s, n);
  }

  lemma DialTarget(r: Routine, m: Matcher)
    requires r.TCPClientTunnel? || r.STDIOTunnel? || r.TCPServerTunnel?
    ensures var a := ParseAddressPort(r.target);
            Dial(r, Accepted, m) ==
              if a.None? then None else Some(Connect(if r.TCPServerTunnel? then Host else Tunnel, r.target, Some(a.value.1)))
  {}

  /** A tunnel connects to its target, a server tunnel on the host and the others through the tunnel, exactly when the
      target reads host:port with a number up to 65535. */
  lemma TunnelsDialTarget(r: Routine, m: Matcher, n: int)
    requires r.TCPClientTunnel? || r.STDIOTunnel? || r.TCPServerTunnel?
    ensures Dial(r, Accepted, m) == Some(Connect(if r.TCPServerTunnel? then Host else Tunnel, r.target, Some(n))) <==> HasPort(r.target, n)
    ensures Dial(r, Accepted, m).Some? ==> Dial(r, Accepted, m).value.port.Some?
  {
    DialTarget(r, m);
    ParsesIff(r.target, n);
  }
}
