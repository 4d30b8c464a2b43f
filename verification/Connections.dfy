/** ValidateConnections: the cross-connection checks, and what they amount to. */
module Connections {
  import opened Wrappers
  import opened Text
  import opened HostPort
  import opened Names
  import opened Config

  datatype Kind = Tcp | Udp
  datatype Bind = Bind(kind: Kind, host: string, port: string)

  function NormalizePort(port: string): string {
    match Atoi(port)
    case None => port
    case Some(n) => Itoa(n)
  }

  predicate IsWildcardHost(host: string) {
    host == "" || host == "0.0.0.0" || host == "::"
  }

  /** Two ports normalize alike exactly when they are the same number, or the same text and not a number. */
  lemma SamePort(p: string, q: string)
    ensures NormalizePort(p) == NormalizePort(q) <==> Atoi(p) == Atoi(q) && (Atoi(p).None? ==> p == q)
  {
    if Atoi(p).Some? { ParseItoa(Atoi(p).value); }
    if Atoi(q).Some? { ParseItoa(Atoi(q).value); }
  }

  // ----- What is required -----

  /** The listener a routine opens on the host, and its address. */
  function HostAddress(r: Routine): Option<(Kind, string)> {
    match r
    case TCPClientTunnel(bind, _) => Some((Tcp, AddrString(bind)))
    case Socks5(addr, _, _) => Some((Tcp, addr))
    case HTTP(addr, _, _) => Some((Tcp, addr))
    case SNI(addr, _, _) => Some((Tcp, addr))
    case UDPProxyTunnel(addr, _) => Some((Udp, addr))
    case _ => None
  }

  function BindsAt(kind: Kind, addr: string): seq<Bind> {
    match SplitHostPort(addr)
    case Err(_) => []
    case Ok(hp) => [Bind(kind, hp.host, NormalizePort(hp.port))]
  }

  function RoutineBinds(r: Routine): seq<Bind> {
    match HostAddress(r)
    case None => []
    case Some((kind, addr)) => BindsAt(kind, addr)
  }

  function RoutinesBinds(rs: seq<Routine>): seq<Bind> {
    if rs == [] then [] else RoutinesBinds(rs[..|rs|-1]) + RoutineBinds(rs[|rs|-1])
  }

  function SpecBinds(spec: ConnectionSpec): seq<Bind> {
    RoutinesBinds(spec.conf.routines)
  }

  function InfoBinds(info: string): seq<Bind> {
    if info == "" then [] else BindsAt(Tcp, info)
  }

  /** Every host listener of the process: the health endpoint first, then the connections in order. */
  function AllBinds(specs: seq<ConnectionSpec>, info: string): seq<Bind> {
    if specs == [] then InfoBinds(info)
    else AllBinds(specs[..|specs|-1], info) + SpecBinds(specs[|specs|-1])
  }

  /** Two listeners that cannot both be bound. */
  predicate Conflict(a: Bind, b: Bind) {
    a.kind == b.kind && a.port == b.port && (a.host == b.host || IsWildcardHost(a.host) || IsWildcardHost(b.host))
  }

  predicate ConflictFree(binds: seq<Bind>) {
    forall i, j :: 0 <= i < j < |binds| ==> !Conflict(binds[i], binds[j])
  }

  /** Nothing about this routine alone is malformed or unsupported. */
  predicate RoutineOk(r: Routine, onTailscale: bool) {
    && (HostAddress(r).Some? ==> SplitHostPort(HostAddress(r).value.1).Ok?)
    && (r.TCPServerTunnel? ==> SplitHostPort(r.target).Ok?)
    && !(r.UDPProxyTunnel? && onTailscale)
  }

  predicate SameTunnelPort(a: Routine, b: Routine) {
    a.TCPServerTunnel? && b.TCPServerTunnel? && a.listenPort == b.listenPort
  }

  predicate RoutinesOk(rs: seq<Routine>, onTailscale: bool) {
    && (forall i :: 0 <= i < |rs| ==> RoutineOk(rs[i], onTailscale))
    && (forall i, j :: 0 <= i < j < |rs| ==> !SameTunnelPort(rs[i], rs[j]))
  }

  predicate SpecOk(spec: ConnectionSpec) {
    && MatchesPattern(spec.name)
    && !(spec.conf.tailscale.Some? && spec.conf.device.Some?)
    && RoutinesOk(spec.conf.routines, spec.conf.tailscale.Some?)
  }

  function HostName(spec: ConnectionSpec, env: Env): Option<string> {
    match spec.conf.tailscale
    case None => None
    case Some(ts) => Some(env.lower(ts.hostname))
  }

  function StateDir(spec: ConnectionSpec, env: Env): Option<string> {
    match spec.conf.tailscale
    case None => None
    case Some(ts) =>
      var d := EffectiveStateDir(ts, spec.name, env);
      if d == "" then None else Some(d)
  }

  function ListenPort(spec: ConnectionSpec): Option<int> {
    match spec.conf.device
    case None => None
    case Some(d) => d.listenPort
  }

  predicate ListensOn(spec: ConnectionSpec, port: int) {
    ListenPort(spec).Some? && ListenPort(spec).value == port
  }

  predicate Same<T(==)>(a: Option<T>, b: Option<T>) {
    a.Some? && a == b
  }

  /** Two connections that may not appear together whatever they listen on. */
  predicate Clash(a: ConnectionSpec, b: ConnectionSpec, env: Env) {
    || a.name == b.name
    || Same(HostName(a, env), HostName(b, env))
    || Same(StateDir(a, env), StateDir(b, env))
    || Same(ListenPort(a), ListenPort(b))
  }

  predicate SpecsOk(specs: seq<ConnectionSpec>, env: Env) {
    && (forall i :: 0 <= i < |specs| ==> SpecOk(specs[i]))
    && (forall i, j :: 0 <= i < j < |specs| ==> !Clash(specs[i], specs[j], env))
  }

  /** The whole requirement on a list of connections and a health address. */
  ghost predicate ValidSpecs(specs: seq<ConnectionSpec>, info: string, env: Env) {
    && (info != "" ==> SplitHostPort(info).Ok?)
    && SpecsOk(specs, env)
    && ConflictFree(AllBinds(specs, info))
  }

  // ----- The checker -----

  datatype ConfigError =
    | InvalidAddress
    | InvalidName
    | DuplicateName
    | SameHostname
    | SameStateDir
    | MixedBackends
    | SameListenPort
    | UdpOnTailscale
    | TunnelPortTwice
    | InvalidTarget
    | SharedPort

  method AddBind(binds: seq<Bind>, kind: Kind, addr: string) returns (binds': seq<Bind>, err: Option<ConfigError>)
    ensures err.None? <==> SplitHostPort(addr).Ok?
    ensures err.None? ==> binds' == binds + BindsAt(kind, addr)
  {
    match SplitHostPort(addr)
    case Err(_) =>
      binds', err := binds, Some(InvalidAddress);
    case Ok(hp) =>
      binds', err := binds + [Bind(kind, hp.host, NormalizePort(hp.port))], None;
  }

  /** The type switch over one routine. `listenPorts` are the tunnel ports this connection has used so far. */
  method CheckRoutine(r: Routine, onTailscale: bool, binds: seq<Bind>, listenPorts: set<int>)
    returns (binds': seq<Bind>, listenPorts': set<int>, err: Option<ConfigError>)
    ensures err.None? <==> RoutineOk(r, onTailscale) && !(r.TCPServerTunnel? && r.listenPort in listenPorts)
    ensures err.None? ==> binds' == binds + RoutineBinds(r)
    ensures err.None? ==> listenPorts' == if r.TCPServerTunnel? then listenPorts + {r.listenPort} else listenPorts
  {
    binds', listenPorts', err := binds, listenPorts, None;
    match r
    case TCPClientTunnel(bind, _) =>
      binds', err := AddBind(binds, Tcp, AddrString(bind));
    case Socks5(addr, _, _) =>
      binds', err := AddBind(binds, Tcp, addr);
    case HTTP(addr, _, _) =>
      binds', err := AddBind(binds, Tcp, addr);
    case SNI(addr, _, _) =>
      binds', err := AddBind(binds, Tcp, addr);
    case UDPProxyTunnel(addr, _) =>
      if onTailscale {
        return binds, listenPorts, Some(UdpOnTailscale);
      }
      binds', err := AddBind(binds, Udp, addr);
    case TCPServerTunnel(port, target) =>
      if port in listenPorts {
        return binds, listenPorts, Some(TunnelPortTwice);
      }
      listenPorts' := listenPorts + {port};
      if SplitHostPort(target).Err? {
        err := Some(InvalidTarget);
      }
    case STDIOTunnel(_) =>
  }

  /** The body of the loop over one connection's routines; `done` are the ones before `r`. */
  method CheckNext(ghost done: seq<Routine>, r: Routine, ts: bool, ghost before: seq<Bind>, binds: seq<Bind>, listenPorts: set<int>)
    returns (binds': seq<Bind>, listenPorts': set<int>, err: Option<ConfigError>)
    requires RoutinesOk(done, ts) && listenPorts == TunnelPorts(done) && binds == before + RoutinesBinds(done)
    ensures err.None? <==> RoutinesOk(done + [r], ts)
    ensures err.None? ==> binds' == before + RoutinesBinds(done + [r]) && listenPorts' == TunnelPorts(done + [r])
  {
    OkSnoc(done, r, ts);
    PortsSnoc(done, r);
    BindsSnoc(done, r);
    AppendAssoc(before, RoutinesBinds(done), RoutineBinds(r));
    binds', listenPorts', err := CheckRoutine(r, ts, binds, listenPorts);
  }

  /** The loop over one connection's routines. */
  method CheckRoutines(spec: ConnectionSpec, binds: seq<Bind>) returns (binds': seq<Bind>, err: Option<ConfigError>)
    ensures err.None? <==> RoutinesOk(spec.conf.routines, spec.conf.tailscale.Some?)
    ensures err.None? ==> binds' == binds + SpecBinds(spec)
  {
    var rs, ts := spec.conf.routines, spec.conf.tailscale.Some?;
    var listenPorts: set<int> := {};
    binds', err := binds, None;
    ghost var done: seq<Routine> := [];
    for n := 0 to |rs|
      invariant done == rs[..n] && err.None? && binds' == binds + RoutinesBinds(done)
      invariant RoutinesOk(done, ts) && listenPorts == TunnelPorts(done)
    {
      binds', listenPorts, err := CheckNext(done, rs[n], ts, binds, binds', listenPorts);
      SliceNext(rs, n);
      done := done + [rs[n]];
      if err.Some? {
        if RoutinesOk(rs, ts) {
          RoutinesOkPrefix(rs, n + 1, ts);
        }
        return;
      }
    }
    assert done == rs;
  }

  function TunnelPorts(rs: seq<Routine>): set<int> {
    set i | 0 <= i < |rs| && rs[i].TCPServerTunnel? :: rs[i].listenPort
  }

  lemma OkSnoc(rs: seq<Routine>, r: Routine, ts: bool)
    ensures RoutinesOk(rs + [r], ts) <==>
            RoutinesOk(rs, ts) && RoutineOk(r, ts) && !(r.TCPServerTunnel? && r.listenPort in TunnelPorts(rs))
  {
    var more, n := rs + [r], |rs|;
    assert more[n] == r && forall i :: 0 <= i < n ==> more[i] == rs[i];
    if r.TCPServerTunnel? && r.listenPort in TunnelPorts(rs) {
      var i :| 0 <= i < n && rs[i].TCPServerTunnel? && rs[i].listenPort == r.listenPort;
      assert SameTunnelPort(more[i], more[n]);
    }
  }

  lemma PortsSnoc(rs: seq<Routine>, r: Routine)
    ensures TunnelPorts(rs + [r]) == if r.TCPServerTunnel? then TunnelPorts(rs) + {r.listenPort} else TunnelPorts(rs)
  {
    var more, n := rs + [r], |rs|;
    assert more[n] == r && forall i :: 0 <= i < n ==> more[i] == rs[i];
  }

  lemma BindsSnoc(rs: seq<Routine>, r: Routine)
    ensures RoutinesBinds(rs + [r]) == RoutinesBinds(rs) + RoutineBinds(r)
  {
    assert (rs + [r])[..|rs|] == rs;
  }

  lemma RoutinesOkPrefix(rs: seq<Routine>, n: nat, ts: bool)
    requires n <= |rs| && RoutinesOk(rs, ts)
    ensures RoutinesOk(rs[..n], ts)
  {}

  /** The pairwise loop over all listeners. */
  method CheckConflicts(binds: seq<Bind>) returns (err: Option<ConfigError>)
    ensures err.None? <==> ConflictFree(binds)
  {
    for i := 0 to |binds|
      invariant forall k, j :: 0 <= k < i && k < j < |binds| ==> !Conflict(binds[k], binds[j])
    {
      for j := i + 1 to |binds|
        invariant forall l :: i < l < j ==> !Conflict(binds[i], binds[l])
      {
        var a, b := binds[i], binds[j];
        if a.kind != b.kind || a.port != b.port {
          continue;
        }
        if a.host == b.host || IsWildcardHost(a.host) || IsWildcardHost(b.host) {
          return Some(SharedPort);
        }
      }
    }
    return None;
  }

  /** The four maps filled while the connections are walked through. */
  datatype Seen = Seen(names: set<string>, hostnames: map<string, string>, stateDirs: map<string, string>, listenPorts: map<int, string>)

  /** `seen` holds exactly the names, hostnames, state directories and listen ports of `specs`. */
  ghost predicate Records(seen: Seen, specs: seq<ConnectionSpec>, env: Env) {
    && (forall s :: s in seen.names <==> exists i :: 0 <= i < |specs| && specs[i].name == s)
    && (forall h :: h in seen.hostnames <==> exists i :: 0 <= i < |specs| && HostName(specs[i], env) == Some(h))
    && (forall d :: d != "" ==> (d in seen.stateDirs <==> exists i :: 0 <= i < |specs| && StateDir(specs[i], env) == Some(d)))
    && (forall p :: p in seen.listenPorts <==> exists i :: 0 <= i < |specs| && ListensOn(specs[i], p))
  }

  predicate Unseen(seen: Seen, spec: ConnectionSpec, env: Env) {
    && spec.name !in seen.names
    && (HostName(spec, env).Some? ==> HostName(spec, env).value !in seen.hostnames)
    && (StateDir(spec, env).Some? ==> StateDir(spec, env).value !in seen.stateDirs)
    && (ListenPort(spec).Some? ==> ListenPort(spec).value !in seen.listenPorts)
  }

  lemma UnseenIffNoClash(seen: Seen, specs: seq<ConnectionSpec>, spec: ConnectionSpec, env: Env)
    requires Records(seen, specs, env)
    ensures Unseen(seen, spec, env) <==> NoClashWith(specs, spec, env)
  {
    forall i | 0 <= i < |specs| && Same(ListenPort(specs[i]), ListenPort(spec))
      ensures ListenPort(spec).value in seen.listenPorts
    {
      assert ListensOn(specs[i], ListenPort(spec).value);
    }
    if spec.name in seen.names {
      var i :| 0 <= i < |specs| && specs[i].name == spec.name;
      assert Clash(specs[i], spec, env);
    } else if HostName(spec, env).Some? && HostName(spec, env).value in seen.hostnames {
      var i :| 0 <= i < |specs| && HostName(specs[i], env) == HostName(spec, env);
      assert Clash(specs[i], spec, env);
    } else if StateDir(spec, env).Some? && StateDir(spec, env).value in seen.stateDirs {
      var i :| 0 <= i < |specs| && StateDir(specs[i], env) == StateDir(spec, env);
      assert Clash(specs[i], spec, env);
    } else if ListenPort(spec).Some? && ListenPort(spec).value in seen.listenPorts {
      var port := ListenPort(spec).value;
      var i :| 0 <= i < |specs| && ListensOn(specs[i], port);
      assert Clash(specs[i], spec, env);
    }
  }

  predicate NoClashWith(specs: seq<ConnectionSpec>, spec: ConnectionSpec, env: Env) {
    forall i :: 0 <= i < |specs| ==> !Clash(specs[i], spec, env)
  }

  /** seen' is seen with the identity of `spec` entered. */
  ghost predicate Entered(seen: Seen, seen': Seen, spec: ConnectionSpec, env: Env) {
    && seen'.names == seen.names + {spec.name}
    && (forall h :: h in seen'.hostnames <==> h in seen.hostnames || HostName(spec, env) == Some(h))
    && (forall d :: d != "" ==> (d in seen'.stateDirs <==> d in seen.stateDirs || StateDir(spec, env) == Some(d)))
    && (forall p :: p in seen'.listenPorts <==> p in seen.listenPorts || ListensOn(spec, p))
  }

  lemma RecordsSnoc(seen: Seen, seen': Seen, specs: seq<ConnectionSpec>, spec: ConnectionSpec, env: Env)
    requires Records(seen, specs, env) && Entered(seen, seen', spec, env)
    ensures Records(seen', specs + [spec], env)
  {
    var more := specs + [spec];
    assert more[|specs|] == spec && forall i :: 0 <= i < |specs| ==> more[i] == specs[i];
  }

  /** The checks on one connection's own identity, entering it into the maps. */
  method CheckIdentity(spec: ConnectionSpec, seen: Seen, env: Env) returns (seen': Seen, err: Option<ConfigError>)
    ensures err.None? <==> MatchesPattern(spec.name) && Unseen(seen, spec, env) && !(spec.conf.tailscale.Some? && spec.conf.device.Some?)
    ensures err.None? ==> Entered(seen, seen', spec, env)
  {
    var Seen(names, tsHostnames, tsStateDirs, wgListenPorts) := seen;
    seen', err := seen, None;
    if spec.name == "" || !MatchesPattern(spec.name) {
      return seen, Some(InvalidName);
    }
    if spec.name in names {
      return seen, Some(DuplicateName);
    }
    names := names + {spec.name};
    if spec.conf.tailscale.Some? {
      var hostname := env.lower(spec.conf.tailscale.value.hostname);
      if hostname in tsHostnames {
        return seen, Some(SameHostname);
      }
      tsHostnames := tsHostnames[hostname := spec.name];
      var stateDir := EffectiveStateDir(spec.conf.tailscale.value, spec.name, env);
      if stateDir in tsStateDirs && stateDir != "" {
        return seen, Some(SameStateDir);
      }
      tsStateDirs := tsStateDirs[stateDir := spec.name];
      if spec.conf.device.Some? {
        return seen, Some(MixedBackends);
      }
    }
    if spec.conf.device.Some? && spec.conf.device.value.listenPort.Some? {
      var port := spec.conf.device.value.listenPort.value;
      if port in wgListenPorts {
        return seen, Some(SameListenPort);
      }
      wgListenPorts := wgListenPorts[port := spec.name];
    }
    seen' := Seen(names, tsHostnames, tsStateDirs, wgListenPorts);
  }

  lemma SpecsOkSnoc(specs: seq<ConnectionSpec>, spec: ConnectionSpec, env: Env)
    ensures SpecsOk(specs + [spec], env) <==> SpecsOk(specs, env) && SpecOk(spec) && NoClashWith(specs, spec, env)
  {
    var more := specs + [spec];
    if SpecsOk(more, env) {
      assert forall i :: 0 <= i < |specs| ==> specs[i] == more[i];
      assert more[|specs|] == spec;
    }
  }

  lemma SpecsOkPrefix(specs: seq<ConnectionSpec>, n: nat, env: Env)
    requires n <= |specs| && SpecsOk(specs, env)
    ensures SpecsOk(specs[..n], env)
  {}

  lemma AllBindsSnoc(specs: seq<ConnectionSpec>, spec: ConnectionSpec, info: string)
    ensures AllBinds(specs + [spec], info) == AllBinds(specs, info) + SpecBinds(spec)
  {
    assert (specs + [spec])[..|specs|] == specs;
  }

  /** The body of the loop over the connections; `specs` are the ones before `spec`. */
  method CheckConnection(ghost specs: seq<ConnectionSpec>, spec: ConnectionSpec, seen: Seen, binds: seq<Bind>, ghost info: string, env: Env)
    returns (seen': Seen, binds': seq<Bind>, err: Option<ConfigError>)
    requires SpecsOk(specs, env) && Records(seen, specs, env) && binds == AllBinds(specs, info)
    ensures err.None? <==> SpecsOk(specs + [spec], env)
    ensures err.None? ==> Records(seen', specs + [spec], env) && binds' == AllBinds(specs + [spec], info)
  {
    SpecsOkSnoc(specs, spec, env);
    UnseenIffNoClash(seen, specs, spec, env);
    AllBindsSnoc(specs, spec, info);
    seen', err := CheckIdentity(spec, seen, env);
    binds' := binds;
    if err.Some? {
      return;
    }
    RecordsSnoc(seen, seen', specs, spec, env);
    binds', err := CheckRoutines(spec, binds);
  }

  method ValidateConnections(specs: seq<ConnectionSpec>, info: string, env: Env) returns (err: Option<ConfigError>)
    ensures err.None? <==> ValidSpecs(specs, info, env)
  {
    var seen := Seen({}, map[], map[], map[]);
    var binds: seq<Bind> := [];
    if info != "" {
      binds, err := AddBind(binds, Tcp, info);
      if err.Some? {
        return;
      }
    }
    ghost var done: seq<ConnectionSpec> := [];
    for n := 0 to |specs|
      invariant done == specs[..n]
      invariant SpecsOk(done, env) && Records(seen, done, env) && binds == AllBinds(done, info)
    {
      seen, binds, err := CheckConnection(done, specs[n], seen, binds, info, env);
      SliceNext(specs, n);
      done := done + [specs[n]];
      if err.Some? {
        if SpecsOk(specs, env) {
          SpecsOkPrefix(specs, n + 1, env);
        }
        return;
      }
    }
    assert done == specs;
    err := CheckConflicts(binds);
  }
}
