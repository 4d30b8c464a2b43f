/** What ValidateConnections accepts, told by the fields of the configuration. */
module ValidMeaning {
  import opened Wrappers
  import opened Text
  import opened HostPort
  import opened Names
  import opened Paths
  import opened Config
  import opened Connections
  import opened ConnectionTheorems

  // ----- Listeners -----

  /** The routine listens on the host at that address. A client tunnel without an address has the text "<nil>". */
  predicate Listens(r: Routine, kind: Kind, addr: string) {
    match r
    case TCPClientTunnel(bind, _) => kind == Tcp && addr == AddrString(bind)
    case Socks5(a, _, _) => kind == Tcp && addr == a
    case HTTP(a, _, _) => kind == Tcp && addr == a
    case SNI(a, _, _) => kind == Tcp && addr == a
    case UDPProxyTunnel(a, _) => kind == Udp && addr == a
    case STDIOTunnel(_) => false
    case TCPServerTunnel(_, _) => false
  }

  /** The text reads host:port. */
  ghost predicate Reads(s: string) {
    exists host, port :: IsHostPort(s, host, port)
  }

  /** The same text, or the same number however it is written. */
  predicate SameNumber(p: string, q: string) {
    p == q || (Atoi(p).Some? && Atoi(p) == Atoi(q))
  }

  predicate Overlap(g: string, h: string) {
    g == h || g in ["", "0.0.0.0", "::"] || h in ["", "0.0.0.0", "::"]
  }

  /** Both addresses have the same port, and their hosts are equal or one of them stands for all hosts. */
  ghost predicate Shares(a: string, b: string) {
    exists g, p, h, q :: IsHostPort(a, g, p) && IsHostPort(b, h, q) && SameNumber(p, q) && Overlap(g, h)
  }

  /** No listener of one routine is in the way of a listener of the other. */
  ghost predicate OutOfTheWay(r: Routine, q: Routine) {
    forall kind, a, b :: Listens(r, kind, a) && Listens(q, kind, b) ==> !Shares(a, b)
  }

  // ----- The condition -----

  predicate IsName(s: string) {
    && |s| > 0 && s[0] != '-' && s[0] != '_'
    && forall i :: 0 <= i < |s| ==> 'a' <= s[i] <= 'z' || '0' <= s[i] <= '9' || s[i] == '-' || s[i] == '_'
  }

  ghost predicate RoutineFits(r: Routine, onTailscale: bool) {
    && (forall kind, a :: Listens(r, kind, a) ==> Reads(a))
    && (r.TCPServerTunnel? ==> Reads(r.target))
    && (r.UDPProxyTunnel? ==> !onTailscale)
  }

  /** The connection can be started by itself, next to the health endpoint at `info`. */
  ghost predicate Stands(spec: ConnectionSpec, info: string) {
    var rs := spec.conf.routines;
    && IsName(spec.name)
    && (spec.conf.tailscale.None? || spec.conf.device.None?)
    && (forall k :: 0 <= k < |rs| ==> RoutineFits(rs[k], spec.conf.tailscale.Some?))
    && (forall k, l :: 0 <= k < l < |rs| && rs[k].TCPServerTunnel? && rs[l].TCPServerTunnel? ==> rs[k].listenPort != rs[l].listenPort)
    && (forall k, l :: 0 <= k < l < |rs| ==> OutOfTheWay(rs[k], rs[l]))
    && (info != "" ==> forall k, a :: 0 <= k < |rs| && Listens(rs[k], Tcp, a) ==> !Shares(info, a))
  }

  /** Where a Tailscale connection keeps its state. */
  function Directory(ts: Tailscale, name: string, env: Env): string {
    if ts.stateDir != "" then ts.stateDir else Join([env.cacheDir, "wireproxy", "tsnet", name])
  }

  predicate SameTailscale(s: Tailscale, t: Tailscale, m: string, n: string, env: Env) {
    env.lower(s.hostname) == env.lower(t.hostname) || (Directory(s, m, env) != "" && Directory(s, m, env) == Directory(t, n, env))
  }

  predicate SameDevicePort(d: Device, e: Device) {
    d.listenPort.Some? && d.listenPort == e.listenPort
  }

  ghost predicate Coexist(a: ConnectionSpec, b: ConnectionSpec, env: Env) {
    && a.name != b.name
    && (a.conf.tailscale.Some? && b.conf.tailscale.Some? ==>
          !SameTailscale(a.conf.tailscale.value, b.conf.tailscale.value, a.name, b.name, env))
    && (a.conf.device.Some? && b.conf.device.Some? ==> !SameDevicePort(a.conf.device.value, b.conf.device.value))
    && (forall k, l :: 0 <= k < |a.conf.routines| && 0 <= l < |b.conf.routines| ==> OutOfTheWay(a.conf.routines[k], b.conf.routines[l]))
  }

  // ----- Listeners and binds -----

  lemma ReadsIff(s: string)
    ensures Reads(s) <==> SplitHostPort(s).Ok?
  {
    if SplitHostPort(s).Ok? {
      SplitRejoins(s);
    }
    if Reads(s) {
      var host, port :| IsHostPort(s, host, port);
      SplitIff(s, host, port);
    }
  }

  lemma ListensIff(r: Routine, kind: Kind, a: string)
    ensures Listens(r, kind, a) <==> HostAddress(r) == Some((kind, a))
  {}

  lemma SharesSplit(a: string, b: string)
    ensures Shares(a, b) <==>
              && SplitHostPort(a).Ok? && SplitHostPort(b).Ok?
              && SameNumber(SplitHostPort(a).value.port, SplitHostPort(b).value.port)
              && Overlap(SplitHostPort(a).value.host, SplitHostPort(b).value.host)
  {
    if Shares(a, b) {
      var g, p, h, q :| IsHostPort(a, g, p) && IsHostPort(b, h, q) && SameNumber(p, q) && Overlap(g, h);
      SplitIff(a, g, p);
      SplitIff(b, h, q);
    } else if SplitHostPort(a).Ok? && SplitHostPort(b).Ok? {
      SplitRejoins(a);
      SplitRejoins(b);
    }
  }

  lemma OverlapIff(g: string, h: string)
    ensures Overlap(g, h) <==> g == h || IsWildcardHost(g) || IsWildcardHost(h)
  {}

  lemma NumberIff(p: string, q: string)
    ensures SameNumber(p, q) <==> NormalizePort(p) == NormalizePort(q)
  {
    SamePort(p, q);
  }

  lemma ConflictIff(kind: Kind, kind': Kind, s: HostPort, t: HostPort)
    ensures Conflict(Bind(kind, s.host, NormalizePort(s.port)), Bind(kind', t.host, NormalizePort(t.port))) <==>
              kind == kind' && SameNumber(s.port, t.port) && Overlap(s.host, t.host)
  {
    OverlapIff(s.host, t.host);
    NumberIff(s.port, t.port);
  }

  lemma SplitApart(kind: Kind, kind': Kind, a: string, b: string, s: HostPort, t: HostPort)
    requires SplitHostPort(a) == Ok(s) && SplitHostPort(b) == Ok(t)
    ensures !Apart(BindsAt(kind, a), BindsAt(kind', b)) <==> kind == kind' && SameNumber(s.port, t.port) && Overlap(s.host, t.host)
  {
    ConflictIff(kind, kind', s, t);
    ApartOne(Bind(kind, s.host, NormalizePort(s.port)), Bind(kind', t.host, NormalizePort(t.port)));
  }

  lemma SharesIff(kind: Kind, kind': Kind, a: string, b: string)
    ensures !Apart(BindsAt(kind, a), BindsAt(kind', b)) <==> kind == kind' && Shares(a, b)
  {
    SharesSplit(a, b);
    if SplitHostPort(a).Ok? && SplitHostPort(b).Ok? {
      SplitApart(kind, kind', a, b, SplitHostPort(a).value, SplitHostPort(b).value);
    } else {
      assert Apart(BindsAt(kind, a), BindsAt(kind', b));
    }
  }

  lemma ApartOne(x: Bind, y: Bind)
    ensures Apart([x], [y]) <==> !Conflict(x, y)
  {
    assert [x][0] == x && [y][0] == y;
  }

  lemma OutOfTheWayIff(r: Routine, q: Routine)
    ensures OutOfTheWay(r, q) <==> Apart(RoutineBinds(r), RoutineBinds(q))
  {
    forall kind, a ensures Listens(r, kind, a) <==> HostAddress(r) == Some((kind, a)) { ListensIff(r, kind, a); }
    forall kind, a ensures Listens(q, kind, a) <==> HostAddress(q) == Some((kind, a)) { ListensIff(q, kind, a); }
    if HostAddress(r).Some? && HostAddress(q).Some? {
      var x, y := HostAddress(r).value, HostAddress(q).value;
      SharesIff(x.0, y.0, x.1, y.1);
      assert Listens(r, x.0, x.1) && Listens(q, y.0, y.1);
    }
  }

  lemma InfoApart(info: string, r: Routine)
    requires info != ""
    ensures Apart(InfoBinds(info), RoutineBinds(r)) <==> forall a :: Listens(r, Tcp, a) ==> !Shares(info, a)
  {
    forall a ensures Listens(r, Tcp, a) <==> HostAddress(r) == Some((Tcp, a)) { ListensIff(r, Tcp, a); }
    if HostAddress(r).Some? {
      var x := HostAddress(r).value;
      SharesIff(Tcp, x.0, info, x.1);
    }
  }

  // ----- The binds of a connection -----

  function RoutineLists(rs: seq<Routine>): (r: seq<seq<Bind>>)
    ensures |r| == |rs| && forall i :: 0 <= i < |rs| ==> r[i] == RoutineBinds(rs[i])
  {
    seq(|rs|, i requires 0 <= i < |rs| => RoutineBinds(rs[i]))
  }

  lemma {:induction false} RoutinesBindsIsFlat(rs: seq<Routine>)
    ensures RoutinesBinds(rs) == Flat([], RoutineLists(rs))
  {
    if rs != [] {
      var n := |rs| - 1;
      RoutinesBindsIsFlat(rs[..n]);
      assert RoutineLists(rs)[..n] == RoutineLists(rs[..n]);
    }
  }

  lemma SingleIsFree(r: Routine)
    ensures ConflictFree(RoutineBinds(r))
  {}

  lemma ApartSymmetric(a: seq<Bind>, b: seq<Bind>)
    ensures Apart(a, b) <==> Apart(b, a)
  {}

  lemma ListsFree(lists: seq<seq<Bind>>)
    requires forall k :: 0 <= k < |lists| ==> ConflictFree(lists[k])
    ensures ConflictFree(Flat([], lists)) <==> forall k, l :: 0 <= k < l < |lists| ==> Apart(lists[k], lists[l])
  {
    FlatPairwise([], lists);
  }

  /** A list is apart from several exactly when it is apart from each. */
  lemma ApartFromAll(b: seq<Bind>, lists: seq<seq<Bind>>)
    ensures Apart(b, Flat([], lists)) <==> forall l :: 0 <= l < |lists| ==> Apart(b, lists[l])
  {
    ApartSymmetric(b, Flat([], lists));
    FlatApart([], lists, b);
    forall l | 0 <= l < |lists| ensures Apart(lists[l], b) <==> Apart(b, lists[l]) { ApartSymmetric(lists[l], b); }
  }

  lemma ListsApart(xs: seq<seq<Bind>>, ys: seq<seq<Bind>>)
    ensures Apart(Flat([], xs), Flat([], ys)) <==> forall k, l :: 0 <= k < |xs| && 0 <= l < |ys| ==> Apart(xs[k], ys[l])
  {
    FlatApart([], xs, Flat([], ys));
    forall k | 0 <= k < |xs| ensures Apart(xs[k], Flat([], ys)) <==> forall l :: 0 <= l < |ys| ==> Apart(xs[k], ys[l]) {
      ApartFromAll(xs[k], ys);
    }
  }

  lemma ListedApart(ps: seq<Routine>, rs: seq<Routine>, k: nat, l: nat)
    requires k < |ps| && l < |rs|
    ensures Apart(RoutineLists(ps)[k], RoutineLists(rs)[l]) <==> OutOfTheWay(ps[k], rs[l])
  {
    OutOfTheWayIff(ps[k], rs[l]);
  }

  lemma ListedFree(rs: seq<Routine>, k: nat)
    requires k < |rs|
    ensures ConflictFree(RoutineLists(rs)[k])
  {
    SingleIsFree(rs[k]);
  }

  lemma SpecFree(rs: seq<Routine>)
    ensures ConflictFree(RoutinesBinds(rs)) <==> forall k, l :: 0 <= k < l < |rs| ==> OutOfTheWay(rs[k], rs[l])
  {
    var lists := RoutineLists(rs);
    RoutinesBindsIsFlat(rs);
    forall k | 0 <= k < |rs| ensures ConflictFree(lists[k]) { ListedFree(rs, k); }
    ListsFree(lists);
    forall k, l | 0 <= k < l < |rs| ensures Apart(lists[k], lists[l]) <==> OutOfTheWay(rs[k], rs[l]) { ListedApart(rs, rs, k, l); }
  }

  /** The lists stand for the listeners of the routines. */
  ghost predicate StandFor(xs: seq<seq<Bind>>, ys: seq<seq<Bind>>, ps: seq<Routine>, rs: seq<Routine>) {
    && |xs| == |ps| && |ys| == |rs|
    && forall k, l :: 0 <= k < |ps| && 0 <= l < |rs| ==> (Apart(xs[k], ys[l]) <==> OutOfTheWay(ps[k], rs[l]))
  }

  lemma ListsStandFor(ps: seq<Routine>, rs: seq<Routine>)
    ensures StandFor(RoutineLists(ps), RoutineLists(rs), ps, rs)
  {
    forall k, l | 0 <= k < |ps| && 0 <= l < |rs|
      ensures Apart(RoutineLists(ps)[k], RoutineLists(rs)[l]) <==> OutOfTheWay(ps[k], rs[l])
    {
      ListedApart(ps, rs, k, l);
    }
  }

  lemma FlatStandFor(xs: seq<seq<Bind>>, ys: seq<seq<Bind>>, ps: seq<Routine>, rs: seq<Routine>)
    requires StandFor(xs, ys, ps, rs)
    ensures Apart(Flat([], xs), Flat([], ys)) <==> forall k, l :: 0 <= k < |ps| && 0 <= l < |rs| ==> OutOfTheWay(ps[k], rs[l])
  {
    ListsApart(xs, ys);
  }

  lemma SpecsApart(ps: seq<Routine>, rs: seq<Routine>)
    ensures Apart(RoutinesBinds(ps), RoutinesBinds(rs)) <==>
              forall k, l :: 0 <= k < |ps| && 0 <= l < |rs| ==> OutOfTheWay(ps[k], rs[l])
  {
    RoutinesBindsIsFlat(ps);
    RoutinesBindsIsFlat(rs);
    ListsStandFor(ps, rs);
    FlatStandFor(RoutineLists(ps), RoutineLists(rs), ps, rs);
  }

  // ----- The verdict -----

  lemma NameIff(s: string)
    ensures IsName(s) <==> MatchesPattern(s)
  {
    if IsName(s) {
      forall c | c in s ensures IsNameChar(c) {
        var i :| 0 <= i < |s| && s[i] == c;
      }
    }
    if MatchesPattern(s) {
      forall i | 0 <= i < |s| ensures IsNameChar(s[i]) {
        assert s[i] in s;
      }
    }
  }

  lemma FitsIff(r: Routine, onTailscale: bool)
    ensures RoutineFits(r, onTailscale) <==> RoutineOk(r, onTailscale)
  {
    forall kind, a ensures Listens(r, kind, a) <==> HostAddress(r) == Some((kind, a)) { ListensIff(r, kind, a); }
    if HostAddress(r).Some? {
      ReadsIff(HostAddress(r).value.1);
      assert Listens(r, HostAddress(r).value.0, HostAddress(r).value.1);
    }
    if r.TCPServerTunnel? {
      ReadsIff(r.target);
    }
  }

  lemma RoutinesIff(rs: seq<Routine>, onTailscale: bool)
    ensures RoutinesOk(rs, onTailscale) <==>
              && (forall k :: 0 <= k < |rs| ==> RoutineFits(rs[k], onTailscale))
              && (forall k, l :: 0 <= k < l < |rs| && rs[k].TCPServerTunnel? && rs[l].TCPServerTunnel? ==> rs[k].listenPort != rs[l].listenPort)
  {
    forall k | 0 <= k < |rs| ensures RoutineFits(rs[k], onTailscale) <==> RoutineOk(rs[k], onTailscale) { FitsIff(rs[k], onTailscale); }
    assert forall k, l :: 0 <= k < l < |rs| ==>
             (SameTunnelPort(rs[k], rs[l]) <==> rs[k].TCPServerTunnel? && rs[l].TCPServerTunnel? && rs[k].listenPort == rs[l].listenPort);
  }

  lemma InfoIff(info: string, rs: seq<Routine>)
    ensures Apart(InfoBinds(info), RoutinesBinds(rs)) <==>
              (info != "" ==> forall k, a :: 0 <= k < |rs| && Listens(rs[k], Tcp, a) ==> !Shares(info, a))
  {
    RoutinesBindsIsFlat(rs);
    ApartFromAll(InfoBinds(info), RoutineLists(rs));
    if info != "" {
      forall k | 0 <= k < |rs|
        ensures Apart(InfoBinds(info), RoutineLists(rs)[k]) <==> forall a :: Listens(rs[k], Tcp, a) ==> !Shares(info, a)
      {
        InfoApart(info, rs[k]);
      }
    }
  }

  lemma StandsIff(spec: ConnectionSpec, info: string)
    ensures Stands(spec, info) <==> Alone(spec, info)
  {
    NameIff(spec.name);
    RoutinesIff(spec.conf.routines, spec.conf.tailscale.Some?);
    SpecFree(spec.conf.routines);
    InfoIff(info, spec.conf.routines);
  }

  lemma ClashIff(a: ConnectionSpec, b: ConnectionSpec, env: Env)
    ensures !Clash(a, b, env) <==>
              && a.name != b.name
              && (a.conf.tailscale.Some? && b.conf.tailscale.Some? ==>
                    !SameTailscale(a.conf.tailscale.value, b.conf.tailscale.value, a.name, b.name, env))
              && (a.conf.device.Some? && b.conf.device.Some? ==> !SameDevicePort(a.conf.device.value, b.conf.device.value))
  {}

  lemma CoexistIff(a: ConnectionSpec, b: ConnectionSpec, env: Env)
    ensures Coexist(a, b, env) <==> Compatible(a, b, env)
  {
    ClashIff(a, b, env);
    SpecsApart(a.conf.routines, b.conf.routines);
  }

  /** Validation accepts exactly the lists in which the health address reads host:port, every connection stands by
      itself, and every two coexist. */
  lemma ValidMeans(specs: seq<ConnectionSpec>, info: string, env: Env)
    ensures ValidSpecs(specs, info, env) <==>
              && (info != "" ==> Reads(info))
              && (forall i :: 0 <= i < |specs| ==> Stands(specs[i], info))
              && (forall i, j :: 0 <= i < j < |specs| ==> Coexist(specs[i], specs[j], env))
  {
    ValidIffPairwise(specs, info, env);
    ReadsIff(info);
    forall i | 0 <= i < |specs| ensures Stands(specs[i], info) <==> Alone(specs[i], info) { StandsIff(specs[i], info); }
    forall i, j | 0 <= i < j < |specs| ensures Coexist(specs[i], specs[j], env) <==> Compatible(specs[i], specs[j], env) {
      CoexistIff(specs[i], specs[j], env);
    }
  }
}
