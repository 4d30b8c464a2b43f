/** The parsed configuration, as far as validation, sandboxing and routing look at it. */
module Config {
  import opened Wrappers
  import opened Text
  import opened HostPort
  import opened Names
  import opened Paths

  datatype TCPAddr = TCPAddr(host: string, port: int)

  /** A compiled TunnelDomains regex, by its source text. */
  type Pattern = string

  datatype Routine =
    | TCPClientTunnel(bind: Option<TCPAddr>, target: string)
    | STDIOTunnel(target: string)
    | TCPServerTunnel(listenPort: int, target: string)
    | Socks5(bindAddress: string, domains: seq<Pattern>, logDomains: bool)
    | HTTP(bindAddress: string, domains: seq<Pattern>, logDomains: bool)
    | SNI(bindAddress: string, domains: seq<Pattern>, logDomains: bool)
    | UDPProxyTunnel(bindAddress: string, target: string)

  datatype Device = Device(listenPort: Option<int>)
  datatype Tailscale = Tailscale(hostname: string, stateDir: string)

  datatype Configuration = Configuration(device: Option<Device>, tailscale: Option<Tailscale>, routines: seq<Routine>)
  datatype ConnectionSpec = ConnectionSpec(name: string, conf: Configuration)

  /** What validation reads from outside the configuration: the user cache directory, or the directory for temporary
      files in its place, and strings.ToLower. */
  datatype Env = Env(cacheDir: string, lower: string -> string)

  /** (*net.TCPAddr).String */
  function AddrString(a: Option<TCPAddr>): string {
    match a
    case None => "<nil>"
    case Some(a) => JoinHostPort(a.host, Itoa(a.port))
  }

  function EffectiveStateDir(ts: Tailscale, name: string, env: Env): string {
    if ts.stateDir != "" then ts.stateDir
    else Join([env.cacheDir, "wireproxy", "tsnet", name])
  }

  /** The directory that holds the derived state directories. */
  function StateRoot(env: Env): string {
    DirOf(env.cacheDir, "wireproxy", "tsnet")
  }

  lemma PatternIsName(name: string)
    requires MatchesPattern(name)
    ensures IsName(name)
  {
    assert IsAlnum(name[0]) && '/' !in name;
  }

  lemma DerivedStateDir(ts: Tailscale, name: string, env: Env)
    requires ts.stateDir == "" && IsName(name)
    ensures EffectiveStateDir(ts, name, env) == Prefix(StateRoot(env)) + name
  {
    JoinFour(env.cacheDir, "wireproxy", "tsnet", name);
    CleanName(StateRoot(env), name);
  }

  /** Different names that match the pattern have different derived state directories, although paths are cleaned. */
  lemma DerivedStateDirsDiffer(a: Tailscale, b: Tailscale, m: string, n: string, env: Env)
    requires a.stateDir == b.stateDir == "" && m != n && MatchesPattern(m) && MatchesPattern(n)
    ensures EffectiveStateDir(a, m, env) != EffectiveStateDir(b, n, env)
  {
    PatternIsName(m);
    PatternIsName(n);
    DerivedStateDir(a, m, env);
    DerivedStateDir(b, n, env);
    var root := Prefix(StateRoot(env));
    assert (root + m)[|root|..] == m && (root + n)[|root|..] == n;
  }

  /** Without the pattern they may coincide. */
  lemma DottedNamesCollide(ts: Tailscale, name: string, env: Env)
    requires ts.stateDir == "" && IsName(name)
    ensures EffectiveStateDir(ts, "." + ['/'] + name, env) == EffectiveStateDir(ts, name, env)
  {
    JoinFour(env.cacheDir, "wireproxy", "tsnet", "." + ['/'] + name);
    CleanDotName(StateRoot(env), name);
    DerivedStateDir(ts, name, env);
  }
}
