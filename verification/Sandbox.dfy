/** lockNetwork: the Landlock rules of the process, against the listeners and connects of its routines. */
module Sandbox {
  import opened Wrappers
  import opened Text
  import opened HostPort
  import opened Config
  import opened Routing
  import opened Connections

  datatype Rule = BindTCP(port: int) | ConnectTCP(port: int)

  datatype Outcome = Skipped | Failed | Restricted(rules: seq<Rule>)

  /** Some connection needs outbound TCP to arbitrary endpoints. */
  ghost predicate OpenEgress(specs: seq<ConnectionSpec>) {
    exists i :: 0 <= i < |specs| && SpecOpen(specs[i])
  }

  ghost predicate SpecOpen(spec: ConnectionSpec) {
    spec.conf.tailscale.Some? || exists k :: 0 <= k < |spec.conf.routines| && SplitRouted(spec.conf.routines[k])
  }

  method NeedsOpenEgress(specs: seq<ConnectionSpec>) returns (open: bool)
    ensures open <==> OpenEgress(specs)
  {
    for i := 0 to |specs|
      invariant forall j :: 0 <= j < i ==> !SpecOpen(specs[j])
    {
      if specs[i].conf.tailscale.Some? {
        return true;
      }
      var rs := specs[i].conf.routines;
      for k := 0 to |rs|
        invariant forall j :: 0 <= j < k ==> !SplitRouted(rs[j])
      {
        match rs[k]
        case Socks5(_, domains, _) =>
          if |domains| > 0 { return true; }
        case HTTP(_, domains, _) =>
          if |domains| > 0 { return true; }
        case SNI(_, domains, _) =>
          if |domains| > 0 { return true; }
        case _ =>
      }
    }
    return false;
  }

  /** extractPort */
  function ExtractPort(addr: string): Option<int> {
    match SplitHostPort(addr)
    case Err(_) => None
    case Ok(hp) =>
      match Atoi(hp.port)
      case None => None
      case Some(n) => if n < 0 || n > 65535 then None else Some(n)
  }

  function Uint16(n: int): int {
    n % 0x1_0000
  }

  // ----- What the rules have to cover -----

  /** The port an address string asks net.Listen for; `services` looks up names such as "http". */
  function ListenPortOf(addr: string, services: string -> Option<int>): Option<int> {
    match SplitHostPort(addr)
    case Err(_) => None
    case Ok(hp) =>
      if hp.port == "" then Some(0)
      else match ParseInt(hp.port)
           case Some(n) => if 0 <= n <= 65535 then Some(n) else None
           case None => services(hp.port)
  }

  /** The port of the TCP listener a routine opens on the host, if it opens one. */
  function ListenerPort(r: Routine, services: string -> Option<int>): Option<int> {
    match r
    case TCPClientTunnel(Some(a), target) =>
      if ParseAddressPort(target).Some? && 0 <= a.port <= 65535 then Some(a.port) else None
    case _ => if ProxyAddress(r).Some? then ListenPortOf(ProxyAddress(r).value, services) else None
  }

  /** The bind address of a SOCKS5, HTTP or SNI proxy. */
  function ProxyAddress(r: Routine): Option<string> {
    match r
    case Socks5(addr, _, _) => Some(addr)
    case HTTP(addr, _, _) => Some(addr)
    case SNI(addr, _, _) => Some(addr)
    case _ => None
  }

  // ----- The rules -----

  function BindRule(addr: string): Result<Option<Rule>, ()> {
    var p := ExtractPort(addr);
    if p.None? then Err(()) else Ok(Some(BindTCP(p.value)))
  }

  /** The rule one routine contributes; Err when lockNetwork gives up on it. */
  function RuleOf(r: Routine): Result<Option<Rule>, ()> {
    match r
    case TCPServerTunnel(_, target) =>
      var p := ExtractPort(target);
      if p.None? then Err(()) else Ok(Some(ConnectTCP(p.value)))
    case TCPClientTunnel(None, _) => Err(())
    case TCPClientTunnel(Some(a), _) => Ok(Some(BindTCP(Uint16(a.port))))
    case _ => if ProxyAddress(r).Some? then BindRule(ProxyAddress(r).value) else Ok(None)
  }

  predicate RulesKnown(specs: seq<ConnectionSpec>, info: string) {
    && (info != "" ==> ExtractPort(info).Some?)
    && (forall i :: 0 <= i < |specs| ==> SpecKnown(specs[i].conf.routines))
  }

  predicate SpecKnown(rs: seq<Routine>) {
    forall k :: 0 <= k < |rs| ==> RuleOf(rs[k]).Ok?
  }

  /** One of the first n routines contributes the rule. */
  predicate HasRule(rs: seq<Routine>, n: nat, rule: Rule)
    requires n <= |rs|
  {
    exists k :: 0 <= k < n && RuleOf(rs[k]) == Ok(Some(rule))
  }

  predicate SpecHasRule(spec: ConnectionSpec, rule: Rule) {
    HasRule(spec.conf.routines, |spec.conf.routines|, rule)
  }

  /** The health endpoint or a routine of the first n connections stands behind the rule. */
  predicate Justified(specs: seq<ConnectionSpec>, n: nat, info: string, rule: Rule)
    requires n <= |specs|
  {
    || (info != "" && ExtractPort(info).Some? && rule == BindTCP(ExtractPort(info).value))
    || exists i :: 0 <= i < n && SpecHasRule(specs[i], rule)
  }

  // ----- The same, told by the kinds of routines -----

  /** A Tailscale connection, or one with a proxy that dials hosts outside its TunnelDomains directly. */
  ghost predicate ReachesAnywhere(spec: ConnectionSpec) {
    || spec.conf.tailscale.Some?
    || exists k :: 0 <= k < |spec.conf.routines| &&
         var r := spec.conf.routines[k]; (r.Socks5? || r.HTTP? || r.SNI?) && |r.domains| > 0
  }

  /** A listener needs a bind rule for its port, a server tunnel a connect rule for the port of its target. */
  ghost predicate Needs(r: Routine, rule: Rule) {
    match rule
    case BindTCP(p) =>
      || (r.TCPClientTunnel? && r.bind.Some? && p == r.bind.value.port % 0x1_0000)
      || ((r.Socks5? || r.HTTP? || r.SNI?) && HasPort(r.bindAddress, p))
    case ConnectTCP(p) => r.TCPServerTunnel? && HasPort(r.target, p)
  }

  ghost predicate Portless(s: string) {
    forall p :: !HasPort(s, p)
  }

  /** It is not known what the routine needs. */
  ghost predicate Unusable(r: Routine) {
    match r
    case TCPClientTunnel(bind, _) => bind.None?
    case TCPServerTunnel(_, target) => Portless(target)
    case Socks5(addr, _, _) => Portless(addr)
    case HTTP(addr, _, _) => Portless(addr)
    case SNI(addr, _, _) => Portless(addr)
    case STDIOTunnel(_) => false
    case UDPProxyTunnel(_, _) => false
  }

  ghost predicate SomeUnusable(specs: seq<ConnectionSpec>, info: string) {
    || (info != "" && Portless(info))
    || exists i, k :: 0 <= i < |specs| && 0 <= k < |specs[i].conf.routines| && Unusable(specs[i].conf.routines[k])
  }

  ghost predicate SomeNeeds(specs: seq<ConnectionSpec>, info: string, rule: Rule) {
    || (info != "" && rule.BindTCP? && HasPort(info, rule.port))
    || exists i, k :: 0 <= i < |specs| && 0 <= k < |specs[i].conf.routines| && Needs(specs[i].conf.routines[k], rule)
  }

  lemma PortIff(s: string, n: int)
    ensures HasPort(s, n) <==> ExtractPort(s) == Some(n)
  {
    HasPortIff(s, n);
  }

  lemma PortlessIff(s: string)
    ensures Portless(s) <==> ExtractPort(s).None?
  {
    if ExtractPort(s).Some? {
      PortIff(s, ExtractPort(s).value);
    } else {
      forall n ensures !HasPort(s, n) {
        PortIff(s, n);
      }
    }
  }

  lemma NeedsRule(r: Routine, rule: Rule)
    ensures RuleOf(r) == Ok(Some(rule)) <==> Needs(r, rule)
  {
    if r.TCPServerTunnel? {
      PortIff(r.target, rule.port);
    } else if ProxyAddress(r).Some? {
      PortIff(r.bindAddress, rule.port);
    }
  }

  lemma UnusableRule(r: Routine)
    ensures RuleOf(r).Err? <==> Unusable(r)
  {
    if r.TCPServerTunnel? {
      PortlessIff(r.target);
    } else if ProxyAddress(r).Some? {
      PortlessIff(r.bindAddress);
    }
  }

  lemma OpenIff(specs: seq<ConnectionSpec>)
    ensures OpenEgress(specs) <==> exists i :: 0 <= i < |specs| && ReachesAnywhere(specs[i])
  {
    assert forall i :: 0 <= i < |specs| ==> (SpecOpen(specs[i]) <==> ReachesAnywhere(specs[i]));
  }

  lemma UnusableIff(specs: seq<ConnectionSpec>, info: string)
    ensures RulesKnown(specs, info) <==> !SomeUnusable(specs, info)
  {
    PortlessIff(info);
    forall i, k | 0 <= i < |specs| && 0 <= k < |specs[i].conf.routines|
      ensures RuleOf(specs[i].conf.routines[k]).Err? <==> Unusable(specs[i].conf.routines[k])
    {
      UnusableRule(specs[i].conf.routines[k]);
    }
  }

  lemma NeedsIff(specs: seq<ConnectionSpec>, info: string, rule: Rule)
    ensures Justified(specs, |specs|, info, rule) <==> SomeNeeds(specs, info, rule)
  {
    PortIff(info, rule.port);
    forall i, k | 0 <= i < |specs| && 0 <= k < |specs[i].conf.routines|
      ensures RuleOf(specs[i].conf.routines[k]) == Ok(Some(rule)) <==> Needs(specs[i].conf.routines[k], rule)
    {
      NeedsRule(specs[i].conf.routines[k], rule);
    }
    if Justified(specs, |specs|, info, rule) && !(info != "" && rule.BindTCP? && HasPort(info, rule.port)) {
      var i :| 0 <= i < |specs| && SpecHasRule(specs[i], rule);
      var k :| 0 <= k < |specs[i].conf.routines| && RuleOf(specs[i].conf.routines[k]) == Ok(Some(rule));
      assert Needs(specs[i].conf.routines[k], rule);
    }
    if i, k :| 0 <= i < |specs| && 0 <= k < |specs[i].conf.routines| && Needs(specs[i].conf.routines[k], rule) {
      assert SpecHasRule(specs[i], rule);
    }
  }

  /** The type switch of lockNetwork. */
  method RuleForSection(r: Routine) returns (rule: Option<Rule>, failed: bool)
    ensures failed <==> RuleOf(r).Err?
    ensures !failed ==> RuleOf(r) == Ok(rule)
  {
    rule, failed := None, false;
    var port: Option<int> := None;
    match r
    case TCPServerTunnel(_, target) =>
      match SplitHostPort(target) {
        case Err(_) =>
        case Ok(hp) =>
          ResplitJoined(target);
          port := ExtractPort(JoinHostPort(hp.host, hp.port));
      }
      if port.None? { return None, true; }
      rule := Some(ConnectTCP(port.value));
    case HTTP(addr, _, _) =>
      port := ExtractPort(addr);
      if port.None? { return None, true; }
      rule := Some(BindTCP(port.value));
    case TCPClientTunnel(bind, _) =>
      if bind.None? { return None, true; }
      rule := Some(BindTCP(Uint16(bind.value.port)));
    case Socks5(addr, _, _) =>
      port := ExtractPort(addr);
      if port.None? { return None, true; }
      rule := Some(BindTCP(port.value));
    case SNI(addr, _, _) =>
      port := ExtractPort(addr);
      if port.None? { return None, true; }
      rule := Some(BindTCP(port.value));
    case _ =>
  }

  method RulesForSpec(rs: seq<Routine>) returns (rules: seq<Rule>, failed: bool)
    ensures !failed <==> SpecKnown(rs)
    ensures !failed ==> forall rule :: rule in rules <==> HasRule(rs, |rs|, rule)
  {
    rules, failed := [], false;
    for k := 0 to |rs|
      invariant !failed && forall j :: 0 <= j < k ==> RuleOf(rs[j]).Ok?
      invariant forall rule :: rule in rules <==> HasRule(rs, k, rule)
    {
      var rule;
      rule, failed := RuleForSection(rs[k]);
      if failed {
        return;
      }
      HasRuleNext(rs, k);
      if rule.Some? {
        rules := rules + [rule.value];
      }
    }
  }

  lemma HasRuleNext(rs: seq<Routine>, k: nat)
    requires k < |rs|
    ensures forall rule :: HasRule(rs, k + 1, rule) <==> HasRule(rs, k, rule) || RuleOf(rs[k]) == Ok(Some(rule))
  {}

  /** The rules are exactly the justified ones. */
  ghost predicate Exactly(rules: seq<Rule>, specs: seq<ConnectionSpec>, n: nat, info: string)
    requires n <= |specs|
  {
    forall rule :: rule in rules <==> Justified(specs, n, info, rule)
  }

  lemma ExactlyNext(rules: seq<Rule>, more: seq<Rule>, specs: seq<ConnectionSpec>, n: nat, info: string)
    requires n < |specs| && Exactly(rules, specs, n, info)
    requires forall rule :: rule in more <==> SpecHasRule(specs[n], rule)
    ensures Exactly(rules + more, specs, n + 1, info)
  {
    forall rule ensures rule in rules + more <==> Justified(specs, n + 1, info, rule) {
      JustifiedNext(specs, n, info, rule);
    }
  }

  lemma JustifiedNext(specs: seq<ConnectionSpec>, n: nat, info: string, rule: Rule)
    requires n < |specs|
    ensures Justified(specs, n + 1, info, rule) <==> Justified(specs, n, info, rule) || SpecHasRule(specs[n], rule)
  {}

  /** The rule for the health endpoint. */
  method RulesForInfo(info: string, ghost specs: seq<ConnectionSpec>) returns (rules: seq<Rule>, failed: bool)
    ensures failed <==> info != "" && ExtractPort(info).None?
    ensures !failed ==> Exactly(rules, specs, 0, info)
  {
    rules, failed := [], false;
    if info != "" {
      var port := ExtractPort(info);
      if port.None? {
        return [], true;
      }
      rules := [BindTCP(port.value)];
    }
  }

  method LockNetwork(specs: seq<ConnectionSpec>, info: string) returns (out: Outcome)
    ensures out.Skipped? <==> OpenEgress(specs)
    ensures out.Restricted? <==> !OpenEgress(specs) && RulesKnown(specs, info)
    ensures out.Restricted? ==> Locked(specs, info, out.rules)
    ensures out.Skipped? <==> exists i :: 0 <= i < |specs| && ReachesAnywhere(specs[i])
    ensures out.Failed? <==> !out.Skipped? && SomeUnusable(specs, info)
    ensures out.Restricted? ==> forall rule :: rule in out.rules <==> SomeNeeds(specs, info, rule)
  {
    OpenIff(specs);
    UnusableIff(specs, info);
    var open := NeedsOpenEgress(specs);
    if open {
      return Skipped;
    }
    var rules, failed := RulesForInfo(info, specs);
    if failed {
      return Failed;
    }
    for i := 0 to |specs|
      invariant forall j :: 0 <= j < i ==> SpecKnown(specs[j].conf.routines)
      invariant Exactly(rules, specs, i, info)
    {
      var more;
      more, failed := RulesForSpec(specs[i].conf.routines);
      if failed {
        return Failed;
      }
      ExactlyNext(rules, more, specs, i, info);
      rules := rules + more;
    }
    forall rule ensures rule in rules <==> SomeNeeds(specs, info, rule) {
      NeedsIff(specs, info, rule);
    }
    return Restricted(rules);
  }

  // ----- The rules cover what happens -----

  /** What lockNetwork has established once it restricts the process. */
  ghost predicate Locked(specs: seq<ConnectionSpec>, info: string, rules: seq<Rule>) {
    && !OpenEgress(specs) && RulesKnown(specs, info)
    && Exactly(rules, specs, |specs|, info)
  }

  lemma RuleIsThere(specs: seq<ConnectionSpec>, info: string, rules: seq<Rule>, i: nat, k: nat)
    requires Locked(specs, info, rules) && i < |specs| && k < |specs[i].conf.routines|
    ensures var r := RuleOf(specs[i].conf.routines[k]); r.Ok? && (r.value.Some? ==> r.value.value in rules)
  {
    var rs := specs[i].conf.routines;
    assert SpecKnown(rs);
    if RuleOf(rs[k]).value.Some? {
      assert HasRule(rs, |rs|, RuleOf(rs[k]).value.value);
      assert SpecHasRule(specs[i], RuleOf(rs[k]).value.value);
    }
  }

  lemma PortIsExtracted(addr: string, services: string -> Option<int>)
    requires ExtractPort(addr).Some? && ListenPortOf(addr, services).Some?
    ensures ListenPortOf(addr, services) == ExtractPort(addr)
  {}

  lemma BindRuleIsPort(addr: string, services: string -> Option<int>)
    requires BindRule(addr).Ok? && ListenPortOf(addr, services).Some?
    ensures BindRule(addr) == Ok(Some(BindTCP(ListenPortOf(addr, services).value)))
  {
    PortIsExtracted(addr, services);
  }

  lemma ClientHasRule(a: TCPAddr, target: string, services: string -> Option<int>)
    requires ListenerPort(TCPClientTunnel(Some(a), target), services).Some?
    ensures RuleOf(TCPClientTunnel(Some(a), target)) == Ok(Some(BindTCP(ListenerPort(TCPClientTunnel(Some(a), target), services).value)))
  {
    SmallPort(a.port);
  }

  lemma SmallPort(n: int)
    requires 0 <= n <= 65535
    ensures Uint16(n) == n
  {}

  lemma ProxyHasRule(r: Routine, services: string -> Option<int>)
    requires RuleOf(r).Ok? && ListenerPort(r, services).Some? && ProxyAddress(r).Some?
    ensures RuleOf(r) == Ok(Some(BindTCP(ListenerPort(r, services).value)))
  {
    BindRuleIsPort(ProxyAddress(r).value, services);
  }

  lemma ListenerHasRule(r: Routine, services: string -> Option<int>)
    requires RuleOf(r).Ok? && ListenerPort(r, services).Some?
    ensures RuleOf(r) == Ok(Some(BindTCP(ListenerPort(r, services).value)))
  {
    if ProxyAddress(r).Some? {
      ProxyHasRule(r, services);
    } else {
      ClientHasRule(r.bind.value, r.target, services);
    }
  }

  /** Every TCP listener the health endpoint or a routine opens has a bind rule for its port. */
  lemma ListenersAreAllowed(specs: seq<ConnectionSpec>, info: string, rules: seq<Rule>, services: string -> Option<int>)
    requires Locked(specs, info, rules)
    ensures info != "" && ListenPortOf(info, services).Some? ==> BindTCP(ListenPortOf(info, services).value) in rules
    ensures forall i, k :: 0 <= i < |specs| && 0 <= k < |specs[i].conf.routines| ==>
              var p := ListenerPort(specs[i].conf.routines[k], services);
              p.Some? ==> BindTCP(p.value) in rules
  {
    if info != "" && ListenPortOf(info, services).Some? {
      PortIsExtracted(info, services);
    }
    forall i, k | 0 <= i < |specs| && 0 <= k < |specs[i].conf.routines|
      ensures var p := ListenerPort(specs[i].conf.routines[k], services);
              p.Some? ==> BindTCP(p.value) in rules
    {
      RuleIsThere(specs, info, rules, i, k);
      if ListenerPort(specs[i].conf.routines[k], services).Some? {
        ListenerHasRule(specs[i].conf.routines[k], services);
      }
    }
  }

  /** For every request, and whatever the patterns match, a routine connects through the tunnel, or it is
      a server tunnel dialling a port that has a connect rule. */
  lemma ConnectsAreAllowed(specs: seq<ConnectionSpec>, info: string, rules: seq<Rule>, i: nat, k: nat, req: Request, m: Matcher)
    requires Locked(specs, info, rules) && i < |specs| && k < |specs[i].conf.routines|
    ensures var r := specs[i].conf.routines[k];
            var c := Dial(r, req, m);
            c.Some? && c.value.via == Host ==> r.TCPServerTunnel? && c.value.port.Some? && ConnectTCP(c.value.port.value) in rules
  {
    var r := specs[i].conf.routines[k];
    RuleIsThere(specs, info, rules, i, k);
    assert !SpecOpen(specs[i]);
    assert !SplitRouted(r);
  }

  // ----- Validation and sandbox see the same listeners -----

  /** Port numbers are Go ints. */
  predicate IntPorts(r: Routine) {
    r.TCPClientTunnel? && r.bind.Some? ==> IsInt64(r.bind.value.port)
  }

  lemma NormalizedPort(port: string, n: int)
    requires Atoi(port) == Some(n)
    ensures Atoi(NormalizePort(port)) == Some(n)
  {
    ParseItoa(n);
  }

  lemma AddressBind(addr: string, b: Bind)
    requires b in BindsAt(Tcp, addr) && ExtractPort(addr).Some?
    ensures Atoi(b.port) == ExtractPort(addr) && Uint16(ExtractPort(addr).value) == ExtractPort(addr).value
  {
    NormalizedPort(SplitHostPort(addr).value.port, ExtractPort(addr).value);
    SmallPort(ExtractPort(addr).value);
  }

  lemma ClientBind(a: TCPAddr, b: Bind)
    requires b in BindsAt(Tcp, AddrString(Some(a))) && IsInt64(a.port)
    ensures Atoi(b.port) == Some(a.port)
  {
    ItoaLacks(a.port, ':');
    JoinedPort(a.host, Itoa(a.port));
    ParseItoa(a.port);
  }

  lemma BindHasRule(r: Routine, b: Bind)
    requires RuleOf(r).Ok? && IntPorts(r) && b in RoutineBinds(r) && b.kind == Tcp
    ensures Atoi(b.port).Some? && RuleOf(r) == Ok(Some(BindTCP(Uint16(Atoi(b.port).value))))
  {
    match r
    case TCPClientTunnel(bind, _) => ClientBind(bind.value, b);
    case Socks5(addr, _, _) => AddressBind(addr, b);
    case HTTP(addr, _, _) => AddressBind(addr, b);
    case SNI(addr, _, _) => AddressBind(addr, b);
    case _ =>
  }

  lemma {:induction false} RoutineBindOrigin(rs: seq<Routine>, b: Bind) returns (k: nat)
    requires b in RoutinesBinds(rs)
    ensures k < |rs| && b in RoutineBinds(rs[k])
  {
    var n := |rs| - 1;
    if b in RoutineBinds(rs[n]) {
      k := n;
    } else {
      k := RoutineBindOrigin(rs[..n], b);
    }
  }

  lemma {:induction false} BindOrigin(specs: seq<ConnectionSpec>, info: string, b: Bind) returns (i: nat, k: nat)
    requires b in AllBinds(specs, info) && b !in InfoBinds(info)
    ensures i < |specs| && k < |specs[i].conf.routines| && b in RoutineBinds(specs[i].conf.routines[k])
  {
    var n := |specs| - 1;
    if b in SpecBinds(specs[n]) {
      i := n;
      k := RoutineBindOrigin(specs[n].conf.routines, b);
    } else {
      i, k := BindOrigin(specs[..n], info, b);
    }
  }

  /** Every TCP listener that ValidateConnections compares for conflicts is one the sandbox lets the process bind. */
  lemma ValidatedListenersAreAllowed(specs: seq<ConnectionSpec>, info: string, rules: seq<Rule>, b: Bind)
    requires Locked(specs, info, rules) && b in AllBinds(specs, info) && b.kind == Tcp
    requires forall i, k :: 0 <= i < |specs| && 0 <= k < |specs[i].conf.routines| ==> IntPorts(specs[i].conf.routines[k])
    ensures Atoi(b.port).Some? && BindTCP(Uint16(Atoi(b.port).value)) in rules
  {
    if b in InfoBinds(info) {
      AddressBind(info, b);
    } else {
      var i, k := BindOrigin(specs, info, b);
      RuleIsThere(specs, info, rules, i, k);
      BindHasRule(specs[i].conf.routines[k], b);
    }
  }
}
