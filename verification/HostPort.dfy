/** net.SplitHostPort and net.JoinHostPort. */
module HostPort {
  import opened Wrappers
  import opened Text

  datatype HostPort = HostPort(host: string, port: string)

  datatype AddrError = MissingPort | TooManyColons | MissingBracket | UnexpectedBracket

  function SplitHostPort(s: string): Result<HostPort, AddrError> {
    var i := LastIndexOf(s, ':');
    if i < 0 then Err(MissingPort)
    else if s[0] == '[' then
      var end := IndexOf(s, ']');
      if end < 0 then Err(MissingBracket)
      else if end + 1 == |s| then Err(MissingPort)
      else if end + 1 != i then Err(if s[end+1] == ':' then TooManyColons else MissingPort)
      else if IndexOf(s[1..], '[') >= 0 || IndexOf(s[end+1..], ']') >= 0 then Err(UnexpectedBracket)
      else Ok(HostPort(s[1..end], s[i+1..]))
    else if IndexOf(s[..i], ':') >= 0 then Err(TooManyColons)
    else if IndexOf(s, '[') >= 0 || IndexOf(s, ']') >= 0 then Err(UnexpectedBracket)
    else Ok(HostPort(s[..i], s[i+1..]))
  }

  function JoinHostPort(host: string, port: string): string {
    (if ':' in host then "[" + host + "]" else host) + [':'] + port
  }

  predicate Bracketless(s: string) {
    '[' !in s && ']' !in s
  }

  /** A successful split leaves no bracket anywhere and no colon in the port. */
  lemma SplitShape(s: string)
    requires SplitHostPort(s).Ok?
    ensures var hp := SplitHostPort(s).value; Bracketless(hp.host) && Bracketless(hp.port) && ':' !in hp.port
  {
    var i := LastIndexOf(s, ':');
    if s[0] == '[' {
      var t, u := s[1..], s[i..];
      assert forall j :: 1 <= j < |s| ==> s[j] == t[j-1];
      assert forall j :: i <= j < |s| ==> s[j] == u[j-i];
    }
  }

  /** The text reads host:port with no colon in the host, or [host]:port, and has no other brackets and no colon in
      the port. */
  predicate IsHostPort(s: string, host: string, port: string) {
    && Bracketless(host) && Bracketless(port) && ':' !in port
    && (s == "[" + host + "]" + [':'] + port || (':' !in host && s == host + [':'] + port))
  }

  lemma SplitRejoins(s: string)
    requires SplitHostPort(s).Ok?
    ensures IsHostPort(s, SplitHostPort(s).value.host, SplitHostPort(s).value.port)
  {
    SplitShape(s);
    var i := LastIndexOf(s, ':');
    if s[0] == '[' {
      assert s[..i] == ['['] + s[1..i-1] + [']'];
    }
    assert s == s[..i] + [':'] + s[i+1..];
  }

  /** A text is split into a host and a port exactly when it reads so. */
  lemma SplitIff(s: string, host: string, port: string)
    ensures SplitHostPort(s) == Ok(HostPort(host, port)) <==> IsHostPort(s, host, port)
  {
    if SplitHostPort(s) == Ok(HostPort(host, port)) {
      SplitRejoins(s);
    }
    if IsHostPort(s, host, port) {
      if s == "[" + host + "]" + [':'] + port {
        SplitBracketed(host, port);
      } else {
        SplitPlain(host, port);
      }
    }
  }

  /** Where the brackets and the last colon of "[host]:port" are. */
  lemma BracketIndexes(host: string, port: string)
    requires Bracketless(host) && ':' !in port
    ensures var s := "[" + host + "]" + [':'] + port;
            LastIndexOf(s, ':') == |host| + 2 && IndexOf(s, ']') == |host| + 1
  {
    var s := "[" + host + "]" + [':'] + port;
    LastIndexOfIs("[" + host + "]", ':', port);
    assert s == ("[" + host) + [']'] + ([':'] + port);
    IndexOfIs("[" + host, ']', [':'] + port);
  }

  lemma SplitBracketed(host: string, port: string)
    requires Bracketless(host) && Bracketless(port) && ':' !in port
    ensures SplitHostPort("[" + host + "]" + [':'] + port) == Ok(HostPort(host, port))
  {
    var s := "[" + host + "]" + [':'] + port;
    var i := |host| + 2;
    BracketIndexes(host, port);
    assert s[1..] == host + ("]" + [':'] + port) && s[i..] == [':'] + port;
    assert '[' !in s[1..] && ']' !in s[i..];
    assert s[1..i-1] == host && s[i+1..] == port;
  }

  lemma SplitPlain(host: string, port: string)
    requires Bracketless(host) && ':' !in host && Bracketless(port) && ':' !in port
    ensures SplitHostPort(host + ":" + port) == Ok(HostPort(host, port))
  {
    var s := host + ":" + port;
    LastIndexOfIs(host, ':', port);
    assert s[..|host|] == host && s[|host|+1..] == port;
    assert '[' !in s && ']' !in s;
  }

  /** Splitting undoes joining exactly when the host has no brackets and the port neither brackets nor colons. */
  lemma SplitJoin(host: string, port: string)
    ensures SplitHostPort(JoinHostPort(host, port)) == Ok(HostPort(host, port)) <==>
            Bracketless(host) && Bracketless(port) && ':' !in port
  {
    if SplitHostPort(JoinHostPort(host, port)).Ok? {
      SplitShape(JoinHostPort(host, port));
    }
    if Bracketless(host) && Bracketless(port) && ':' !in port {
      if ':' in host {
        SplitBracketed(host, port);
      } else {
        SplitPlain(host, port);
      }
    }
  }

  /** Joining what was split and splitting it again changes nothing. */
  lemma ResplitJoined(s: string)
    requires SplitHostPort(s).Ok?
    ensures SplitHostPort(JoinHostPort(SplitHostPort(s).value.host, SplitHostPort(s).value.port)) == SplitHostPort(s)
  {
    SplitShape(s);
    SplitJoin(SplitHostPort(s).value.host, SplitHostPort(s).value.port);
  }

  lemma SplitPort(before: string, port: string)
    requires ':' !in port && SplitHostPort(before + [':'] + port).Ok?
    ensures SplitHostPort(before + [':'] + port).value.port == port
  {
    var s := before + [':'] + port;
    LastIndexOfIs(before, ':', port);
    assert s[|before|+1..] == port;
  }

  /** Whatever the host, the port that comes out of a joined address is the one that went in. */
  lemma JoinedPort(host: string, port: string)
    requires ':' !in port && SplitHostPort(JoinHostPort(host, port)).Ok?
    ensures SplitHostPort(JoinHostPort(host, port)).value.port == port
  {
    var before := if ':' in host then "[" + host + "]" else host;
    SplitPort(before, port);
  }
}
