/**
 Who closes what: every connection that the HTTP, SNI and TCP tunnel handlers
 accept or dial. Handlers and the forwarders they start take turns; each step
 is one blocking call, one close or one `go` statement, and whether reads,
 dials and writes succeed is chosen by the environment.
 */
module Forwarding {
  import opened Wrappers

  datatype Kind = HttpProxy | SniProxy | TcpTunnel

  /** A copying goroutine. When its copy has ended it closes both its ends, `first` first; `closed` counts the closes. */
  datatype Forwarder = Forwarder(from: nat, to: nat, first: nat, closed: nat)

  /** Where a handler stands. */
  datatype Pc =
    | Preparing     // reading and checking the request, peeking the hello, or resolving the target
    | Dialling
    | Writing       // the reply to CONNECT, or the request to the peer
    | Dropping      // the write failed
    | Refusing      // about to close the client, perhaps after an error response
    | Starting      // before the first `go`
    | HalfStarted   // between the two `go`s
    | Returned

  /** A handler, the connection it serves, the one it has dialled, and the forwarders it has started. */
  datatype Handler = Handler(kind: Kind, conn: nat, pc: Pc, peer: Option<nat>, one: Option<Forwarder>, two: Option<Forwarder>)

  /** A connection: the handler that accepted or dialled it and how often it has been closed. */
  datatype Conn = Conn(handler: nat, closes: nat)

  datatype World = World(conns: seq<Conn>, handlers: seq<Handler>)

  datatype Action =
    | Prepare(ok: bool)
    | Dial(ok: bool)
    | Write(ok: bool)
    | Drop
    | Refuse
    | GoFirst
    | GoSecond
    | CloseOne      // the first forwarder closes its next connection
    | CloseTwo

  datatype Event = Accept(kind: Kind) | By(h: nat, action: Action)

  // ----- One handler -----

  /** The forwarder each kind of handler starts first, and which of its ends that closes first. */
  function First(kind: Kind, conn: nat, peer: nat): Forwarder {
    match kind
    case HttpProxy => Forwarder(peer, conn, peer, 0)
    case SniProxy => Forwarder(conn, peer, peer, 0)
    case TcpTunnel => Forwarder(peer, conn, conn, 0)
  }

  function Second(kind: Kind, conn: nat, peer: nat): Forwarder {
    match kind
    case HttpProxy => Forwarder(conn, peer, peer, 0)
    case SniProxy => Forwarder(peer, conn, conn, 0)
    case TcpTunnel => Forwarder(conn, peer, peer, 0)
  }

  predicate CanClose(f: Option<Forwarder>) {
    f.Some? && f.value.closed < 2
  }

  function NextClose(f: Forwarder): nat {
    if f.closed == 0 then f.first else if f.first == f.from then f.to else f.from
  }

  predicate CanDo(h: Handler, a: Action) {
    match a
    case Prepare(_) => h.pc == Preparing
    case Dial(_) => h.pc == Dialling
    case Write(_) => h.pc == Writing && h.peer.Some?
    case Drop => h.pc == Dropping && h.peer.Some?
    case Refuse => h.pc == Refusing
    case GoFirst => h.pc == Starting && h.peer.Some?
    case GoSecond => h.pc == HalfStarted && h.peer.Some?
    case CloseOne => CanClose(h.one)
    case CloseTwo => CanClose(h.two)
  }

  /** What the action does to the handler; `next` is the connection a successful dial gives. */
  function Do(h: Handler, a: Action, next: nat): Handler
    requires CanDo(h, a)
  {
    match a
    case Prepare(ok) => h.(pc := if ok then Dialling else Refusing)
    case Dial(ok) =>
      if ok then h.(peer := Some(next), pc := if h.kind.HttpProxy? then Writing else Starting) else h.(pc := Refusing)
    case Write(ok) => h.(pc := if ok then Starting else Dropping)
    case Drop => h.(pc := Refusing)
    case Refuse => h.(pc := Returned)
    case GoFirst => h.(pc := HalfStarted, one := Some(First(h.kind, h.conn, h.peer.value)))
    case GoSecond => h.(pc := Returned, two := Some(Second(h.kind, h.conn, h.peer.value)))
    case CloseOne => h.(one := Some(h.one.value.(closed := h.one.value.closed + 1)))
    case CloseTwo => h.(two := Some(h.two.value.(closed := h.two.value.closed + 1)))
  }

  /** The connection the action closes. */
  function Closes(h: Handler, a: Action): Option<nat>
    requires CanDo(h, a)
  {
    match a
    case Drop => h.peer
    case Refuse => Some(h.conn)
    case CloseOne => Some(NextClose(h.one.value))
    case CloseTwo => Some(NextClose(h.two.value))
    case _ => None
  }

  // ----- All of them -----

  predicate Enabled(w: World, e: Event) {
    e.By? ==> e.h < |w.handlers| && CanDo(w.handlers[e.h], e.action)
  }

  function Close(conns: seq<Conn>, c: Option<nat>): (r: seq<Conn>)
    ensures |r| == |conns|
  {
    if c.Some? && c.value < |conns| then conns[c.value := conns[c.value].(closes := conns[c.value].closes + 1)] else conns
  }

  function Step(w: World, e: Event): World
    requires Enabled(w, e)
  {
    match e
    case Accept(kind) =>
      World(w.conns + [Conn(|w.handlers|, 0)], w.handlers + [Handler(kind, |w.conns|, Preparing, None, None, None)])
    case By(i, a) =>
      var h := w.handlers[i];
      World(Close(w.conns, Closes(h, a)) + (if a == Dial(true) then [Conn(i, 0)] else []),
            w.handlers[i := Do(h, a, |w.conns|)])
  }

  datatype Trace = Trace(states: seq<World>, events: seq<Event>)

  ghost predicate Taken(tr: Trace, k: nat)
    requires k < |tr.events| && |tr.states| == |tr.events| + 1
  {
    Enabled(tr.states[k], tr.events[k]) && tr.states[k+1] == Step(tr.states[k], tr.events[k])
  }

  ghost predicate IsTrace(tr: Trace) {
    && |tr.states| == |tr.events| + 1
    && tr.states[0] == World([], [])
    && (forall k :: 0 <= k < |tr.events| ==> Taken(tr, k))
  }

  // ----- The invariant -----

  /** How often the forwarder has closed `c`. */
  function ClosedBy(f: Option<Forwarder>, c: nat): nat {
    if f.Some? && (f.value.closed >= 2 || (f.value.closed == 1 && f.value.first == c)) then 1 else 0
  }

  /** How often connection `c` of the handler must have been closed. */
  function Due(h: Handler, c: nat): nat {
    if h.one.Some? then ClosedBy(h.one, c) + ClosedBy(h.two, c)
    else if c == h.conn then (if h.pc == Returned then 1 else 0)
    else if h.pc in {Refusing, Returned} then 1 else 0
  }

  predicate Progressed(f: Option<Forwarder>, g: Forwarder) {
    f.Some? ==> f.value.closed <= 2 && f.value == g.(closed := f.value.closed)
  }

  predicate Sound(h: Handler) {
    && (h.peer.Some? ==> h.peer.value != h.conn)
    && (h.pc in {Preparing, Dialling} ==> h.peer.None?)
    && (h.pc in {Writing, Dropping, Starting, HalfStarted} ==> h.peer.Some?)
    && (h.two.Some? ==> h.one.Some? && h.pc == Returned)
    && (h.pc == HalfStarted <==> h.one.Some? && h.two.None?)
    && (h.one.Some? ==> h.peer.Some? && h.pc in {HalfStarted, Returned})
    && (h.peer.Some? ==> Progressed(h.one, First(h.kind, h.conn, h.peer.value)) && Progressed(h.two, Second(h.kind, h.conn, h.peer.value)))
  }

  predicate Has(h: Handler, c: nat) {
    h.conn == c || h.peer == Some(c)
  }

  /** The handler's connections exist and are its own. */
  predicate HandlerOk(w: World, i: nat)
    requires i < |w.handlers|
  {
    var h := w.handlers[i];
    && Sound(h)
    && h.conn < |w.conns| && w.conns[h.conn].handler == i
    && (h.peer.Some? ==> h.peer.value < |w.conns| && w.conns[h.peer.value].handler == i)
  }

  predicate ConnOk(w: World, c: nat)
    requires c < |w.conns|
  {
    var i := w.conns[c].handler;
    i < |w.handlers| && Has(w.handlers[i], c) && w.conns[c].closes == Due(w.handlers[i], c)
  }

  ghost predicate Inv(w: World) {
    && (forall i :: 0 <= i < |w.handlers| ==> HandlerOk(w, i))
    && (forall c :: 0 <= c < |w.conns| ==> ConnOk(w, c))
  }

  lemma DoSound(h: Handler, a: Action, next: nat)
    requires Sound(h) && CanDo(h, a) && h.conn != next
    ensures Sound(Do(h, a, next))
    ensures Closes(h, a).Some? ==> Has(h, Closes(h, a).value)
  {}

  lemma DoDue(h: Handler, a: Action, next: nat, c: nat)
    requires Sound(h) && CanDo(h, a) && Has(h, c) && c != next
    ensures Has(Do(h, a, next), c)
    ensures Due(Do(h, a, next), c) == Due(h, c) + if Closes(h, a) == Some(c) then 1 else 0
  {}

  lemma InvAccept(w: World, kind: Kind)
    requires Inv(w)
    ensures Inv(Step(w, Accept(kind)))
  {
    var w' := Step(w, Accept(kind));
    forall i | 0 <= i < |w'.handlers| ensures HandlerOk(w', i) {
      assert i < |w.handlers| ==> HandlerOk(w, i);
    }
    forall c | 0 <= c < |w'.conns| ensures ConnOk(w', c) {
      assert c < |w.conns| ==> ConnOk(w, c);
    }
  }

  lemma StepHandlerOk(w: World, i: nat, a: Action, j: nat)
    requires Inv(w) && Enabled(w, By(i, a)) && j < |w.handlers|
    ensures HandlerOk(Step(w, By(i, a)), j)
  {
    assert HandlerOk(w, i) && HandlerOk(w, j);
    DoSound(w.handlers[i], a, |w.conns|);
  }

  lemma StepConnOk(w: World, i: nat, a: Action, c: nat)
    requires Inv(w) && Enabled(w, By(i, a)) && c < |Step(w, By(i, a)).conns|
    ensures ConnOk(Step(w, By(i, a)), c)
  {
    var h := w.handlers[i];
    assert HandlerOk(w, i);
    DoSound(h, a, |w.conns|);
    if c < |w.conns| {
      assert ConnOk(w, c);
      if w.conns[c].handler == i {
        DoDue(h, a, |w.conns|, c);
      }
    }
  }

  lemma InvNext(w: World, e: Event)
    requires Inv(w) && Enabled(w, e)
    ensures Inv(Step(w, e))
  {
    match e
    case Accept(kind) => InvAccept(w, kind);
    case By(i, a) =>
      forall j | 0 <= j < |w.handlers| ensures HandlerOk(Step(w, e), j) { StepHandlerOk(w, i, a, j); }
      forall c | 0 <= c < |Step(w, e).conns| ensures ConnOk(Step(w, e), c) { StepConnOk(w, i, a, c); }
  }

  lemma {:induction false} InvTrace(tr: Trace, n: nat)
    requires IsTrace(tr) && n < |tr.states|
    ensures Inv(tr.states[n])
  {
    if n > 0 {
      InvTrace(tr, n - 1);
      assert Taken(tr, n - 1);
      InvNext(tr.states[n-1], tr.events[n-1]);
    }
  }

  // ----- What holds in every run -----

  /** A handler that has not returned has the connection to itself. */
  predicate Holds(h: Handler, c: nat) {
    h.one.None? && ((h.conn == c && h.pc != Returned) || (h.peer == Some(c) && h.pc in {Writing, Dropping, Starting}))
  }

  predicate Between(f: Option<Forwarder>, c: nat) {
    f.Some? && (f.value.from == c || f.value.to == c)
  }

  /** The connection has been given to forwarders, of which the second may not have been started. */
  predicate Forwards(h: Handler, c: nat) {
    Between(h.one, c) || Between(h.two, c)
  }

  ghost predicate Held(w: World, c: nat) {
    exists i :: 0 <= i < |w.handlers| && Holds(w.handlers[i], c)
  }

  ghost predicate Forwarded(w: World, c: nat) {
    exists i :: 0 <= i < |w.handlers| && Forwards(w.handlers[i], c)
  }

  /** Closed by a handler that kept it from forwarding. */
  ghost predicate GivenUp(w: World, c: nat) {
    c < |w.conns| && w.conns[c].closes == 1 && !Held(w, c) && !Forwarded(w, c)
  }

  /** Two directions between the same two connections. */
  predicate Opposite(f: Forwarder, g: Forwarder) {
    f.from == g.to && f.to == g.from && f.from != f.to
  }

  /** Only the connection's own handler holds or forwards it. */
  lemma OwnerOnly(w: World, c: nat, i: nat)
    requires Inv(w) && c < |w.conns| && i < |w.handlers| && (Holds(w.handlers[i], c) || Forwards(w.handlers[i], c))
    ensures w.conns[c].handler == i
  {
    assert HandlerOk(w, i);
  }

  lemma HeldIff(w: World, c: nat)
    requires Inv(w) && c < |w.conns|
    ensures ConnOk(w, c)
    ensures Held(w, c) <==> Holds(w.handlers[w.conns[c].handler], c)
    ensures Forwarded(w, c) <==> Forwards(w.handlers[w.conns[c].handler], c)
  {
    assert ConnOk(w, c);
    forall i | 0 <= i < |w.handlers| && (Holds(w.handlers[i], c) || Forwards(w.handlers[i], c)) ensures i == w.conns[c].handler {
      OwnerOnly(w, c, i);
    }
  }

  /** Every connection ever accepted or dialled is in exactly one of three places. */
  lemma ConnsAccounted(tr: Trace, n: nat, c: nat)
    requires IsTrace(tr) && n < |tr.states| && c < |tr.states[n].conns|
    ensures var w := tr.states[n];
            && (Held(w, c) || Forwarded(w, c) || GivenUp(w, c))
            && !(Held(w, c) && Forwarded(w, c))
            && (Held(w, c) ==> w.conns[c].closes == 0)
  {
    InvTrace(tr, n);
    var w := tr.states[n];
    HeldIff(w, c);
    assert HandlerOk(w, w.conns[c].handler);
  }

  /** The handler that holds or forwards a connection is the only one, and its two forwarders are opposite directions
      between the same two connections. */
  lemma OneOppositePair(tr: Trace, n: nat, c: nat, i: nat, j: nat)
    requires IsTrace(tr) && n < |tr.states| && c < |tr.states[n].conns| && i < |tr.states[n].handlers| && j < |tr.states[n].handlers|
    requires var hs := tr.states[n].handlers; Forwards(hs[i], c) && (Holds(hs[j], c) || Forwards(hs[j], c))
    ensures i == j
    ensures var h := tr.states[n].handlers[i];
            h.one.Some? && (h.two.Some? ==> Opposite(h.one.value, h.two.value)) && (h.two.None? ==> h.pc == HalfStarted)
  {
    InvTrace(tr, n);
    OwnerOnly(tr.states[n], c, i);
    OwnerOnly(tr.states[n], c, j);
    assert HandlerOk(tr.states[n], i);
  }

  /** No direction that has been started has closed the connection. */
  ghost predicate StillForwarded(w: World, c: nat) {
    exists i :: 0 <= i < |w.handlers| && Forwards(w.handlers[i], c) && ClosedBy(w.handlers[i].one, c) == 0 && ClosedBy(w.handlers[i].two, c) == 0
  }

  /** A connection is open exactly while a handler that has not returned holds it, or it belongs to a pair no started
      direction of which has closed it. */
  lemma OpenIffOwned(tr: Trace, n: nat, c: nat)
    requires IsTrace(tr) && n < |tr.states| && c < |tr.states[n].conns|
    ensures tr.states[n].conns[c].closes == 0 <==> Held(tr.states[n], c) || StillForwarded(tr.states[n], c)
  {
    InvTrace(tr, n);
    var w := tr.states[n];
    HeldIff(w, c);
    var i := w.conns[c].handler;
    assert HandlerOk(w, i);
    forall j | 0 <= j < |w.handlers| && Forwards(w.handlers[j], c) ensures j == i { OwnerOnly(w, c, j); }
  }

  predicate Ended(f: Option<Forwarder>) {
    f.Some? && f.value.closed == 2
  }

  /** When either direction has ended, both connections are closed, even if the other was never started. */
  lemma EitherEndClosesBoth(tr: Trace, n: nat, i: nat)
    requires IsTrace(tr) && n < |tr.states| && i < |tr.states[n].handlers|
    requires Ended(tr.states[n].handlers[i].one) || Ended(tr.states[n].handlers[i].two)
    ensures var w := tr.states[n]; var h := w.handlers[i];
            && h.conn < |w.conns| && w.conns[h.conn].closes >= 1
            && h.peer.Some? && h.peer.value < |w.conns| && w.conns[h.peer.value].closes >= 1
  {
    InvTrace(tr, n);
    var w := tr.states[n];
    assert HandlerOk(w, i);
    assert ConnOk(w, w.handlers[i].conn) && ConnOk(w, w.handlers[i].peer.value);
  }

  /** The handler has returned and the forwarders it has started have ended. */
  predicate AtRest(h: Handler) {
    h.pc == Returned && (h.one.Some? ==> Ended(h.one)) && (h.two.Some? ==> Ended(h.two))
  }

  /** Nothing leaks: once all handlers and forwarders are done, every connection is closed; and none is ever closed
      more often than by its two forwarders. */
  lemma AllClosedAtRest(tr: Trace, n: nat, c: nat)
    requires IsTrace(tr) && n < |tr.states| && c < |tr.states[n].conns|
    ensures tr.states[n].conns[c].closes <= 2
    ensures (forall i :: 0 <= i < |tr.states[n].handlers| ==> AtRest(tr.states[n].handlers[i])) ==> tr.states[n].conns[c].closes >= 1
  {
    InvTrace(tr, n);
    var w := tr.states[n];
    assert ConnOk(w, c) && HandlerOk(w, w.conns[c].handler);
  }

  /** How many actions of the handler and its forwarders can still follow. */
  function Rank(h: Handler): nat {
    (match h.pc
     case Preparing => 9
     case Dialling => 8
     case Writing => 7
     case Dropping => 6
     case Starting => 6
     case HalfStarted => 3
     case Refusing => 1
     case Returned => 0)
    + Pending(h.one) + Pending(h.two)
  }

  function Pending(f: Option<Forwarder>): nat {
    if CanClose(f) then 2 - f.value.closed else 0
  }

  /** Every action brings a handler closer to rest, and it is at rest exactly when no action is left. */
  lemma HandlersComeToRest(tr: Trace, n: nat, i: nat)
    requires IsTrace(tr) && n < |tr.states| && i < |tr.states[n].handlers|
    ensures var h := tr.states[n].handlers[i];
            && (AtRest(h) <==> forall a :: !CanDo(h, a))
            && (forall a, next :: CanDo(h, a) ==> Rank(Do(h, a, next)) < Rank(h) <= 9)
  {
    InvTrace(tr, n);
    var h := tr.states[n].handlers[i];
    assert HandlerOk(tr.states[n], i);
    if !AtRest(h) {
      var a := AnyAction(h);
      assert CanDo(h, a);
    }
  }

  function AnyAction(h: Handler): Action {
    if CanClose(h.one) then CloseOne
    else if CanClose(h.two) then CloseTwo
    else match h.pc
      case Preparing => Prepare(true)
      case Dialling => Dial(true)
      case Writing => Write(true)
      case Dropping => Drop
      case Refusing => Refuse
      case Starting => GoFirst
      case HalfStarted => GoSecond
      case Returned => Refuse
  }

  // ----- The handlers as they are written -----

  /** What a handler meets: its request, hello or target is fit; the dial and the write succeed. */
  datatype Outcomes = Outcomes(fit: bool, dialled: bool, written: bool)

  datatype Fate = Refused | Undone | Joined

  function FateOf(kind: Kind, o: Outcomes): Fate {
    if !o.fit || !o.dialled then Refused
    else if kind.HttpProxy? && !o.written then Undone
    else Joined
  }

  /** How often the connections of a returned handler have been closed by it. */
  function ClosesOf(fate: Fate): seq<nat> {
    match fate
    case Refused => [1]
    case Undone => [1, 1]
    case Joined => [0, 0]
  }

  function ForwardersOf(kind: Kind, fate: Fate, conn: nat): seq<Forwarder> {
    if fate.Joined? then [First(kind, conn, conn + 1), Second(kind, conn, conn + 1)] else []
  }

  datatype HttpMethod = CONNECT | GET | Unsupported

  /** The code of the handlers, with nothing else going on. */
  class Host {
    var closes: seq<nat>
    var forwarders: seq<Forwarder>

    constructor ()
      ensures closes == [] && forwarders == []
    {
      closes, forwarders := [], [];
    }

    /** The handler that was just called has met the given fate. */
    twostate predicate Settled(kind: Kind, fate: Fate)
      reads this
    {
      && closes == old(closes) + ClosesOf(fate)
      && forwarders == old(forwarders) + ForwardersOf(kind, fate, |old(closes)|)
    }

    method Open() returns (c: nat)
      modifies this`closes
      ensures c == |old(closes)| && closes == old(closes) + [0]
    {
      c := |closes|;
      closes := closes + [0];
    }

    method DialOut(ok: bool) returns (peer: Option<nat>)
      modifies this`closes
      ensures !ok ==> peer == None && closes == old(closes)
      ensures ok ==> peer == Some(|old(closes)|) && closes == old(closes) + [0]
    {
      peer := None;
      if ok {
        var c := Open();
        peer := Some(c);
      }
    }

    method CloseConn(c: nat)
      requires c < |closes|
      modifies this`closes
      ensures closes == old(closes)[c := old(closes)[c] + 1]
    {
      closes := closes[c := closes[c] + 1];
    }

    /** go connForward(from, to), which closes `to` first. */
    method GoForward(from: nat, to: nat)
      modifies this`forwarders
      ensures forwarders == old(forwarders) + [Forwarder(from, to, to, 0)]
    {
      forwarders := forwarders + [Forwarder(from, to, to, 0)];
    }

    /** handleConn and handle: dial, then write the reply to the client or the request to the peer. */
    method HandleRequest(dialled: bool, written: bool) returns (peer: Option<nat>)
      modifies this`closes
      ensures peer == (if dialled && written then Some(|old(closes)|) else None)
      ensures closes == old(closes) + (if !dialled then [] else if written then [0] else [1])
    {
      peer := DialOut(dialled);
      if peer.Some? && !written {
        CloseConn(peer.value);
        peer := None;
      }
    }

    method ServeHttp(read: bool, authenticated: bool, verb: HttpMethod, dialled: bool, written: bool)
      modifies this
      ensures Settled(HttpProxy, FateOf(HttpProxy, Outcomes(read && authenticated && !verb.Unsupported?, dialled, written)))
      ensures var c, served := |old(closes)|, read && authenticated && (verb == CONNECT || verb == GET) && dialled;
              && closes == old(closes) + (if !served then [1] else if written then [0, 0] else [1, 1])
              && forwarders == old(forwarders) +
                   if served && written then [Forwarder(c + 1, c, c + 1, 0), Forwarder(c, c + 1, c + 1, 0)] else []
    {
      var conn := Open();
      if !read {
        CloseConn(conn);
        return;
      }
      if !authenticated {
        CloseConn(conn);
        return;
      }
      var peer := None;
      match verb {
        case CONNECT => peer := HandleRequest(dialled, written);
        case GET => peer := HandleRequest(dialled, written);
        case Unsupported =>
          CloseConn(conn);
          return;
      }
      if peer.None? {
        CloseConn(conn);
        return;
      }
      forwarders := forwarders + [Forwarder(peer.value, conn, peer.value, 0)];
      forwarders := forwarders + [Forwarder(conn, peer.value, peer.value, 0)];
    }

    /** `hello` is the server name of the ClientHello, if one was seen. */
    method SniProxyForward(conn: nat, deadlineSet: bool, hello: Option<string>, deadlineCleared: bool, dialled: bool) returns (ok: bool)
      modifies this
      ensures ok <==> deadlineSet && hello.Some? && deadlineCleared && hello.value != "" && dialled
      ensures !ok ==> closes == old(closes) && forwarders == old(forwarders)
      ensures ok ==> var d := |old(closes)|;
                     closes == old(closes) + [0] && forwarders == old(forwarders) + [First(SniProxy, conn, d), Second(SniProxy, conn, d)]
    {
      if !deadlineSet || hello.None? || !deadlineCleared || hello.value == "" {
        return false;
      }
      var backend := DialOut(dialled);
      if backend.None? {
        return false;
      }
      GoForward(conn, backend.value);
      GoForward(backend.value, conn);
      ok := true;
    }

    method ServeSni(deadlineSet: bool, hello: Option<string>, deadlineCleared: bool, dialled: bool)
      modifies this
      ensures var fit := deadlineSet && hello.Some? && deadlineCleared && hello.value != "";
              Settled(SniProxy, FateOf(SniProxy, Outcomes(fit, dialled, true)))
      ensures var c, joined := |old(closes)|, deadlineSet && hello.Some? && hello.value != "" && deadlineCleared && dialled;
              && closes == old(closes) + (if joined then [0, 0] else [1])
              && forwarders == old(forwarders) + if joined then [Forwarder(c, c + 1, c + 1, 0), Forwarder(c + 1, c, c, 0)] else []
    {
      var conn := Open();
      var ok := SniProxyForward(conn, deadlineSet, hello, deadlineCleared, dialled);
      if !ok {
        CloseConn(conn);
      }
    }

    /** tcpClientForward and tcpServerForward, which differ in the network they dial. */
    method ServeTunnel(resolved: bool, dialled: bool)
      modifies this
      ensures Settled(TcpTunnel, FateOf(TcpTunnel, Outcomes(resolved, dialled, true)))
      ensures var c := |old(closes)|;
              && closes == old(closes) + (if resolved && dialled then [0, 0] else [1])
              && forwarders == old(forwarders) + if resolved && dialled then [Forwarder(c + 1, c, c, 0), Forwarder(c, c + 1, c + 1, 0)] else []
    {
      var conn := Open();
      if !resolved {
        CloseConn(conn);
        return;
      }
      var sconn := DialOut(dialled);
      if sconn.None? {
        CloseConn(conn);
        return;
      }
      GoForward(sconn.value, conn);
      GoForward(conn, sconn.value);
    }
  }

  // ----- The steps are those of the code -----

  /** The actions of a handler that meets the given outcomes. */
  function Script(kind: Kind, o: Outcomes): seq<Action> {
    [Prepare(o.fit)] + if o.fit then [Dial(o.dialled)] + AfterDial(kind, o) else [Refuse]
  }

  function AfterDial(kind: Kind, o: Outcomes): seq<Action> {
    if !o.dialled then [Refuse]
    else if !kind.HttpProxy? then [GoFirst, GoSecond]
    else [Write(o.written)] + if o.written then [GoFirst, GoSecond] else [Drop, Refuse]
  }

  /** The world after a handler has performed the actions undisturbed, if it can. */
  function Play(w: World, i: nat, actions: seq<Action>): Option<World>
    decreases |actions|
  {
    if actions == [] then Some(w)
    else if !Enabled(w, By(i, actions[0])) then None
    else Play(Step(w, By(i, actions[0])), i, actions[1..])
  }

  /** A world with one more handler and its connections. */
  function Plus(w: World, closes: seq<nat>, h: Handler): World {
    World(w.conns + seq(|closes|, k requires 0 <= k < |closes| => Conn(|w.handlers|, closes[k])), w.handlers + [h])
  }

  lemma PlayOne(w: World, closes: seq<nat>, h: Handler, closes': seq<nat>, h': Handler, a: Action, rest: seq<Action>)
    requires CanDo(h, a) && h' == Do(h, a, |w.conns| + |closes|)
    requires var c := Closes(h, a);
             && (c.Some? ==> |w.conns| <= c.value < |w.conns| + |closes|)
             && closes' == (if c.Some? then closes[c.value - |w.conns| := closes[c.value - |w.conns|] + 1] else closes)
                           + (if a == Dial(true) then [0] else [])
    ensures Play(Plus(w, closes, h), |w.handlers|, [a] + rest) == Play(Plus(w, closes', h'), |w.handlers|, rest)
  {
    var v := Plus(w, closes, h);
    assert ([a] + rest)[1..] == rest;
    assert Step(v, By(|w.handlers|, a)).handlers == w.handlers + [h'];
    assert Step(v, By(|w.handlers|, a)).conns == Plus(w, closes', h').conns;
  }

  lemma PlayRefuse(w: World, h: Handler, closes: seq<nat>)
    requires h.pc == Refusing && h.conn == |w.conns| && |closes| > 0
    ensures Play(Plus(w, closes, h), |w.handlers|, [Refuse]) == Some(Plus(w, closes[0 := closes[0] + 1], h.(pc := Returned)))
  {
    PlayOne(w, closes, h, closes[0 := closes[0] + 1], h.(pc := Returned), Refuse, []);
    assert [Refuse] + [] == [Refuse];
  }

  lemma PlayJoin(w: World, d: Handler)
    requires d.pc == Starting && d.conn == |w.conns| && d.peer == Some(|w.conns| + 1)
    ensures var c := |w.conns|;
            Play(Plus(w, [0, 0], d), |w.handlers|, [GoFirst, GoSecond]) ==
              Some(Plus(w, [0, 0], d.(pc := Returned, one := Some(First(d.kind, c, c + 1)), two := Some(Second(d.kind, c, c + 1)))))
  {
    var c := |w.conns|;
    var e := d.(pc := HalfStarted, one := Some(First(d.kind, c, c + 1)));
    PlayOne(w, [0, 0], d, [0, 0], e, GoFirst, [GoSecond]);
    PlayOne(w, [0, 0], e, [0, 0], e.(pc := Returned, two := Some(Second(d.kind, c, c + 1))), GoSecond, []);
    assert [GoFirst, GoSecond] == [GoFirst] + [GoSecond] && [GoSecond] == [GoSecond] + [];
  }

  lemma PlayUndo(w: World, d: Handler)
    requires d.pc == Dropping && d.conn == |w.conns| && d.peer == Some(|w.conns| + 1)
    ensures Play(Plus(w, [0, 0], d), |w.handlers|, [Drop, Refuse]) == Some(Plus(w, [1, 1], d.(pc := Returned)))
  {
    PlayOne(w, [0, 0], d, [0, 1], d.(pc := Refusing), Drop, [Refuse]);
    PlayRefuse(w, d.(pc := Refusing), [0, 1]);
    assert [0, 1][0 := 1] == [1, 1] && [Drop, Refuse] == [Drop] + [Refuse];
  }

  /** The record of a handler that has returned. */
  function Done(kind: Kind, fate: Fate, c: nat): Handler {
    match fate
    case Refused => Handler(kind, c, Returned, None, None, None)
    case Undone => Handler(kind, c, Returned, Some(c + 1), None, None)
    case Joined => Handler(kind, c, Returned, Some(c + 1), Some(First(kind, c, c + 1)), Some(Second(kind, c, c + 1)))
  }

  /** From a successful dial on. */
  lemma PlayDialled(w: World, d: Handler, o: Outcomes)
    requires o.fit && o.dialled
    requires d == Handler(d.kind, |w.conns|, if d.kind.HttpProxy? then Writing else Starting, Some(|w.conns| + 1), None, None)
    ensures var fate := FateOf(d.kind, o);
            Play(Plus(w, [0, 0], d), |w.handlers|, AfterDial(d.kind, o)) == Some(Plus(w, ClosesOf(fate), Done(d.kind, fate, |w.conns|)))
  {
    if !d.kind.HttpProxy? {
      PlayJoin(w, d);
    } else if o.written {
      PlayOne(w, [0, 0], d, [0, 0], d.(pc := Starting), Write(true), [GoFirst, GoSecond]);
      PlayJoin(w, d.(pc := Starting));
    } else {
      PlayOne(w, [0, 0], d, [0, 0], d.(pc := Dropping), Write(false), [Drop, Refuse]);
      PlayUndo(w, d.(pc := Dropping));
    }
  }

  lemma PlayFit(w: World, h: Handler, o: Outcomes)
    requires o.fit && h == Handler(h.kind, |w.conns|, Dialling, None, None, None)
    ensures var fate := FateOf(h.kind, o);
            Play(Plus(w, [0], h), |w.handlers|, [Dial(o.dialled)] + AfterDial(h.kind, o)) ==
              Some(Plus(w, ClosesOf(fate), Done(h.kind, fate, |w.conns|)))
  {
    if o.dialled {
      var d := h.(pc := if h.kind.HttpProxy? then Writing else Starting, peer := Some(|w.conns| + 1));
      PlayOne(w, [0], h, [0, 0], d, Dial(true), AfterDial(h.kind, o));
      PlayDialled(w, d, o);
    } else {
      PlayOne(w, [0], h, [0], h.(pc := Refusing), Dial(false), [Refuse]);
      PlayRefuse(w, h.(pc := Refusing), [0]);
      assert [0][0 := 1] == [1];
    }
  }

  /** Left alone, a handler's steps close and join exactly what its code closes and joins. */
  lemma StepsAreTheCode(w: World, kind: Kind, o: Outcomes)
    ensures var fate := FateOf(kind, o);
            Play(Step(w, Accept(kind)), |w.handlers|, Script(kind, o)) ==
              Some(Plus(w, ClosesOf(fate), Done(kind, fate, |w.conns|)))
  {
    var h := Handler(kind, |w.conns|, Preparing, None, None, None);
    assert Step(w, Accept(kind)) == Plus(w, [0], h);
    if o.fit {
      PlayOne(w, [0], h, [0], h.(pc := Dialling), Prepare(true), [Dial(o.dialled)] + AfterDial(kind, o));
      PlayFit(w, h.(pc := Dialling), o);
    } else {
      PlayOne(w, [0], h, [0], h.(pc := Refusing), Prepare(false), [Refuse]);
      PlayRefuse(w, h.(pc := Refusing), [0]);
      assert [0][0 := 1] == [1];
    }
  }
}
