/**
 The UDP proxy tunnel as a step system. Any number of callers of
 getOrCreateSession, the cleaner and one handler per published session take
 turns; each step is one critical section or one blocking call, and the dial,
 the clock and the network answers are chosen by the environment.
 */
module SessionProtocol {
  import opened Wrappers
  import opened SessionTable

  const SECOND := 1_000_000_000

  /** A caller from the moment a datagram of `src` arrived until it has been forwarded. */
  datatype Caller =
    | Arrived(src: string)
    | Missed(src: string)                          // no session found, lock released
    | Dialled(src: string, conn: nat)
    | Holding(src: string, sess: nat)              // session built but not published
    | LostRace(src: string, sess: nat, winner: nat)
    | Won(src: string, sess: nat)                  // published, handler not started yet
    | Ready(src: string, sess: nat)                // getOrCreateSession has returned
    | Touched(src: string, sess: nat)
    | Done

  /** Where a handler stands in handleRemoteToLocal. */
  datatype Pc = TopCheck | Reading | TimedOut | Received | Delivering | Removing | ClosingConn | Finished

  datatype Handler = Handler(src: string, pc: Pc)

  /** A successful dial: who made it, the session built on it, and how often it was closed. */
  datatype Conn = Conn(dialler: nat, sess: Option<nat>, closes: nat)

  datatype Sent = Sent(src: string, sess: nat, conn: nat)
  datatype Reply = Reply(sess: nat, dst: string)

  datatype State = State(
    timeout: int,                  // InactivityTimeout, in seconds
    clock: int,                    // nanoseconds
    table: Table,
    conns: seq<Conn>,
    callers: map<nat, Caller>,
    cleaner: Option<int>,          // the clock sampled before the lock, while a pass is due
    handlers: map<nat, Handler>,   // by session
    sent: seq<Sent>,               // writes to remote connections
    replies: seq<Reply>)           // writes to local clients

  datatype ReadOutcome = Data | Timeout | Failed
  datatype DeliverOutcome = ResolveFailed | WriteFailed | Written

  datatype Event =
    | Tick(now: int)
    | Arrive(tid: nat, src: string)
    | Lookup(tid: nat)
    | Dial(tid: nat, ok: bool)
    | BuildSession(tid: nat)
    | PublishSession(tid: nat)
    | DropDuplicate(tid: nat)
    | Spawn(tid: nat)
    | TouchSession(tid: nat)
    | Forward(tid: nat)
    | CleanerSample
    | CleanerPass
    | HandlerCheck(id: nat)
    | HandlerRead(id: nat, read: ReadOutcome)
    | HandlerTimeout(id: nat)
    | HandlerTouch(id: nat)
    | HandlerDeliver(id: nat, delivery: DeliverOutcome)
    | HandlerRemove(id: nat)
    | HandlerClose(id: nat)

  function Initial(timeout: int, clock: int): State {
    State(timeout, clock, EMPTY, [], map[], None, map[], [], [])
  }

  // ----- Steps -----

  predicate CallerTyped(c: Caller, sessions: nat, conns: nat) {
    match c
    case Dialled(_, conn) => conn < conns
    case Holding(_, i) => i < sessions
    case LostRace(_, i, w) => i < sessions && w < sessions
    case Won(_, i) => i < sessions
    case Ready(_, i) => i < sessions
    case Touched(_, i) => i < sessions
    case _ => true
  }

  /** Every session and connection mentioned anywhere has been created. */
  ghost predicate WellTyped(s: State) {
    && Typed(s.table)
    && (forall i :: 0 <= i < |s.table.heap| ==> s.table.heap[i].conn < |s.conns|)
    && (forall t :: t in s.callers ==> CallerTyped(s.callers[t], |s.table.heap|, |s.conns|))
    && (forall i :: i in s.handlers ==> i < |s.table.heap|)
  }

  predicate At(s: State, id: nat, pc: Pc) {
    id in s.handlers && s.handlers[id].pc == pc
  }

  predicate Enabled(s: State, e: Event) {
    match e
    case Tick(now) => s.clock <= now
    case Arrive(t, src) => t !in s.callers
    case Lookup(t) => t in s.callers && s.callers[t].Arrived?
    case Dial(t, ok) => t in s.callers && s.callers[t].Missed?
    case BuildSession(t) => t in s.callers && s.callers[t].Dialled?
    case PublishSession(t) => t in s.callers && s.callers[t].Holding?
    case DropDuplicate(t) => t in s.callers && s.callers[t].LostRace?
    case Spawn(t) => t in s.callers && s.callers[t].Won?
    case TouchSession(t) => t in s.callers && s.callers[t].Ready?
    case Forward(t) => t in s.callers && s.callers[t].Touched?
    case CleanerSample => s.timeout > 0 && s.cleaner.None?
    case CleanerPass => s.cleaner.Some?
    case HandlerCheck(i) => At(s, i, TopCheck)
    case HandlerRead(i, _) => At(s, i, Reading)
    case HandlerTimeout(i) => At(s, i, TimedOut)
    case HandlerTouch(i) => At(s, i, Received)
    case HandlerDeliver(i, _) => At(s, i, Delivering)
    case HandlerRemove(i) => At(s, i, Removing)
    case HandlerClose(i) => At(s, i, ClosingConn)
  }

  function CloseConn(conns: seq<Conn>, c: nat): seq<Conn>
    requires c < |conns|
  {
    conns[c := conns[c].(closes := conns[c].closes + 1)]
  }

  function Goto(s: State, t: nat, c: Caller): State {
    s.(callers := s.callers[t := c])
  }

  function Jump(s: State, id: nat, pc: Pc): State
    requires id in s.handlers
  {
    s.(handlers := s.handlers[id := s.handlers[id].(pc := pc)])
  }

  predicate IsCallerEvent(e: Event) {
    || e.Lookup? || e.Dial? || e.BuildSession? || e.PublishSession?
    || e.DropDuplicate? || e.Spawn? || e.TouchSession? || e.Forward?
  }

  predicate IsHandlerEvent(e: Event) {
    || e.HandlerCheck? || e.HandlerRead? || e.HandlerTimeout? || e.HandlerTouch?
    || e.HandlerDeliver? || e.HandlerRemove? || e.HandlerClose?
  }

  /** The steps of getOrCreateSession and of the reader loop around it. */
  function CallerStep(s: State, e: Event): State
    requires WellTyped(s) && Enabled(s, e) && IsCallerEvent(e)
  {
    var t := e.tid;
    var c := s.callers[t];
    match e
    case Lookup(_) =>
      if c.src in s.table.sessions then
        var i := s.table.sessions[c.src];
        Goto(s.(table := Touch(s.table, i, s.clock)), t, Ready(c.src, i))
      else
        Goto(s, t, Missed(c.src))
    case Dial(_, ok) =>
      if ok then Goto(s.(conns := s.conns + [Conn(t, None, 0)]), t, Dialled(c.src, |s.conns|))
      else Goto(s, t, Done)
    case BuildSession(_) =>
      var i := |s.table.heap|;
      Goto(s.(table := Build(s.table, c.src, c.conn, s.clock),
              conns := s.conns[c.conn := s.conns[c.conn].(sess := Some(i))]), t, Holding(c.src, i))
    case PublishSession(_) =>
      if c.src in s.table.sessions then
        var w := s.table.sessions[c.src];
        Goto(s.(table := Touch(s.table, w, s.clock)), t, LostRace(c.src, c.sess, w))
      else
        Goto(s.(table := Publish(s.table, c.src, c.sess)), t, Won(c.src, c.sess))
    case DropDuplicate(_) =>
      Goto(s.(conns := CloseConn(s.conns, s.table.heap[c.sess].conn)), t, Ready(c.src, c.winner))
    case Spawn(_) =>
      Goto(s.(handlers := s.handlers[c.sess := Handler(c.src, TopCheck)]), t, Ready(c.src, c.sess))
    case TouchSession(_) =>
      Goto(s.(table := Touch(s.table, c.sess, s.clock)), t, Touched(c.src, c.sess))
    case Forward(_) =>
      Goto(s.(sent := s.sent + [Sent(c.src, c.sess, s.table.heap[c.sess].conn)]), t, Done)
  }

  /** The steps of handleRemoteToLocal and its deferred clean-up. */
  function HandlerStep(s: State, e: Event): State
    requires WellTyped(s) && Enabled(s, e) && IsHandlerEvent(e)
  {
    var i := e.id;
    var closed := s.table.heap[i].closes > 0;
    match e
    case HandlerCheck(_) => Jump(s, i, if closed then Removing else Reading)
    case HandlerRead(_, Data) => Jump(s, i, Received)
    case HandlerRead(_, Timeout) => Jump(s, i, TimedOut)
    case HandlerRead(_, Failed) => Jump(s, i, Removing)
    case HandlerTimeout(_) => Jump(s, i, if closed then Removing else TopCheck)
    case HandlerTouch(_) => Jump(s.(table := Touch(s.table, i, s.clock)), i, Delivering)
    case HandlerDeliver(_, ResolveFailed) => Jump(s, i, Removing)
    case HandlerDeliver(_, d) =>
      Jump(s.(replies := s.replies + [Reply(i, s.handlers[i].src)]), i, if d.Written? then TopCheck else Removing)
    case HandlerRemove(_) => Jump(s.(table := Remove(s.table, s.handlers[i].src, i)), i, ClosingConn)
    case HandlerClose(_) => Jump(s.(conns := CloseConn(s.conns, s.table.heap[i].conn)), i, Finished)
  }

  function Step(s: State, e: Event): State
    requires WellTyped(s) && Enabled(s, e)
  {
    match e
    case Tick(now) => s.(clock := now)
    case Arrive(t, src) => Goto(s, t, Arrived(src))
    case CleanerSample => s.(cleaner := Some(s.clock))
    case CleanerPass => s.(table := Evict(s.table, s.cleaner.value, s.timeout * SECOND), cleaner := None)
    case HandlerCheck(_) => HandlerStep(s, e)
    case HandlerRead(_, _) => HandlerStep(s, e)
    case HandlerTimeout(_) => HandlerStep(s, e)
    case HandlerTouch(_) => HandlerStep(s, e)
    case HandlerDeliver(_, _) => HandlerStep(s, e)
    case HandlerRemove(_) => HandlerStep(s, e)
    case HandlerClose(_) => HandlerStep(s, e)
    case _ => CallerStep(s, e)
  }

  ghost predicate Next(s: State, e: Event, s': State) {
    WellTyped(s) && Enabled(s, e) && s' == Step(s, e)
  }

  /** A run: `states[k]` is the state before `events[k]`. */
  datatype Trace = Trace(states: seq<State>, events: seq<Event>)

  ghost predicate Taken(tr: Trace, k: nat)
    requires k < |tr.events| && |tr.states| == |tr.events| + 1
  {
    Next(tr.states[k], tr.events[k], tr.states[k+1])
  }

  ghost predicate IsTrace(tr: Trace) {
    && |tr.states| == |tr.events| + 1
    && tr.states[0] == Initial(tr.states[0].timeout, tr.states[0].clock)
    && (forall k :: 0 <= k < |tr.events| ==> Taken(tr, k))
  }

  // ----- The inductive invariant -----

  /** Each caller owns what its program point says it owns. */
  predicate CallerOk(s: State, t: nat)
    requires t in s.callers && CallerTyped(s.callers[t], |s.table.heap|, |s.conns|)
    requires forall i :: 0 <= i < |s.table.heap| ==> s.table.heap[i].conn < |s.conns|
  {
    var h := s.table.heap;
    match s.callers[t]
    case Dialled(_, c) => s.conns[c] == Conn(t, None, 0)
    case Holding(src, i) => !h[i].published && h[i].src == src && s.conns[h[i].conn] == Conn(t, Some(i), 0)
    case LostRace(src, i, w) =>
      && !h[i].published && h[i].src == src && s.conns[h[i].conn] == Conn(t, Some(i), 0)
      && h[w].published && h[w].src == src
    case Won(src, i) =>
      h[i].published && h[i].src == src && s.conns[h[i].conn] == Conn(t, Some(i), 0) && i !in s.handlers
    case Ready(src, i) => h[i].published && h[i].src == src
    case Touched(src, i) => h[i].published && h[i].src == src
    case _ => true
  }

  predicate HoldsSession(c: Caller, i: nat) {
    (c.Holding? || c.LostRace?) && c.sess == i
  }

  /** A connection is open exactly while the caller that dialled it or the handler of its session still owns it. */
  predicate ConnOk(s: State, c: nat)
    requires c < |s.conns|
  {
    var k := s.conns[c];
    && k.dialler in s.callers
    && match k.sess
       case None => k.closes == 0 && s.callers[k.dialler].Dialled? && s.callers[k.dialler].conn == c
       case Some(i) =>
         && i < |s.table.heap| && s.table.heap[i].conn == c
         && if !s.table.heap[i].published then
              k.closes == if HoldsSession(s.callers[k.dialler], i) then 0 else 1
            else if i in s.handlers then
              k.closes == if s.handlers[i].pc == Finished then 1 else 0
            else
              k.closes == 0 && s.callers[k.dialler].Won? && s.callers[k.dialler].sess == i
  }

  predicate HandlerOk(s: State, i: nat)
    requires i in s.handlers && i < |s.table.heap|
  {
    var h := s.table.heap[i];
    && h.published && s.handlers[i].src == h.src
    && (s.handlers[i].pc in {ClosingConn, Finished} ==> h.closes == 1)
  }

  predicate LogsOk(s: State) {
    && (forall x :: x in s.sent ==> x.sess < |s.table.heap| && s.table.heap[x.sess].src == x.src && s.table.heap[x.sess].conn == x.conn)
    && (forall x :: x in s.replies ==> x.sess < |s.table.heap| && s.table.heap[x.sess].src == x.dst)
  }

  predicate ClockOk(s: State) {
    && (s.cleaner.Some? ==> s.cleaner.value <= s.clock && s.timeout > 0)
    && (forall i :: 0 <= i < |s.table.heap| ==> s.table.heap[i].lastActive <= s.clock)
  }

  /** The table is consistent, and sessions, connections, handlers, logs and clock fit together. */
  ghost predicate ObjectsOk(s: State) {
    && WellTyped(s)
    && TableOk(s.table)
    && (forall i :: 0 <= i < |s.table.heap| ==> s.conns[s.table.heap[i].conn].sess == Some(i))
    && (forall i :: i in s.handlers ==> HandlerOk(s, i))
    && LogsOk(s)
    && ClockOk(s)
  }

  ghost predicate Inv(s: State) {
    && ObjectsOk(s)
    && (forall c :: 0 <= c < |s.conns| ==> ConnOk(s, c))
    && (forall t :: t in s.callers ==> CallerOk(s, t))
  }
}
