/** What holds in every run of the UDP proxy tunnel, under every interleaving. */
module SessionTheorems {
  import opened Wrappers
  import opened SessionTable
  import opened SessionProtocol
  import opened SessionProofs

  /** Each step of a run starts from a state that satisfies the invariant. */
  lemma TraceStep(tr: Trace, k: nat)
    requires IsTrace(tr) && k < |tr.events|
    ensures Inv(tr.states[k]) && Enabled(tr.states[k], tr.events[k]) && tr.states[k+1] == Step(tr.states[k], tr.events[k])
  {
    InvTrace(tr, k);
    assert Taken(tr, k);
  }

  // ----- Sessions and their channels -----

  /** A published session is in the table, under its own address, exactly while its channel is open;
      no channel is closed twice and the already-closed branch of closeSessionChan is never taken. */
  lemma PublishedIffOpen(tr: Trace, k: nat)
    requires IsTrace(tr) && k < |tr.states|
    ensures var t := tr.states[k].table;
            && t.redundant == 0
            && forall i :: 0 <= i < |t.heap| ==>
                 && t.heap[i].closes <= 1
                 && (t.heap[i].published ==> (InTable(t, i) <==> t.heap[i].closes == 0))
  {
    InvTrace(tr, k);
  }

  /** Two sessions for one source are never open together. */
  lemma OneOpenSessionPerSource(tr: Trace, k: nat, i: nat, j: nat)
    requires IsTrace(tr) && k < |tr.states|
    requires i < |tr.states[k].table.heap| && j < |tr.states[k].table.heap|
    requires var h := tr.states[k].table.heap;
             && h[i].published && h[j].published && h[i].closes == 0 && h[j].closes == 0 && h[i].src == h[j].src
    ensures i == j
  {
    InvTrace(tr, k);
    assert InTable(tr.states[k].table, i) && InTable(tr.states[k].table, j);
  }

  // ----- Connections -----

  predicate CallerHolds(s: State, c: Caller, conn: nat) {
    match c
    case Dialled(_, d) => d == conn
    case Holding(_, i) => i < |s.table.heap| && s.table.heap[i].conn == conn
    case LostRace(_, i, _) => i < |s.table.heap| && s.table.heap[i].conn == conn
    case _ => false
  }

  /** Some caller still inside getOrCreateSession has the connection to itself. */
  ghost predicate InFlight(s: State, conn: nat) {
    exists t :: t in s.callers && CallerHolds(s, s.callers[t], conn)
  }

  predicate AboutToSpawn(c: Caller, i: nat) {
    c.Won? && c.sess == i
  }

  /** The connection belongs to a published session whose handler is running or about to be started. */
  ghost predicate Served(s: State, conn: nat) {
    exists i :: 0 <= i < |s.table.heap| && s.table.heap[i].conn == conn && s.table.heap[i].published
      && if i in s.handlers then s.handlers[i].pc != Finished
         else exists t :: t in s.callers && AboutToSpawn(s.callers[t], i)
  }

  lemma InFlightIff(s: State, c: nat)
    requires Inv(s) && c < |s.conns|
    ensures s.conns[c].dialler in s.callers
    ensures InFlight(s, c) <==> CallerHolds(s, s.callers[s.conns[c].dialler], c)
  {
    assert ConnOk(s, c);
    forall t | t in s.callers && CallerHolds(s, s.callers[t], c)
      ensures t == s.conns[c].dialler
    {
      assert CallerOk(s, t);
    }
  }

  lemma ServedIff(s: State, c: nat)
    requires Inv(s) && c < |s.conns|
    ensures s.conns[c].sess.Some? ==> s.conns[c].sess.value < |s.table.heap|
    ensures Served(s, c) <==> s.conns[c].sess.Some? && s.table.heap[s.conns[c].sess.value].published && s.conns[c].closes == 0
  {
    assert ConnOk(s, c);
    if s.conns[c].sess.Some? {
      var i := s.conns[c].sess.value;
      if s.table.heap[i].published && i !in s.handlers {
        assert AboutToSpawn(s.callers[s.conns[c].dialler], i);
      }
    }
  }

  /** Every successful dial is in exactly one of three places, and is closed at most once. */
  lemma ConnsConserved(tr: Trace, k: nat, c: nat)
    requires IsTrace(tr) && k < |tr.states| && c < |tr.states[k].conns|
    ensures var s := tr.states[k];
            var closed := s.conns[c].closes == 1;
            && s.conns[c].closes <= 1
            && (InFlight(s, c) || Served(s, c) || closed)
            && !(InFlight(s, c) && Served(s, c)) && !(InFlight(s, c) && closed) && !(Served(s, c) && closed)
  {
    var s := tr.states[k];
    InvTrace(tr, k);
    InFlightIff(s, c);
    ServedIff(s, c);
    assert ConnOk(s, c);
    assert CallerOk(s, s.conns[c].dialler);
  }

  /** A session in the table has a handler that has not begun to close, or a caller about to start one. */
  lemma OpenSessionIsServed(s: State, src: string)
    requires Inv(s) && src in s.table.sessions
    ensures var i := s.table.sessions[src];
            if i in s.handlers then s.handlers[i].pc !in {ClosingConn, Finished}
            else exists t :: t in s.callers && AboutToSpawn(s.callers[t], i)
  {
    var i := s.table.sessions[src];
    assert InTable(s.table, i);
    assert ConnOk(s, s.table.heap[i].conn);
    if i !in s.handlers {
      assert AboutToSpawn(s.callers[s.conns[s.table.heap[i].conn].dialler], i);
    }
  }

  /** Once all callers have returned and all handlers have finished, nothing is left open. */
  lemma QuiescentLeaksNothing(tr: Trace, k: nat)
    requires IsTrace(tr) && k < |tr.states|
    requires var s := tr.states[k];
             && (forall t :: t in s.callers ==> s.callers[t] == Done)
             && (forall i :: i in s.handlers ==> s.handlers[i].pc == Finished)
    ensures forall c :: 0 <= c < |tr.states[k].conns| ==> tr.states[k].conns[c].closes == 1
    ensures tr.states[k].table.sessions == map[]
  {
    var s := tr.states[k];
    InvTrace(tr, k);
    forall c | 0 <= c < |s.conns| ensures s.conns[c].closes == 1 {
      ConnsConserved(tr, k, c);
      InFlightIff(s, c);
    }
    if s.table.sessions.Keys != {} {
      var src :| src in s.table.sessions.Keys;
      OpenSessionIsServed(s, src);
      assert false;
    }
  }

  // ----- Eviction -----

  predicate Grows(t: Table, t': Table) {
    && |t.heap| <= |t'.heap|
    && forall i :: 0 <= i < |t.heap| ==>
         && t'.heap[i].src == t.heap[i].src
         && t'.heap[i].lastActive >= t.heap[i].lastActive
         && t'.heap[i].closes >= t.heap[i].closes
  }

  lemma CallerGrows(s: State, e: Event)
    requires WellTyped(s) && ClockOk(s) && Enabled(s, e) && IsCallerEvent(e)
    ensures Grows(s.table, CallerStep(s, e).table)
  {}

  lemma HandlerGrows(s: State, e: Event)
    requires WellTyped(s) && ClockOk(s) && TableOk(s.table) && Enabled(s, e) && IsHandlerEvent(e)
    ensures Grows(s.table, HandlerStep(s, e).table)
  {}

  lemma EvictGrows(t: Table, now: int, idle: int)
    requires TableOk(t)
    ensures Grows(t, Evict(t, now, idle))
  {
    EvictKeepsObjects(t, now, idle);
  }

  /** Time, the set of sessions, their activity stamps and their closed channels only move forward. */
  lemma SessionsGrow(s: State, e: Event)
    requires WellTyped(s) && ClockOk(s) && TableOk(s.table) && Enabled(s, e)
    ensures s.clock <= Step(s, e).clock && Grows(s.table, Step(s, e).table)
  {
    if IsCallerEvent(e) {
      CallerGrows(s, e);
    } else if IsHandlerEvent(e) {
      HandlerGrows(s, e);
    } else if e.CleanerPass? {
      EvictGrows(s.table, s.cleaner.value, s.timeout * SECOND);
    }
  }

  /** The step stamps session i: a lookup or a lost race finds it, the reader is about to write to it, or its handler
      has received something. */
  ghost predicate Stamps(s: State, e: Event, i: nat) {
    match e
    case Lookup(t) => t in s.callers && s.callers[t].Arrived? && s.callers[t].src in s.table.sessions && s.table.sessions[s.callers[t].src] == i
    case PublishSession(t) => t in s.callers && s.callers[t].Holding? && s.callers[t].src in s.table.sessions && s.table.sessions[s.callers[t].src] == i
    case TouchSession(t) => t in s.callers && s.callers[t].Ready? && s.callers[t].sess == i
    case HandlerTouch(j) => j == i
    case _ => false
  }

  lemma StampIsNow(s: State, e: Event, i: nat)
    requires Inv(s) && Enabled(s, e) && i < |s.table.heap| && Stamps(s, e, i)
    ensures |Step(s, e).table.heap| == |s.table.heap| && Step(s, e).table.heap[i].lastActive == s.clock
  {}

  lemma TraceGrows(tr: Trace, k: nat)
    requires IsTrace(tr) && k < |tr.events|
    ensures tr.states[k].clock <= tr.states[k+1].clock && Grows(tr.states[k].table, tr.states[k+1].table)
  {
    TraceStep(tr, k);
    SessionsGrow(tr.states[k], tr.events[k]);
  }

  /** The activity stamp of a session never falls behind any step that stamps it. */
  lemma {:induction false} StampIsRemembered(tr: Trace, j: nat, k: nat, i: nat)
    requires IsTrace(tr) && j < k < |tr.states|
    requires i < |tr.states[j].table.heap| && Stamps(tr.states[j], tr.events[j], i)
    ensures i < |tr.states[k].table.heap| && tr.states[k].table.heap[i].lastActive >= tr.states[j].clock
  {
    if k - 1 > j {
      StampIsRemembered(tr, j, k - 1, i);
      TraceGrows(tr, k - 1);
    } else {
      TraceStep(tr, j);
      StampIsNow(tr.states[j], tr.events[j], i);
    }
  }

  /** One cleaner pass: what it removes has really been idle for the timeout when it is removed,
      although the clock was read before the lock was taken, and what it leaves is not yet due. */
  lemma EvictionExact(tr: Trace, k: nat, key: string)
    requires IsTrace(tr) && k < |tr.events| && tr.events[k] == CleanerPass
    requires key in tr.states[k].table.sessions
    ensures var s, s' := tr.states[k], tr.states[k+1];
            var i := s.table.sessions[key];
            var idle := s.timeout * SECOND;
            && s.timeout > 0 && s.cleaner.Some? && i < |s.table.heap| == |s'.table.heap|
            && (key !in s'.table.sessions <==> s.cleaner.value - s.table.heap[i].lastActive >= idle)
            && (key !in s'.table.sessions ==> s.clock - s.table.heap[i].lastActive >= idle && s'.table.heap[i].closes == 1)
            && (key in s'.table.sessions ==> s'.table.sessions[key] == i && s'.table.heap[i] == s.table.heap[i])
  {
    TraceStep(tr, k);
    assert InTable(tr.states[k].table, tr.states[k].table.sessions[key]);
  }

  /** Whatever a pass evicts has not been stamped in the whole run for the length of the timeout. */
  lemma EvictionMeansSilence(tr: Trace, k: nat, key: string, j: nat)
    requires IsTrace(tr) && k < |tr.events| && tr.events[k] == CleanerPass
    requires key in tr.states[k].table.sessions && key !in tr.states[k+1].table.sessions
    requires j < k && tr.states[k].table.sessions[key] < |tr.states[j].table.heap|
    requires Stamps(tr.states[j], tr.events[j], tr.states[k].table.sessions[key])
    ensures tr.states[k].clock - tr.states[j].clock >= tr.states[k].timeout * SECOND
  {
    EvictionExact(tr, k, key);
    StampIsRemembered(tr, j, k, tr.states[k].table.sessions[key]);
  }

  /** The stamp that a caller about to write has left. */
  lemma {:induction false} CallerStamped(tr: Trace, k: nat, t: nat) returns (j: nat)
    requires IsTrace(tr) && k < |tr.states| && t in tr.states[k].callers && tr.states[k].callers[t].Touched?
    ensures j < k && tr.events[j] == TouchSession(t) && Stamps(tr.states[j], tr.events[j], tr.states[k].callers[t].sess)
    decreases k
  {
    assert k > 0;
    assert Taken(tr, k - 1);
    if tr.events[k-1] == TouchSession(t) {
      j := k - 1;
    } else {
      CallerStays(tr.states[k-1], tr.events[k-1], t);
      j := CallerStamped(tr, k - 1, t);
    }
  }

  lemma CallerStays(s: State, e: Event, t: nat)
    requires WellTyped(s) && Enabled(s, e) && e != TouchSession(t) && t in Step(s, e).callers && Step(s, e).callers[t].Touched?
    ensures t in s.callers && s.callers[t] == Step(s, e).callers[t]
  {
    if IsCallerEvent(e) {
      OnlyTouchTouches(s, e, t);
    } else if IsHandlerEvent(e) {
      HandlersKeepCallers(s, e);
    }
  }

  lemma OnlyTouchTouches(s: State, e: Event, t: nat)
    requires WellTyped(s) && Enabled(s, e) && IsCallerEvent(e) && e != TouchSession(t)
    requires t in CallerStep(s, e).callers && CallerStep(s, e).callers[t].Touched?
    ensures t in s.callers && s.callers[t] == CallerStep(s, e).callers[t]
  {}

  lemma HandlersKeepCallers(s: State, e: Event)
    requires WellTyped(s) && Enabled(s, e) && IsHandlerEvent(e)
    ensures HandlerStep(s, e).callers == s.callers
  {}

  lemma {:induction false} HandlerStamped(tr: Trace, k: nat, i: nat) returns (j: nat)
    requires IsTrace(tr) && k < |tr.states| && At(tr.states[k], i, Delivering)
    ensures j < k && tr.events[j] == HandlerTouch(i)
    ensures forall m :: j < m < k ==> !OfHandler(tr.events[m], i)
    decreases k
  {
    assert k > 0;
    assert Taken(tr, k - 1);
    if tr.events[k-1] == HandlerTouch(i) {
      j := k - 1;
    } else {
      HandlerStays(tr.states[k-1], tr.events[k-1], i);
      j := HandlerStamped(tr, k - 1, i);
    }
  }

  lemma HandlerStays(s: State, e: Event, i: nat)
    requires WellTyped(s) && Enabled(s, e) && e != HandlerTouch(i) && At(Step(s, e), i, Delivering)
    ensures At(s, i, Delivering) && !OfHandler(e, i)
  {
    if IsCallerEvent(e) {
      CallersOnlySpawn(s, e, i);
    } else if IsHandlerEvent(e) {
      OnlyTouchDelivers(s, e, i);
    }
  }

  lemma CallersOnlySpawn(s: State, e: Event, i: nat)
    requires WellTyped(s) && Enabled(s, e) && IsCallerEvent(e)
    ensures if e.Spawn? && s.callers[e.tid].sess == i then At(CallerStep(s, e), i, TopCheck)
            else (i in CallerStep(s, e).handlers <==> i in s.handlers) && (i in s.handlers ==> CallerStep(s, e).handlers[i] == s.handlers[i])
  {}

  lemma OnlyTouchDelivers(s: State, e: Event, i: nat)
    requires WellTyped(s) && Enabled(s, e) && IsHandlerEvent(e) && e != HandlerTouch(i) && At(HandlerStep(s, e), i, Delivering)
    ensures At(s, i, Delivering) && e.id != i
  {}

  /** Every datagram written to a session, and every reply written for it, follows a stamp of that session by the same
      caller or by its handler in the same turn. */
  lemma WritesFollowStamps(tr: Trace, k: nat, i: nat) returns (j: nat)
    requires IsTrace(tr) && k < |tr.events| && i < |tr.states[k].table.heap|
    requires match tr.events[k]
             case Forward(t) => t in tr.states[k].callers && tr.states[k].callers[t] == Touched(tr.states[k].table.heap[i].src, i)
             case HandlerDeliver(h, _) => h == i
             case _ => false
    ensures j < k && Stamps(tr.states[j], tr.events[j], i)
    ensures match tr.events[k]
            case Forward(t) => tr.events[j] == TouchSession(t)
            case _ => tr.events[j] == HandlerTouch(i) && forall m :: j < m < k ==> !OfHandler(tr.events[m], i)
  {
    TraceStep(tr, k);
    if tr.events[k].Forward? {
      j := CallerStamped(tr, k, tr.events[k].tid);
    } else {
      j := HandlerStamped(tr, k, i);
    }
  }

  lemma CallersKeepEntries(s: State, e: Event, key: string)
    requires WellTyped(s) && Enabled(s, e) && IsCallerEvent(e) && key in s.table.sessions
    ensures key in CallerStep(s, e).table.sessions && CallerStep(s, e).table.sessions[key] == s.table.sessions[key]
  {}

  lemma HandlersKeepEntries(s: State, e: Event, key: string)
    requires WellTyped(s) && Enabled(s, e) && IsHandlerEvent(e) && key in s.table.sessions && e != HandlerRemove(s.table.sessions[key])
    ensures key in HandlerStep(s, e).table.sessions && HandlerStep(s, e).table.sessions[key] == s.table.sessions[key]
  {}

  /** A session leaves the table through its own handler or through a pass that finds it expired,
      so without a timeout only its own handler can take it out. */
  lemma WhoRemoves(tr: Trace, k: nat, key: string)
    requires IsTrace(tr) && k < |tr.events| && key in tr.states[k].table.sessions
    requires var t' := tr.states[k+1].table;
             key !in t'.sessions || t'.sessions[key] != tr.states[k].table.sessions[key]
    ensures var own := HandlerRemove(tr.states[k].table.sessions[key]);
            && (tr.events[k] == own || tr.events[k] == CleanerPass)
            && (tr.states[k].timeout <= 0 ==> tr.events[k] == own)
  {
    var s, e := tr.states[k], tr.events[k];
    TraceStep(tr, k);
    if IsCallerEvent(e) {
      CallersKeepEntries(s, e, key);
    } else if IsHandlerEvent(e) && e != HandlerRemove(s.table.sessions[key]) {
      HandlersKeepEntries(s, e, key);
    }
  }

  // ----- Isolation -----

  /** Every datagram written so far went to a session of its own source, every reply to the source of its session. */
  lemma SessionsAreIsolated(tr: Trace, k: nat)
    requires IsTrace(tr) && k < |tr.states|
    ensures var s := tr.states[k];
            && (forall x :: x in s.sent ==> x.sess < |s.table.heap| && s.table.heap[x.sess].src == x.src && s.table.heap[x.sess].conn == x.conn)
            && (forall x :: x in s.replies ==> x.sess < |s.table.heap| && s.table.heap[x.sess].src == x.dst)
  {
    InvTrace(tr, k);
  }

  lemma RemoveSparesOthers(s: State, i: nat, j: nat)
    requires Inv(s) && At(s, i, Removing) && j < |s.table.heap| && j != i
    ensures var t, t' := s.table, Remove(s.table, s.handlers[i].src, i);
            && t'.heap[j] == t.heap[j] && (InTable(t', j) <==> InTable(t, j))
            && t'.heap[i].closes == 1 && !InTable(t', i)
  {
    assert HandlerOk(s, i);
  }

  /** A finishing handler leaves every other session alone, in particular a successor under the same address. */
  lemma SuccessorsSurvive(tr: Trace, k: nat, i: nat, j: nat)
    requires IsTrace(tr) && k < |tr.events| && tr.events[k] == HandlerRemove(i)
    requires j < |tr.states[k].table.heap| && j != i
    ensures var t, t' := tr.states[k].table, tr.states[k+1].table;
            && i < |t'.heap| == |t.heap|
            && t'.heap[j] == t.heap[j] && (InTable(t', j) <==> InTable(t, j))
            && t'.heap[i].closes == 1 && !InTable(t', i)
  {
    TraceStep(tr, k);
    RemoveSparesOthers(tr.states[k], i, j);
  }

  // ----- Draining -----

  predicate OfHandler(e: Event, i: nat) {
    IsHandlerEvent(e) && e.id == i
  }

  datatype Work = AnyStep | OneRead | OneDelivery

  predicate Is(w: Work, e: Event, i: nat) {
    OfHandler(e, i) && match w case AnyStep => true case OneRead => e.HandlerRead? case OneDelivery => e.HandlerDeliver?
  }

  function Count(w: Work, es: seq<Event>, i: nat): nat {
    if |es| == 0 then 0 else Count(w, es[..|es|-1], i) + if Is(w, es[|es|-1], i) then 1 else 0
  }

  lemma {:induction false} CountIsPaidFor(w: Work, es: seq<Event>, i: nat, budget: seq<int>)
    requires |budget| == |es| + 1
    requires forall k :: 0 <= k < |es| ==> budget[k+1] + (if Is(w, es[k], i) then 1 else 0) <= budget[k]
    ensures Count(w, es, i) + budget[|es|] <= budget[0]
  {
    if |es| > 0 {
      CountIsPaidFor(w, es[..|es|-1], i, budget[..|es|]);
    }
  }

  /** How much of each kind of work the handler of a closed session can still do from `pc`. */
  function Left(w: Work, pc: Pc): (n: nat)
    ensures n <= if w.AnyStep? then 6 else 1
  {
    match w
    case AnyStep =>
      (match pc
       case Reading => 6
       case Received => 5
       case Delivering => 4
       case TopCheck => 3
       case TimedOut => 3
       case Removing => 2
       case ClosingConn => 1
       case Finished => 0)
    case OneRead => if pc == Reading then 1 else 0
    case OneDelivery => if pc in {Reading, Received, Delivering} then 1 else 0
  }

  /** Where the handler of session i stands; one that has not been started yet will begin at the top. */
  function PcOf(s: State, i: nat): Pc {
    if i in s.handlers then s.handlers[i].pc else TopCheck
  }

  lemma OthersStep(s: State, e: Event, i: nat)
    requires WellTyped(s) && Enabled(s, e) && !OfHandler(e, i)
    requires e.Spawn? && s.callers[e.tid].sess == i ==> i !in s.handlers
    ensures PcOf(Step(s, e), i) == PcOf(s, i)
  {
    if IsCallerEvent(e) {
      CallersOnlySpawn(s, e, i);
    } else if IsHandlerEvent(e) {
      OtherHandlersStay(s, e, i);
    }
  }

  lemma OtherHandlersStay(s: State, e: Event, i: nat)
    requires WellTyped(s) && Enabled(s, e) && IsHandlerEvent(e) && e.id != i
    ensures PcOf(HandlerStep(s, e), i) == PcOf(s, i)
  {}

  lemma ClosedStep(s: State, e: Event, i: nat, w: Work)
    requires WellTyped(s) && Enabled(s, e) && OfHandler(e, i) && s.table.heap[i].closes > 0
    ensures Left(w, PcOf(HandlerStep(s, e), i)) + (if Is(w, e, i) then 1 else 0) <= Left(w, PcOf(s, i))
  {}

  predicate Draining(s: State, i: nat) {
    i < |s.table.heap| && s.table.heap[i].closes > 0
  }

  lemma TraceDrains(tr: Trace, k: nat, i: nat, w: Work)
    requires IsTrace(tr) && k < |tr.events| && Draining(tr.states[k], i)
    ensures Draining(tr.states[k+1], i)
    ensures Left(w, PcOf(tr.states[k+1], i)) + (if Is(w, tr.events[k], i) then 1 else 0) <= Left(w, PcOf(tr.states[k], i))
  {
    TraceStep(tr, k);
    TraceGrows(tr, k);
    if OfHandler(tr.events[k], i) {
      ClosedStep(tr.states[k], tr.events[k], i, w);
    } else {
      assert tr.events[k].Spawn? ==> CallerOk(tr.states[k], tr.events[k].tid);
      OthersStep(tr.states[k], tr.events[k], i);
    }
  }

  lemma {:induction false} StaysDraining(tr: Trace, a: nat, b: nat, i: nat)
    requires IsTrace(tr) && a <= b < |tr.states| && Draining(tr.states[a], i)
    ensures Draining(tr.states[b], i)
  {
    if a < b {
      StaysDraining(tr, a, b - 1, i);
      TraceDrains(tr, b - 1, i, AnyStep);
    }
  }

  /** Once the channel of session i is closed, whether or not its handler has been started, the work that handler does
      in any later stretch of the run is bounded by what Left allowed at the start: at most one more read, at most one
      more delivery and at most six steps, the last of which has closed the connection; and no read and no delivery if
      it had not been started. */
  lemma ClosedSessionDrains(tr: Trace, a: nat, b: nat, i: nat, w: Work)
    requires IsTrace(tr) && a <= b < |tr.states| && Draining(tr.states[a], i)
    ensures Draining(tr.states[b], i)
    ensures Count(w, tr.events[a..b], i) + Left(w, PcOf(tr.states[b], i)) <= Left(w, PcOf(tr.states[a], i))
    ensures i !in tr.states[a].handlers && !w.AnyStep? ==> Count(w, tr.events[a..b], i) == 0
  {
    forall k | a <= k <= b ensures Draining(tr.states[k], i) {
      StaysDraining(tr, a, k, i);
    }
    var es := tr.events[a..b];
    var budget := seq(b - a + 1, k requires 0 <= k <= b - a => Left(w, PcOf(tr.states[a+k], i)));
    forall k | 0 <= k < |es| ensures budget[k+1] + (if Is(w, es[k], i) then 1 else 0) <= budget[k] {
      TraceDrains(tr, a + k, i, w);
    }
    CountIsPaidFor(w, es, i, budget);
  }

  /** Nothing is left to do only when the handler has removed itself and closed its connection. */
  lemma DrainedIsClosed(tr: Trace, k: nat, i: nat)
    requires IsTrace(tr) && k < |tr.states| && Draining(tr.states[k], i)
    ensures Left(AnyStep, PcOf(tr.states[k], i)) == 0 <==>
            var s := tr.states[k]; s.table.heap[i].conn < |s.conns| && s.conns[s.table.heap[i].conn].closes == 1
  {
    InvTrace(tr, k);
    assert ConnOk(tr.states[k], tr.states[k].table.heap[i].conn);
    assert i in tr.states[k].handlers ==> HandlerOk(tr.states[k], i);
  }
}
