/**
 Every step keeps the invariant, so every state of every run satisfies it.
 The steps are put together from three kinds of change: a new table over the
 same session objects, a caller that moves between program points at which it
 owns nothing, and a handler that moves on before closing its connection.
 */
module SessionProofs {
  import opened Wrappers
  import opened SessionTable
  import opened SessionProtocol

  /** t' has the same sessions as t; only activity times and closed channels may have moved on. */
  predicate SameObjects(t: Table, t': Table) {
    && |t'.heap| == |t.heap|
    && forall i :: 0 <= i < |t.heap| ==>
         && t'.heap[i].src == t.heap[i].src
         && t'.heap[i].conn == t.heap[i].conn
         && t'.heap[i].published == t.heap[i].published
         && t.heap[i].closes <= t'.heap[i].closes
  }

  lemma InvNewTable(s: State, t': Table)
    requires Inv(s) && TableOk(t') && SameObjects(s.table, t')
    requires forall i :: 0 <= i < |t'.heap| ==> t'.heap[i].lastActive <= s.clock
    ensures Inv(s.(table := t'))
  {
    var s' := s.(table := t');
    forall c | 0 <= c < |s.conns| ensures ConnOk(s', c) { assert ConnOk(s, c); }
    forall t | t in s.callers ensures CallerOk(s', t) { assert CallerOk(s, t); }
  }

  predicate OwnsNothing(c: Caller) {
    c.Arrived? || c.Missed? || c.Ready? || c.Touched? || c.Done?
  }

  lemma InvGoto(s: State, t: nat, c: Caller)
    requires Inv(s) && OwnsNothing(c) && (t in s.callers ==> OwnsNothing(s.callers[t]))
    requires c.Ready? || c.Touched? ==> c.sess < |s.table.heap| && s.table.heap[c.sess].published && s.table.heap[c.sess].src == c.src
    ensures Inv(Goto(s, t, c))
  {
    var s' := Goto(s, t, c);
    forall k | 0 <= k < |s.conns| ensures ConnOk(s', k) { assert ConnOk(s, k); }
    forall u | u in s'.callers ensures CallerOk(s', u) { assert u != t ==> CallerOk(s, u); }
  }

  lemma InvJump(s: State, i: nat, pc: Pc)
    requires Inv(s) && i in s.handlers && s.handlers[i].pc != Finished && pc != Finished
    requires pc == ClosingConn ==> s.table.heap[i].closes == 1
    ensures Inv(Jump(s, i, pc))
  {
    var s' := Jump(s, i, pc);
    assert HandlerOk(s, i);
    forall k | 0 <= k < |s.conns| ensures ConnOk(s', k) { assert ConnOk(s, k); }
    forall u | u in s'.callers ensures CallerOk(s', u) { assert CallerOk(s, u); }
  }

  lemma InvTouch(s: State, i: nat)
    requires Inv(s) && i < |s.table.heap|
    ensures Inv(s.(table := Touch(s.table, i, s.clock)))
  {
    TouchKeepsTable(s.table, i, s.clock);
    InvNewTable(s, Touch(s.table, i, s.clock));
  }

  /** The logs, the clock and the cleaner's sample take no part in who owns what. */
  lemma InvFrame(s: State, s': State)
    requires Inv(s) && LogsOk(s') && ClockOk(s')
    requires s'.table == s.table && s'.conns == s.conns && s'.callers == s.callers && s'.handlers == s.handlers
    ensures Inv(s')
  {
    forall c | 0 <= c < |s.conns| ensures ConnOk(s', c) { assert ConnOk(s, c); }
    forall t | t in s.callers ensures CallerOk(s', t) { assert CallerOk(s, t); }
  }

  lemma EvictKeepsObjects(t: Table, now: int, idle: int)
    requires TableOk(t)
    ensures TableOk(Evict(t, now, idle)) && SameObjects(t, Evict(t, now, idle))
    ensures forall i :: 0 <= i < |t.heap| ==> Evict(t, now, idle).heap[i].lastActive == t.heap[i].lastActive
  {
    EvictKeepsTable(t, set k | k in t.sessions && Expired(t, k, now, idle));
  }

  lemma InvEvict(s: State)
    requires Inv(s) && Enabled(s, CleanerPass)
    ensures Inv(Step(s, CleanerPass))
  {
    var t' := Evict(s.table, s.cleaner.value, s.timeout * SECOND);
    EvictKeepsObjects(s.table, s.cleaner.value, s.timeout * SECOND);
    InvNewTable(s, t');
    InvFrame(s.(table := t'), s.(table := t', cleaner := None));
  }

  // ----- Callers -----

  lemma InvLookup(s: State, t: nat)
    requires Inv(s) && Enabled(s, Lookup(t))
    ensures Inv(Step(s, Lookup(t)))
  {
    var src := s.callers[t].src;
    if src in s.table.sessions {
      var i := s.table.sessions[src];
      InvTouch(s, i);
      InvGoto(s.(table := Touch(s.table, i, s.clock)), t, Ready(src, i));
    } else {
      InvGoto(s, t, Missed(src));
    }
  }

  lemma InvDial(s: State, t: nat, ok: bool)
    requires Inv(s) && Enabled(s, Dial(t, ok))
    ensures Inv(Step(s, Dial(t, ok)))
  {
    var s' := Step(s, Dial(t, ok));
    forall c | 0 <= c < |s.conns| ensures ConnOk(s', c) { assert ConnOk(s, c); }
  }

  function Building(s: State, t: nat): State
    requires Enabled(s, BuildSession(t)) && WellTyped(s)
  {
    Step(s, BuildSession(t))
  }

  lemma BuildKeepsConn(s: State, t: nat, k: nat)
    requires Inv(s) && Enabled(s, BuildSession(t)) && k < |s.conns|
    ensures ConnOk(Building(s, t), k)
  {
    assert CallerOk(s, t);
    assert ConnOk(s, k);
  }

  lemma BuildKeepsObjects(s: State, t: nat)
    requires Inv(s) && Enabled(s, BuildSession(t))
    ensures ObjectsOk(Building(s, t))
  {
    var c := s.callers[t];
    assert CallerOk(s, t) && ConnOk(s, c.conn);
    BuildKeepsTable(s.table, c.src, c.conn, s.clock);
  }

  lemma BuildKeepsCaller(s: State, t: nat, u: nat)
    requires Inv(s) && Enabled(s, BuildSession(t)) && u in s.callers && WellTyped(Building(s, t))
    ensures CallerOk(Building(s, t), u)
  {
    assert CallerOk(s, t) && CallerOk(s, u);
  }

  lemma InvBuild(s: State, t: nat)
    requires Inv(s) && Enabled(s, BuildSession(t))
    ensures Inv(Step(s, BuildSession(t)))
  {
    var s' := Building(s, t);
    BuildKeepsObjects(s, t);
    forall k | 0 <= k < |s.conns| ensures ConnOk(s', k) { BuildKeepsConn(s, t, k); }
    forall u | u in s.callers ensures CallerOk(s', u) { BuildKeepsCaller(s, t, u); }
  }

  /** Another caller's session is already in the table: the race is lost. */
  lemma InvYield(s: State, t: nat, w: nat)
    requires Inv(s) && t in s.callers && s.callers[t].Holding?
    requires w < |s.table.heap| && s.table.heap[w].published && s.table.heap[w].src == s.callers[t].src
    ensures Inv(Goto(s, t, LostRace(s.callers[t].src, s.callers[t].sess, w)))
  {
    var s' := Goto(s, t, LostRace(s.callers[t].src, s.callers[t].sess, w));
    assert CallerOk(s, t);
    forall k | 0 <= k < |s.conns| ensures ConnOk(s', k) { assert ConnOk(s, k); }
    forall u | u in s.callers ensures CallerOk(s', u) { assert CallerOk(s, u); }
  }

  function Publishing(s: State, t: nat): State
    requires WellTyped(s) && t in s.callers && s.callers[t].Holding?
  {
    var c := s.callers[t];
    assert CallerTyped(c, |s.table.heap|, |s.conns|);
    Goto(s.(table := Publish(s.table, c.src, c.sess)), t, Won(c.src, c.sess))
  }

  lemma PublishKeepsConn(s: State, t: nat, k: nat)
    requires Inv(s) && t in s.callers && s.callers[t].Holding? && k < |s.conns|
    ensures ConnOk(Publishing(s, t), k)
  {
    assert CallerOk(s, t);
    assert ConnOk(s, k);
  }

  lemma PublishKeepsCaller(s: State, t: nat, u: nat)
    requires Inv(s) && t in s.callers && s.callers[t].Holding? && u in s.callers
    ensures CallerOk(Publishing(s, t), u)
  {
    assert CallerOk(s, t);
    assert CallerOk(s, u);
  }

  lemma PublishKeepsHandler(s: State, t: nat, i: nat)
    requires Inv(s) && t in s.callers && s.callers[t].Holding? && i in s.handlers
    ensures i < |s.table.heap| && HandlerOk(Publishing(s, t), i)
  {
    assert HandlerOk(s, i);
  }

  lemma PublishKeepsTyped(s: State, t: nat)
    requires WellTyped(s) && t in s.callers && s.callers[t].Holding?
    ensures WellTyped(Publishing(s, t))
  {
    assert CallerTyped(s.callers[t], |s.table.heap|, |s.conns|);
  }

  lemma PublishKeepsObjects(s: State, t: nat)
    requires Inv(s) && t in s.callers && s.callers[t].Holding? && s.callers[t].src !in s.table.sessions
    ensures ObjectsOk(Publishing(s, t))
  {
    assert CallerOk(s, t);
    PublishKeepsTable(s.table, s.callers[t].src, s.callers[t].sess);
    PublishKeepsTyped(s, t);
    forall i | i in s.handlers ensures HandlerOk(Publishing(s, t), i) { PublishKeepsHandler(s, t, i); }
  }

  lemma InvPublish(s: State, t: nat)
    requires Inv(s) && t in s.callers && s.callers[t].Holding? && s.callers[t].src !in s.table.sessions
    ensures Inv(Publishing(s, t))
  {
    var s' := Publishing(s, t);
    PublishKeepsObjects(s, t);
    forall k | 0 <= k < |s.conns| ensures ConnOk(s', k) { PublishKeepsConn(s, t, k); }
    forall u | u in s.callers ensures CallerOk(s', u) { PublishKeepsCaller(s, t, u); }
  }

  lemma DropKeepsConn(s: State, t: nat, k: nat)
    requires Inv(s) && Enabled(s, DropDuplicate(t)) && k < |s.conns|
    ensures ConnOk(Step(s, DropDuplicate(t)), k)
  {
    assert CallerOk(s, t) && ConnOk(s, k);
  }

  lemma DropKeepsCaller(s: State, t: nat, u: nat)
    requires Inv(s) && Enabled(s, DropDuplicate(t)) && u in s.callers
    ensures CallerOk(Step(s, DropDuplicate(t)), u)
  {
    assert CallerOk(s, t) && CallerOk(s, u);
  }

  lemma InvDrop(s: State, t: nat)
    requires Inv(s) && Enabled(s, DropDuplicate(t))
    ensures Inv(Step(s, DropDuplicate(t)))
  {
    var s' := Step(s, DropDuplicate(t));
    forall c | 0 <= c < |s.conns| ensures ConnOk(s', c) { DropKeepsConn(s, t, c); }
    forall u | u in s.callers ensures CallerOk(s', u) { DropKeepsCaller(s, t, u); }
  }

  lemma SpawnKeepsConn(s: State, t: nat, k: nat)
    requires Inv(s) && Enabled(s, Spawn(t)) && k < |s.conns|
    ensures ConnOk(Step(s, Spawn(t)), k)
  {
    assert CallerOk(s, t) && ConnOk(s, k);
  }

  lemma SpawnKeepsCaller(s: State, t: nat, u: nat)
    requires Inv(s) && Enabled(s, Spawn(t)) && u in s.callers
    ensures CallerOk(Step(s, Spawn(t)), u)
  {
    assert CallerOk(s, t) && CallerOk(s, u);
  }

  lemma SpawnKeepsObjects(s: State, t: nat)
    requires Inv(s) && Enabled(s, Spawn(t))
    ensures ObjectsOk(Step(s, Spawn(t)))
  {
    assert CallerOk(s, t);
  }

  lemma InvSpawn(s: State, t: nat)
    requires Inv(s) && Enabled(s, Spawn(t))
    ensures Inv(Step(s, Spawn(t)))
  {
    var s' := Step(s, Spawn(t));
    SpawnKeepsObjects(s, t);
    forall c | 0 <= c < |s.conns| ensures ConnOk(s', c) { SpawnKeepsConn(s, t, c); }
    forall u | u in s.callers ensures CallerOk(s', u) { SpawnKeepsCaller(s, t, u); }
  }

  lemma InvForward(s: State, t: nat)
    requires Inv(s) && Enabled(s, Forward(t))
    ensures Inv(Step(s, Forward(t)))
  {
    assert CallerOk(s, t);
    InvGoto(s, t, Done);
    InvFrame(Goto(s, t, Done), Step(s, Forward(t)));
  }

  lemma InvTouchSession(s: State, t: nat)
    requires Inv(s) && Enabled(s, TouchSession(t))
    ensures Inv(Step(s, TouchSession(t)))
  {
    var c := s.callers[t];
    assert CallerOk(s, t);
    InvTouch(s, c.sess);
    InvGoto(s.(table := Touch(s.table, c.sess, s.clock)), t, Touched(c.src, c.sess));
  }

  // ----- Handlers -----

  lemma DeliverLogs(s: State, i: nat, d: DeliverOutcome)
    requires WellTyped(s) && LogsOk(s) && ClockOk(s) && Enabled(s, HandlerDeliver(i, d)) && s.handlers[i].src == s.table.heap[i].src
    ensures LogsOk(Step(s, HandlerDeliver(i, d))) && ClockOk(Step(s, HandlerDeliver(i, d)))
  {}

  lemma InvDeliver(s: State, i: nat, d: DeliverOutcome)
    requires Inv(s) && Enabled(s, HandlerDeliver(i, d))
    ensures Inv(Step(s, HandlerDeliver(i, d)))
  {
    assert HandlerOk(s, i);
    var pc := if d.Written? then TopCheck else Removing;
    DeliverLogs(s, i, d);
    InvJump(s, i, pc);
    InvFrame(Jump(s, i, pc), Step(s, HandlerDeliver(i, d)));
  }

  lemma InvRemove(s: State, i: nat)
    requires Inv(s) && Enabled(s, HandlerRemove(i))
    ensures Inv(Step(s, HandlerRemove(i)))
  {
    assert HandlerOk(s, i);
    RemoveKeepsTable(s.table, s.handlers[i].src, i);
    InvNewTable(s, Remove(s.table, s.handlers[i].src, i));
    InvJump(s.(table := Remove(s.table, s.handlers[i].src, i)), i, ClosingConn);
  }

  lemma InvClose(s: State, i: nat)
    requires Inv(s) && Enabled(s, HandlerClose(i))
    ensures Inv(Step(s, HandlerClose(i)))
  {
    var s' := Step(s, HandlerClose(i));
    assert HandlerOk(s, i);
    forall c | 0 <= c < |s.conns| ensures ConnOk(s', c) { assert ConnOk(s, c); }
    forall u | u in s.callers ensures CallerOk(s', u) { assert CallerOk(s, u); }
  }

  lemma InvPublishOrYield(s: State, t: nat)
    requires Inv(s) && Enabled(s, PublishSession(t))
    ensures Inv(Step(s, PublishSession(t)))
  {
    if s.callers[t].src in s.table.sessions {
      var w := s.table.sessions[s.callers[t].src];
      InvTouch(s, w);
      InvYield(s.(table := Touch(s.table, w, s.clock)), t, w);
    } else {
      InvPublish(s, t);
    }
  }

  lemma InvHandlerTouch(s: State, i: nat)
    requires Inv(s) && Enabled(s, HandlerTouch(i))
    ensures Inv(Step(s, HandlerTouch(i)))
  {
    InvTouch(s, i);
    InvJump(s.(table := Touch(s.table, i, s.clock)), i, Delivering);
  }

  lemma InvCaller(s: State, e: Event)
    requires Inv(s) && Enabled(s, e) && IsCallerEvent(e)
    ensures Inv(Step(s, e))
  {
    match e
    case Lookup(t) => InvLookup(s, t);
    case Dial(t, ok) => InvDial(s, t, ok);
    case BuildSession(t) => InvBuild(s, t);
    case PublishSession(t) => InvPublishOrYield(s, t);
    case DropDuplicate(t) => InvDrop(s, t);
    case Spawn(t) => InvSpawn(s, t);
    case TouchSession(t) => InvTouchSession(s, t);
    case Forward(t) => InvForward(s, t);
  }

  lemma InvHandler(s: State, e: Event)
    requires Inv(s) && Enabled(s, e) && IsHandlerEvent(e)
    ensures Inv(Step(s, e))
  {
    match e
    case HandlerCheck(i) => InvJump(s, i, if s.table.heap[i].closes > 0 then Removing else Reading);
    case HandlerRead(i, r) => InvJump(s, i, if r.Data? then Received else if r.Timeout? then TimedOut else Removing);
    case HandlerTimeout(i) => InvJump(s, i, if s.table.heap[i].closes > 0 then Removing else TopCheck);
    case HandlerTouch(i) => InvHandlerTouch(s, i);
    case HandlerDeliver(i, d) => InvDeliver(s, i, d);
    case HandlerRemove(i) => InvRemove(s, i);
    case HandlerClose(i) => InvClose(s, i);
  }

  lemma InvTick(s: State, now: int)
    requires Inv(s) && Enabled(s, Tick(now))
    ensures Inv(Step(s, Tick(now)))
  {
    InvFrame(s, s.(clock := now));
  }

  lemma InvArrive(s: State, t: nat, src: string)
    requires Inv(s) && Enabled(s, Arrive(t, src))
    ensures Inv(Step(s, Arrive(t, src)))
  {
    InvGoto(s, t, Arrived(src));
  }

  lemma InvSample(s: State)
    requires Inv(s) && Enabled(s, CleanerSample)
    ensures Inv(Step(s, CleanerSample))
  {
    InvFrame(s, s.(cleaner := Some(s.clock)));
  }

  lemma InvOther(s: State, e: Event)
    requires Inv(s) && Enabled(s, e) && !IsCallerEvent(e) && !IsHandlerEvent(e)
    ensures Inv(Step(s, e))
  {
    match e
    case Tick(now) => InvTick(s, now);
    case Arrive(t, src) => InvArrive(s, t, src);
    case CleanerSample => InvSample(s);
    case CleanerPass => InvEvict(s);
  }

  lemma InvNext(s: State, e: Event)
    requires Inv(s) && Enabled(s, e)
    ensures Inv(Step(s, e))
  {
    if IsCallerEvent(e) {
      InvCaller(s, e);
    } else if IsHandlerEvent(e) {
      InvHandler(s, e);
    } else {
      InvOther(s, e);
    }
  }

  lemma {:induction false} InvTrace(tr: Trace, k: nat)
    requires IsTrace(tr) && k < |tr.states|
    ensures Inv(tr.states[k])
  {
    if k > 0 {
      InvTrace(tr, k - 1);
      assert Taken(tr, k - 1);
      InvNext(tr.states[k-1], tr.events[k-1]);
    }
  }
}
