/** What becomes of the datagrams: every run of the UDP proxy tunnel, told by its events and logs. */
module SessionRelay {
  import opened Wrappers
  import opened SessionTable
  import opened SessionProtocol
  import opened SessionProofs
  import opened SessionTheorems

  // ----- From the remote side to the client -----

  /** What a handler does in one step. */
  datatype Deed = LoopPassed | AnyRead | DataRead | TimeoutRead | TimeoutSeen | Stamped | Delivered

  /** Step k of the run is a deed of the handler of session i. */
  predicate Does(tr: Trace, k: nat, i: nat, d: Deed)
    requires k < |tr.events| && k < |tr.states|
  {
    var e := tr.events[k];
    match d
    case LoopPassed => e == HandlerCheck(i) && i < |tr.states[k].table.heap| && tr.states[k].table.heap[i].closes == 0
    case AnyRead => e.HandlerRead? && e.id == i
    case DataRead => e == HandlerRead(i, Data)
    case TimeoutRead => e == HandlerRead(i, Timeout)
    case TimeoutSeen => e == HandlerTimeout(i)
    case Stamped => e == HandlerTouch(i)
    case Delivered => e.HandlerDeliver? && e.id == i
  }

  /** How often the handler has done so before step k. */
  function Tally(tr: Trace, k: nat, i: nat, d: Deed): nat
    requires k <= |tr.events| && |tr.states| == |tr.events| + 1
  {
    if k == 0 then 0 else Tally(tr, k - 1, i, d) + if Does(tr, k - 1, i, d) then 1 else 0
  }

  function One(b: bool): nat {
    if b then 1 else 0
  }

  /** The deed that a handler at `pc` has done and not yet followed up, and the one that follows it up. */
  function Opens(pc: Pc): Option<(Deed, Deed)> {
    match pc
    case Reading => Some((LoopPassed, AnyRead))
    case TimedOut => Some((TimeoutRead, TimeoutSeen))
    case Received => Some((DataRead, Stamped))
    case Delivering => Some((Stamped, Delivered))
    case _ => None
  }

  lemma OwnStep(tr: Trace, k: nat, i: nat, pc: Pc)
    requires k < |tr.events| && |tr.states| == |tr.events| + 1 && Opens(pc).Some?
    requires WellTyped(tr.states[k]) && Enabled(tr.states[k], tr.events[k]) && OfHandler(tr.events[k], i)
    requires tr.states[k+1] == HandlerStep(tr.states[k], tr.events[k])
    ensures One(At(tr.states[k+1], i, pc)) + One(Does(tr, k, i, Opens(pc).value.1)) ==
            One(At(tr.states[k], i, pc)) + One(Does(tr, k, i, Opens(pc).value.0))
  {
  }

  lemma OthersStepAt(s: State, e: Event, i: nat, pc: Pc)
    requires Inv(s) && Enabled(s, e) && !OfHandler(e, i) && pc != TopCheck
    ensures At(Step(s, e), i, pc) <==> At(s, i, pc)
  {
    assert e.Spawn? ==> CallerOk(s, e.tid);
    if IsCallerEvent(e) {
      CallersOnlySpawn(s, e, i);
    } else if IsHandlerEvent(e) {
      OtherHandlerAt(s, e, i, pc);
    }
  }

  lemma OtherHandlerAt(s: State, e: Event, i: nat, pc: Pc)
    requires WellTyped(s) && Enabled(s, e) && IsHandlerEvent(e) && e.id != i
    ensures At(HandlerStep(s, e), i, pc) <==> At(s, i, pc)
  {}

  lemma HandlerEventSteps(s: State, e: Event)
    requires WellTyped(s) && Enabled(s, e) && IsHandlerEvent(e)
    ensures Step(s, e) == HandlerStep(s, e)
  {}

  /** One step keeps the balance. */
  lemma BalanceStep(tr: Trace, k: nat, i: nat, pc: Pc)
    requires IsTrace(tr) && k < |tr.events| && Opens(pc).Some?
    ensures One(At(tr.states[k+1], i, pc)) + One(Does(tr, k, i, Opens(pc).value.1)) ==
            One(At(tr.states[k], i, pc)) + One(Does(tr, k, i, Opens(pc).value.0))
  {
    TraceStep(tr, k);
    var s, e := tr.states[k], tr.events[k];
    if OfHandler(e, i) {
      HandlerEventSteps(s, e);
      OwnStep(tr, k, i, pc);
    } else {
      OthersStepAt(s, e, i, pc);
    }
  }

  /** What the handler of a session does is followed up exactly once, before anything else: a loop turn that finds the
      channel open by a read, a timeout by the second look at the channel, a datagram by a stamp, and the stamp by a
      delivery to the client. */
  lemma {:induction false} HandlerBalance(tr: Trace, k: nat, i: nat, pc: Pc)
    requires IsTrace(tr) && k < |tr.states| && Opens(pc).Some?
    ensures Tally(tr, k, i, Opens(pc).value.0) == Tally(tr, k, i, Opens(pc).value.1) + One(At(tr.states[k], i, pc))
  {
    if k > 0 {
      HandlerBalance(tr, k - 1, i, pc);
      BalanceStep(tr, k - 1, i, pc);
    }
  }

  /** Every datagram read from the remote side is delivered: the reads that returned data are as many as the deliveries,
      and one more exactly while the handler has a datagram in hand. */
  lemma ReadsAreDelivered(tr: Trace, k: nat, i: nat)
    requires IsTrace(tr) && k < |tr.states|
    ensures Tally(tr, k, i, DataRead) ==
            Tally(tr, k, i, Delivered) + One(At(tr.states[k], i, Received) || At(tr.states[k], i, Delivering))
  {
    HandlerBalance(tr, k, i, Received);
    HandlerBalance(tr, k, i, Delivering);
  }

  /** The replies that the deliveries before step k write: to the source of the session, in order, unless the address
      of the client cannot be resolved. */
  function RepliesOf(tr: Trace, k: nat): seq<Reply>
    requires k <= |tr.events| && |tr.states| == |tr.events| + 1
  {
    if k == 0 then []
    else
      var before, e, t := RepliesOf(tr, k - 1), tr.events[k-1], tr.states[k-1].table;
      if e.HandlerDeliver? && e.delivery != ResolveFailed && e.id < |t.heap| then before + [Reply(e.id, t.heap[e.id].src)]
      else before
  }

  lemma StepReplies(s: State, e: Event)
    requires WellTyped(s) && Enabled(s, e)
    requires e.HandlerDeliver? ==> s.handlers[e.id].src == s.table.heap[e.id].src
    ensures Step(s, e).replies ==
            s.replies + if e.HandlerDeliver? && e.delivery != ResolveFailed then [Reply(e.id, s.table.heap[e.id].src)] else []
  {}

  lemma HandlerKnowsSource(tr: Trace, k: nat)
    requires IsTrace(tr) && k < |tr.events|
    ensures var s, e := tr.states[k], tr.events[k];
            e.HandlerDeliver? ==> e.id in s.handlers && e.id < |s.table.heap| && s.handlers[e.id].src == s.table.heap[e.id].src
  {
    TraceStep(tr, k);
    assert tr.events[k].HandlerDeliver? ==> HandlerOk(tr.states[k], tr.events[k].id);
  }

  /** The log of replies is exactly that: nothing is lost, doubled, reordered or sent elsewhere. */
  lemma {:induction false} RepliesAreExact(tr: Trace, k: nat)
    requires IsTrace(tr) && k < |tr.states|
    ensures tr.states[k].replies == RepliesOf(tr, k)
  {
    if k > 0 {
      RepliesAreExact(tr, k - 1);
      assert Taken(tr, k - 1);
      HandlerKnowsSource(tr, k - 1);
      StepReplies(tr.states[k-1], tr.events[k-1]);
    }
  }

  lemma OwnStepRemoving(s: State, e: Event, i: nat)
    requires WellTyped(s) && Enabled(s, e) && OfHandler(e, i)
    ensures At(HandlerStep(s, e), i, Removing) <==>
              || e == HandlerRead(i, Failed)
              || (e.HandlerDeliver? && !e.delivery.Written?)
              || ((e.HandlerCheck? || e.HandlerTimeout?) && s.table.heap[i].closes > 0)
  {}

  /** A handler gives up exactly when a read fails, when a delivery fails, or when one of its two looks at the channel
      finds it closed. In particular the handler of an open session goes on until a read or a delivery fails. */
  lemma GivesUpIff(tr: Trace, k: nat, i: nat)
    requires IsTrace(tr) && k < |tr.events|
    ensures !At(tr.states[k], i, Removing) && At(tr.states[k+1], i, Removing) <==>
              || tr.events[k] == HandlerRead(i, Failed)
              || tr.events[k] == HandlerDeliver(i, ResolveFailed) || tr.events[k] == HandlerDeliver(i, WriteFailed)
              || ((tr.events[k] == HandlerCheck(i) || tr.events[k] == HandlerTimeout(i)) &&
                  i < |tr.states[k].table.heap| && tr.states[k].table.heap[i].closes > 0)
  {
    TraceStep(tr, k);
    if OfHandler(tr.events[k], i) {
      HandlerEventSteps(tr.states[k], tr.events[k]);
      OwnStepRemoving(tr.states[k], tr.events[k], i);
    } else {
      OthersStepAt(tr.states[k], tr.events[k], i, Removing);
    }
  }

  // ----- From the client to the remote side -----

  /** The writes that the Forward steps before step k make: on the session its caller holds, over the connection of
      that session, in order. */
  function SentBy(tr: Trace, k: nat): seq<Sent>
    requires k <= |tr.events| && |tr.states| == |tr.events| + 1
  {
    if k == 0 then []
    else
      var before, e, s := SentBy(tr, k - 1), tr.events[k-1], tr.states[k-1];
      if e.Forward? && e.tid in s.callers && s.callers[e.tid].Touched? && s.callers[e.tid].sess < |s.table.heap| then
        var c := s.callers[e.tid];
        before + [Sent(s.table.heap[c.sess].src, c.sess, s.table.heap[c.sess].conn)]
      else before
  }

  lemma StepSent(s: State, e: Event)
    requires WellTyped(s) && Enabled(s, e)
    ensures Step(s, e).sent == s.sent + if e.Forward? then [Sent(s.callers[e.tid].src, s.callers[e.tid].sess, s.table.heap[s.callers[e.tid].sess].conn)] else []
  {}

  lemma {:induction false} SentIsExact(tr: Trace, k: nat)
    requires IsTrace(tr) && k < |tr.states|
    ensures tr.states[k].sent == SentBy(tr, k)
  {
    if k > 0 {
      SentIsExact(tr, k - 1);
      TraceStep(tr, k - 1);
      var s, e := tr.states[k-1], tr.events[k-1];
      assert e.Forward? ==> CallerOk(s, e.tid) && CallerTyped(s.callers[e.tid], |s.table.heap|, |s.conns|);
      StepSent(s, e);
    }
  }

  /** Step k is the end of caller t: its datagram is forwarded, or its dial has failed. */
  predicate Ends(e: Event, t: nat) {
    e == Forward(t) || e == Dial(t, false)
  }

  function EndsBefore(es: seq<Event>, k: nat, t: nat): nat
    requires k <= |es|
  {
    if k == 0 then 0 else EndsBefore(es, k - 1, t) + One(Ends(es[k-1], t))
  }

  predicate IsDone(s: State, t: nat) {
    t in s.callers && s.callers[t].Done?
  }

  lemma CallerStepDone(s: State, e: Event, t: nat)
    requires WellTyped(s) && Enabled(s, e) && IsCallerEvent(e)
    ensures One(IsDone(CallerStep(s, e), t)) == One(IsDone(s, t)) + One(Ends(e, t))
  {}

  lemma StepDone(s: State, e: Event, t: nat)
    requires WellTyped(s) && Enabled(s, e)
    ensures One(IsDone(Step(s, e), t)) == One(IsDone(s, t)) + One(Ends(e, t))
  {
    if IsCallerEvent(e) {
      CallerStepDone(s, e, t);
    } else if IsHandlerEvent(e) {
      HandlersKeepCallers(s, e);
    }
  }

  /** Every datagram that arrives is forwarded once, or its dial has failed once: a caller that is done has ended in
      exactly one of the two ways, and one that is not has not ended. */
  lemma {:induction false} EndsOnce(tr: Trace, k: nat, t: nat)
    requires IsTrace(tr) && k < |tr.states|
    ensures EndsBefore(tr.events, k, t) == One(IsDone(tr.states[k], t))
  {
    if k > 0 {
      EndsOnce(tr, k - 1, t);
      assert Taken(tr, k - 1);
      StepDone(tr.states[k-1], tr.events[k-1], t);
    }
  }

  // ----- Which session a datagram goes to -----

  /** The lookup of caller t at step j found no session of its source. */
  predicate MissedAt(tr: Trace, j: nat, t: nat, src: string)
    requires j < |tr.events| && j < |tr.states|
  {
    tr.events[j] == Lookup(t) && src !in tr.states[j].table.sessions
  }

  /** The lookup of caller t at step j found session i of its source. */
  predicate FoundAt(tr: Trace, j: nat, t: nat, src: string, i: nat)
    requires j < |tr.events| && j < |tr.states|
  {
    tr.events[j] == Lookup(t) && src in tr.states[j].table.sessions && tr.states[j].table.sessions[src] == i
  }

  /** The second critical section of caller t at step j left session i in the table. */
  predicate SettledAt(tr: Trace, j: nat, t: nat, src: string, i: nat)
    requires j < |tr.events| && |tr.states| == |tr.events| + 1
  {
    tr.events[j] == PublishSession(t) && src in tr.states[j+1].table.sessions && tr.states[j+1].table.sessions[src] == i
  }

  /** What the caller must have seen before it stands where it stands. */
  ghost predicate Story(tr: Trace, k: nat, t: nat, c: Caller)
    requires k <= |tr.events| && |tr.states| == |tr.events| + 1
  {
    match c
    case Arrived(src) => Came(tr, k, t, src)
    case Missed(src) => Came(tr, k, t, src) && Missing(tr, k, t, src)
    case Dialled(src, _) => Came(tr, k, t, src) && Missing(tr, k, t, src)
    case Holding(src, _) => Came(tr, k, t, src) && Missing(tr, k, t, src)
    case LostRace(src, _, w) => Came(tr, k, t, src) && Missing(tr, k, t, src) && Settled(tr, k, t, src, w)
    case Won(src, i) => Came(tr, k, t, src) && Missing(tr, k, t, src) && Settled(tr, k, t, src, i)
    case Ready(src, i) => Came(tr, k, t, src) && Got(tr, k, t, src, i)
    case Touched(src, i) => Came(tr, k, t, src) && Got(tr, k, t, src, i)
    case Done => true
  }

  ghost predicate Came(tr: Trace, k: nat, t: nat, src: string)
    requires k <= |tr.events|
  {
    exists j :: 0 <= j < k && tr.events[j] == Arrive(t, src)
  }

  ghost predicate Missing(tr: Trace, k: nat, t: nat, src: string)
    requires k <= |tr.events| && |tr.states| == |tr.events| + 1
  {
    exists j :: 0 <= j < k && MissedAt(tr, j, t, src)
  }

  ghost predicate Settled(tr: Trace, k: nat, t: nat, src: string, i: nat)
    requires k <= |tr.events| && |tr.states| == |tr.events| + 1
  {
    exists j :: 0 <= j < k && SettledAt(tr, j, t, src, i)
  }

  ghost predicate Got(tr: Trace, k: nat, t: nat, src: string, i: nat)
    requires k <= |tr.events| && |tr.states| == |tr.events| + 1
  {
    (exists j :: 0 <= j < k && FoundAt(tr, j, t, src, i)) || (Missing(tr, k, t, src) && Settled(tr, k, t, src, i))
  }

  lemma StoryStays(tr: Trace, k: nat, t: nat, c: Caller)
    requires k < |tr.events| && |tr.states| == |tr.events| + 1 && Story(tr, k, t, c)
    ensures Story(tr, k + 1, t, c)
  {}

  lemma OtherCallersStay(s: State, e: Event, t: nat)
    requires WellTyped(s) && Enabled(s, e) && !(IsCallerEvent(e) && e.tid == t) && !(e.Arrive? && e.tid == t)
    ensures t in Step(s, e).callers <==> t in s.callers
    ensures t in s.callers ==> Step(s, e).callers[t] == s.callers[t]
  {
    if IsHandlerEvent(e) {
      HandlersKeepCallers(s, e);
    } else if IsCallerEvent(e) {
      OtherCallerStays(s, e, t);
    }
  }

  lemma OtherCallerStays(s: State, e: Event, t: nat)
    requires WellTyped(s) && Enabled(s, e) && IsCallerEvent(e) && e.tid != t
    ensures t in CallerStep(s, e).callers <==> t in s.callers
    ensures t in s.callers ==> CallerStep(s, e).callers[t] == s.callers[t]
  {}

  lemma StoryGoesOn(tr: Trace, k: nat, t: nat)
    requires k < |tr.events| && |tr.states| == |tr.events| + 1 && WellTyped(tr.states[k]) && Enabled(tr.states[k], tr.events[k])
    requires IsCallerEvent(tr.events[k]) && tr.events[k].tid == t && Story(tr, k, t, tr.states[k].callers[t])
    requires tr.states[k+1] == CallerStep(tr.states[k], tr.events[k])
    ensures t in tr.states[k+1].callers && Story(tr, k + 1, t, tr.states[k+1].callers[t])
  {
    var c := tr.states[k].callers[t];
    StoryStays(tr, k, t, c);
    if tr.events[k].Lookup? {
      assert MissedAt(tr, k, t, c.src) || FoundAt(tr, k, t, c.src, tr.states[k].table.sessions[c.src]);
    } else if tr.events[k].PublishSession? {
      assert SettledAt(tr, k, t, c.src, tr.states[k+1].table.sessions[c.src]);
    }
  }

  lemma CallerEventSteps(s: State, e: Event)
    requires WellTyped(s) && Enabled(s, e) && IsCallerEvent(e)
    ensures Step(s, e) == CallerStep(s, e)
  {}

  lemma {:induction false} CallersHaveStories(tr: Trace, k: nat, t: nat)
    requires IsTrace(tr) && k < |tr.states| && t in tr.states[k].callers
    ensures Story(tr, k, t, tr.states[k].callers[t])
  {
    assert k > 0;
    assert Taken(tr, k - 1);
    var s, e := tr.states[k-1], tr.events[k-1];
    if e.Arrive? && e.tid == t {
      assert tr.events[k-1] == Arrive(t, e.src);
    } else if IsCallerEvent(e) && e.tid == t {
      CallersHaveStories(tr, k - 1, t);
      CallerEventSteps(s, e);
      StoryGoesOn(tr, k - 1, t);
    } else {
      OtherCallersStay(s, e, t);
      CallersHaveStories(tr, k - 1, t);
      StoryStays(tr, k - 1, t, s.callers[t]);
    }
  }

  /** A datagram goes to the session that its lookup found in the table under its own source; only if there was none is
      a connection dialled, and then it goes to the session that the second critical section leaves in the table. */
  lemma ForwardedTo(tr: Trace, k: nat, t: nat)
    requires IsTrace(tr) && k < |tr.events| && tr.events[k] == Forward(t)
    ensures |tr.states[k+1].sent| > 0
    ensures var x := tr.states[k+1].sent[|tr.states[k+1].sent|-1];
            Came(tr, k, t, x.src) && Got(tr, k, t, x.src, x.sess)
  {
    TraceStep(tr, k);
    CallersHaveStories(tr, k, t);
    StepSent(tr.states[k], tr.events[k]);
  }

  lemma DialsOnlyIfMissing(tr: Trace, k: nat, t: nat, ok: bool)
    requires IsTrace(tr) && k < |tr.events| && tr.events[k] == Dial(t, ok)
    ensures exists src :: Came(tr, k, t, src) && Missing(tr, k, t, src)
  {
    TraceStep(tr, k);
    CallersHaveStories(tr, k, t);
    assert Came(tr, k, t, tr.states[k].callers[t].src);
  }
}
