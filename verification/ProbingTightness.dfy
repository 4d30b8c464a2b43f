/** The margin of ProbingMargin cannot be improved: one nanosecond more and a healthy link is reported stale. */
module ProbingTightness {
  import opened Wrappers
  import opened Health
  import opened Probing
  import opened ProbingTheorems
  import opened ProbingMargin

  function End(tr: Trace): State
    requires |tr.states| > 0
  {
    tr.states[|tr.states|-1]
  }

  ghost predicate Run(tr: Trace, b: Bounds) {
    IsTrace(tr) && Healthy(tr, b)
  }

  // ----- Extending a healthy run -----

  function Append(tr: Trace, e: Event): Trace
    requires |tr.states| > 0 && Enabled(End(tr), e)
  {
    Trace(tr.states + [Step(End(tr), e)], tr.events + [e])
  }

  lemma Extend(tr: Trace, b: Bounds, e: Event)
    requires Run(tr, b) && Enabled(End(tr), e) && LosslessEvent(e) && TimelyState(Step(End(tr), e), b)
    ensures Run(Append(tr, e), b) && End(Append(tr, e)) == Step(End(tr), e)
    ensures Append(tr, e).states[0] == tr.states[0]
  {
    var tr' := Append(tr, e);
    forall k | 0 <= k < |tr'.events| ensures Taken(tr', k) && LosslessEvent(tr'.events[k]) {
      assert k < |tr.events| ==> Taken(tr, k) && LosslessEvent(tr.events[k]);
    }
    forall k | 0 <= k < |tr'.states| ensures TimelyState(tr'.states[k], b) {
      assert k < |tr.states| ==> TimelyState(tr.states[k], b);
    }
  }

  /** The run goes on to a state in which at most connection j has changed. */
  ghost predicate Moves(tr: Trace, tr': Trace, b: Bounds, j: nat) {
    && |tr.states| > 0 && Run(tr', b) && tr'.states[0] == tr.states[0]
    && End(tr').clock == End(tr).clock && End(tr').serving == End(tr).serving
    && j < |End(tr).links| == |End(tr').links|
    && End(tr').links == End(tr).links[j := End(tr').links[j]]
  }

  lemma Act(tr: Trace, b: Bounds, j: nat, e: LinkEvent) returns (tr': Trace)
    requires Run(tr, b) && Enabled(End(tr), On(j, e)) && Lossless(e)
    requires Timely(LinkStep(End(tr).links[j], End(tr).clock, e), End(tr).clock, b)
    ensures Moves(tr, tr', b, j) && End(tr').links[j] == LinkStep(End(tr).links[j], End(tr).clock, e)
  {
    assert TimelyState(End(tr), b);
    Extend(tr, b, On(j, e));
    tr' := Append(tr, On(j, e));
  }

  lemma TickTo(tr: Trace, b: Bounds, t: int) returns (tr': Trace)
    requires Run(tr, b) && End(tr).clock <= t && forall j :: 0 <= j < |End(tr).links| ==> Timely(End(tr).links[j], t, b)
    ensures Run(tr', b) && tr'.states[0] == tr.states[0] && End(tr') == End(tr).(clock := t)
  {
    Extend(tr, b, Tick(t));
    tr' := Append(tr, Tick(t));
  }

  lemma Now(tr: Trace, b: Bounds, j: nat)
    requires Run(tr, b) && j < |End(tr).links|
    ensures Timely(End(tr).links[j], End(tr).clock, b)
  {
    assert TimelyState(End(tr), b);
  }

  // ----- Rounds -----

  function NewProbes(addrs: seq<string>, from: nat, round: int): (r: seq<Probe>)
    requires from <= |addrs|
    ensures |r| == |addrs| - from && forall k :: 0 <= k < |r| ==> r[k] == Probe(addrs[from+k], round, false)
  {
    seq(|addrs| - from, k requires 0 <= k < |addrs| - from => Probe(addrs[from+k], round, false))
  }

  /** The connection after it has dialled the rest of its addresses. */
  function Launched(l: Link): Link
    requires l.phase.Pinging? && l.phase.next <= |l.addrs|
  {
    l.(phase := Pinging(l.phase.round, |l.addrs|), probes := l.probes + NewProbes(l.addrs, l.phase.next, l.phase.round))
  }

  lemma LaunchOne(l: Link, now: int, b: Bounds)
    requires l.phase.Pinging? && l.phase.next < |l.addrs| && l.phase.round == now && Timely(l, now, b)
    ensures var l' := LinkStep(l, now, Launch(true));
            Timely(l', now, b) && l'.phase.Pinging? && l'.phase.next == l.phase.next + 1 && Launched(l') == Launched(l)
  {
    var l' := LinkStep(l, now, Launch(true));
    var probe := Probe(l.addrs[l.phase.next], now, false);
    assert l.probes + NewProbes(l.addrs, l.phase.next, now) == (l.probes + [probe]) + NewProbes(l.addrs, l.phase.next + 1, now);
  }

  lemma {:induction false} LaunchAll(tr: Trace, b: Bounds, j: nat) returns (tr': Trace)
    requires Run(tr, b) && j < |End(tr).links|
    requires var l := End(tr).links[j]; l.phase.Pinging? && l.phase.round == End(tr).clock && l.phase.next <= |l.addrs|
    ensures Moves(tr, tr', b, j) && End(tr').links[j] == Launched(End(tr).links[j])
    decreases |End(tr).links[j].addrs| - End(tr).links[j].phase.next
  {
    var l := End(tr).links[j];
    Now(tr, b, j);
    if l.phase.next == |l.addrs| {
      tr' := tr;
      assert Launched(l).probes == l.probes;
    } else {
      LaunchOne(l, End(tr).clock, b);
      tr' := Act(tr, b, j, Launch(true));
      tr' := LaunchAll(tr', b, j);
    }
  }

  /** A whole round at the present moment, with the answers to its probes still out. */
  lemma HoldRound(tr: Trace, b: Bounds, j: nat) returns (tr': Trace)
    requires Run(tr, b) && j < |End(tr).links| && LinkEnabled(End(tr).links[j], End(tr).clock, BeginRound)
    ensures Moves(tr, tr', b, j)
    ensures var l, now := End(tr).links[j], End(tr).clock;
            End(tr').links[j] == l.(phase := Sleeping(now, now + Sleep(l.interval)), probes := l.probes + NewProbes(l.addrs, 0, now))
  {
    Now(tr, b, j);
    tr' := Act(tr, b, j, BeginRound);
    tr' := LaunchAll(tr', b, j);
    Now(tr', b, j);
    tr' := Act(tr', b, j, EndRound);
  }

  predicate AllDone(probes: seq<Probe>, n: nat)
    requires n <= |probes|
  {
    forall p :: 0 <= p < n ==> probes[p].done
  }

  predicate AllKnown(l: Link) {
    forall p :: 0 <= p < |l.probes| ==> l.probes[p].addr in l.records
  }

  /** Every record is as before or says the present second. */
  predicate Refreshed(l: Link, l': Link, now: int) {
    && l'.records.Keys == l.records.Keys
    && forall a :: a in l.records ==> l'.records[a] == l.records[a] || l'.records[a] == Sec(now)
  }

  /** All answers that are out arrive at the present moment. */
  lemma {:induction false} AnswerAll(tr: Trace, b: Bounds, j: nat, n: nat) returns (tr': Trace)
    requires Run(tr, b) && j < |End(tr).links| && n <= |End(tr).links[j].probes|
    requires AllDone(End(tr).links[j].probes, n) && AllKnown(End(tr).links[j])
    ensures Moves(tr, tr', b, j)
    ensures var l, l' := End(tr).links[j], End(tr').links[j];
            && AllDone(l'.probes, |l'.probes|) && AllKnown(l') && Refreshed(l, l', End(tr).clock)
            && l' == l.(probes := l'.probes, records := l'.records)
    decreases |End(tr).links[j].probes| - n
  {
    var l := End(tr).links[j];
    tr' := tr;
    if n < |l.probes| {
      if !l.probes[n].done {
        Now(tr, b, j);
        tr' := Act(tr, b, j, Pong(n));
      }
      tr' := AnswerAll(tr', b, j, n + 1);
    }
  }

  /** Between two rounds, nothing in flight, and the next round can start in time. */
  predicate Quiet(l: Link) {
    && l.phase.Sleeping? && l.phase.wake == l.phase.round + Sleep(l.interval)
    && AllDone(l.probes, |l.probes|) && AllKnown(l) && (forall a :: a in l.addrs ==> a in l.records)
  }

  predicate SameButPinged(l: Link, l': Link) {
    SameConfig(l, l') && l'.copies == l.copies
  }

  lemma PlayRound(tr: Trace, b: Bounds, j: nat) returns (tr': Trace)
    requires Run(tr, b) && j < |End(tr).links| && LinkEnabled(End(tr).links[j], End(tr).clock, BeginRound)
    requires var l := End(tr).links[j]; AllDone(l.probes, |l.probes|) && AllKnown(l) && forall a :: a in l.addrs ==> a in l.records
    ensures Moves(tr, tr', b, j)
    ensures var l, l' := End(tr).links[j], End(tr').links[j];
            && Quiet(l') && l'.phase.round == End(tr).clock && SameButPinged(l, l') && Refreshed(l, l', End(tr).clock)
  {
    tr' := HoldRound(tr, b, j);
    tr' := AnswerAll(tr', b, j, |End(tr).links[j].probes|);
  }

  // ----- Letting time pass -----

  predicate CopiesWait(l: Link, b: Bounds, t: int) {
    forall r :: r in l.copies && l.copies[r].left != {} ==> t <= l.copies[r].at + b.check
  }

  /** The connection can be kept healthy until t. */
  predicate Lasts(l: Link, b: Bounds, t: int) {
    Timely(l, t, b) || (Quiet(l) && CopiesWait(l, b, t))
  }

  predicate Later(l: Link, l': Link, b: Bounds, t: int) {
    (Timely(l, t, b) ==> l' == l) && (Quiet(l) ==> Quiet(l') && SameButPinged(l, l'))
  }

  function Slack(s: State, n: nat, t: int): nat
    requires n <= |s.links|
  {
    if n > 0 && s.links[n-1].phase.Sleeping? && s.links[n-1].phase.round < t then t - s.links[n-1].phase.round else 0
  }

  ghost predicate Reaches(tr: Trace, tr': Trace, b: Bounds, t: int) {
    && |tr.states| > 0 && Run(tr', b) && tr'.states[0] == tr.states[0]
    && End(tr').clock == t && End(tr').serving == End(tr).serving && |End(tr').links| == |End(tr).links|
    && forall j :: 0 <= j < |End(tr).links| ==> Later(End(tr).links[j], End(tr').links[j], b, t)
  }

  /** Rounds with immediate answers keep the first n connections healthy up to t. */
  lemma {:induction false} Coast(tr: Trace, b: Bounds, t: int, n: nat) returns (tr': Trace)
    requires Run(tr, b) && End(tr).clock <= t && n <= |End(tr).links|
    requires forall j :: 0 <= j < |End(tr).links| ==> if j < n then Lasts(End(tr).links[j], b, t) else Timely(End(tr).links[j], t, b)
    ensures Reaches(tr, tr', b, t)
    decreases n, Slack(End(tr), n, t)
  {
    if n == 0 {
      tr' := TickTo(tr, b, t);
    } else if Timely(End(tr).links[n-1], t, b) {
      tr' := Coast(tr, b, t, n - 1);
    } else {
      tr' := CoastOnce(tr, b, t, n);
      tr' := Coast(tr', b, t, n);
    }
  }

  /** Up to the next round of connection n - 1, and through it. */
  lemma {:induction false} CoastOnce(tr: Trace, b: Bounds, t: int, n: nat) returns (tr': Trace)
    requires Run(tr, b) && End(tr).clock <= t && 0 < n <= |End(tr).links|
    requires forall j :: 0 <= j < |End(tr).links| ==> if j < n then Lasts(End(tr).links[j], b, t) else Timely(End(tr).links[j], t, b)
    requires !Timely(End(tr).links[n-1], t, b)
    ensures Run(tr', b) && tr'.states[0] == tr.states[0] && End(tr').clock <= t
    ensures End(tr').serving == End(tr).serving && |End(tr').links| == |End(tr).links|
    ensures forall j :: 0 <= j < |End(tr).links| ==> Later(End(tr).links[j], End(tr').links[j], b, t)
    ensures Slack(End(tr'), n, t) < Slack(End(tr), n, t)
    decreases n, Slack(End(tr), n, t), 0
  {
    var l := End(tr).links[n-1];
    var due := l.phase.round + Gap(l.interval, b);
    Now(tr, b, n - 1);
    tr' := Coast(tr, b, due, n - 1);
    tr' := PlayRound(tr', b, n - 1);
  }

  // ----- A healthy run that is reported stale -----

  /** Nothing but pinging goes on. */
  predicate Calm(l: Link) {
    l.copies == map[] && if Checked(l) then Quiet(l) else l.phase.Idle? && l.probes == []
  }

  /** Started and answered within second 0. */
  predicate JustStarted(l: Link) {
    && Calm(l)
    && (Checked(l) ==> l.phase.round == SECOND - 1 && forall a :: a in l.records ==> l.records[a] == 0)
  }

  predicate SameConfigs(links: seq<Link>, links': seq<Link>) {
    |links| == |links'| && forall j :: 0 <= j < |links| ==> SameConfig(links[j], links'[j])
  }

  lemma StartOne(tr: Trace, b: Bounds, j: nat) returns (tr': Trace)
    requires Run(tr, b) && j < |End(tr).links| && Fresh(End(tr).links[j]) && End(tr).clock == SECOND - 1
    ensures Moves(tr, tr', b, j) && JustStarted(End(tr').links[j]) && SameConfig(End(tr).links[j], End(tr').links[j])
  {
    tr' := tr;
    if Checked(End(tr).links[j]) {
      tr' := Act(tr, b, j, Seed);
      tr' := PlayRound(tr', b, j);
    }
  }

  lemma {:induction false} StartAll(tr: Trace, b: Bounds, n: nat) returns (tr': Trace)
    requires Run(tr, b) && n <= |End(tr).links| && End(tr).clock == SECOND - 1
    requires forall j :: 0 <= j < |End(tr).links| ==> if j < n then JustStarted(End(tr).links[j]) else Fresh(End(tr).links[j])
    ensures Run(tr', b) && tr'.states[0] == tr.states[0] && End(tr').clock == SECOND - 1
    ensures SameConfigs(End(tr).links, End(tr').links)
    ensures forall j :: 0 <= j < |End(tr').links| ==> JustStarted(End(tr').links[j])
    decreases |End(tr).links| - n
  {
    tr' := tr;
    if n < |End(tr).links| {
      tr' := StartOne(tr, b, n);
      tr' := StartAll(tr', b, n + 1);
    }
  }

  /** All connections are up and requests are served. */
  lemma Serving(links: seq<Link>, b: Bounds) returns (tr: Trace)
    requires forall j :: 0 <= j < |links| ==> Fresh(links[j])
    ensures Run(tr, b) && tr.states[0].links == links && SameConfigs(links, End(tr).links)
    ensures End(tr).clock == SECOND - 1 && End(tr).serving
    ensures forall j :: 0 <= j < |links| ==> JustStarted(End(tr).links[j])
  {
    tr := Trace([State(SECOND - 1, false, links)], []);
    tr := StartAll(tr, b, 0);
    assert TimelyState(End(tr), b);
    Extend(tr, b, Serve);
    tr := Append(tr, Serve);
  }

  /** How long the answers after the second round are held back in the run below. */
  function Held(interval: int, b: Bounds): int {
    var gap := Gap(interval, b);
    if b.reply <= gap then b.reply else if b.reply <= 2 * gap then b.reply else 2 * gap
  }

  lemma HeldIsEnough(interval: int, b: Bounds)
    requires !WithinMargin(interval, b)
    ensures Overdue(0, interval, SECOND - 1 + Gap(interval, b) + Held(interval, b) + b.check)
  {
  }

  /** All connections but i are calm. */
  ghost predicate OthersCalm(s: State, i: nat) {
    forall j :: 0 <= j < |s.links| && j != i ==> Calm(s.links[j])
  }

  /** Connection i has its old records, nothing copied, and its answers may be out. */
  predicate Waiting(l: Link) {
    && Checked(l) && l.copies == map[] && AllKnown(l)
    && l.phase.Sleeping? && l.phase.wake == l.phase.round + Sleep(l.interval)
    && l.records.Keys == (set a | a in l.addrs) && forall a :: a in l.records ==> l.records[a] == 0
  }

  /** Time passes while connection i waits. */
  lemma Wait(tr: Trace, b: Bounds, i: nat, t: int) returns (tr': Trace)
    requires Run(tr, b) && i < |End(tr).links| && End(tr).clock <= t
    requires Waiting(End(tr).links[i]) && Timely(End(tr).links[i], t, b) && OthersCalm(End(tr), i)
    ensures Run(tr', b) && tr'.states[0] == tr.states[0] && End(tr').clock == t && End(tr').serving == End(tr).serving
    ensures |End(tr').links| == |End(tr).links| && End(tr').links[i] == End(tr).links[i] && OthersCalm(End(tr'), i)
  {
    forall j | 0 <= j < |End(tr).links| ensures Lasts(End(tr).links[j], b, t) {
      assert j != i ==> Calm(End(tr).links[j]);
    }
    tr' := Coast(tr, b, t, |End(tr).links|);
    forall j | 0 <= j < |End(tr').links| && j != i ensures Calm(End(tr').links[j]) {
      assert Calm(End(tr).links[j]) && Later(End(tr).links[j], End(tr').links[j], b, t);
    }
  }

  lemma HoldWaiting(tr: Trace, b: Bounds, i: nat) returns (tr': Trace)
    requires Run(tr, b) && i < |End(tr).links| && Waiting(End(tr).links[i]) && End(tr).links[i].phase.wake <= End(tr).clock
    requires OthersCalm(End(tr), i)
    ensures Moves(tr, tr', b, i) && Waiting(End(tr').links[i]) && OthersCalm(End(tr'), i)
    ensures var l, now := End(tr).links[i], End(tr).clock;
            End(tr').links[i] == l.(phase := Sleeping(now, now + Sleep(l.interval)), probes := l.probes + NewProbes(l.addrs, 0, now))
  {
    tr' := HoldRound(tr, b, i);
  }

  /** The second round of connection i is as late as allowed. */
  lemma SecondRound(links: seq<Link>, b: Bounds, i: nat) returns (tr: Trace)
    requires i < |links| && Checked(links[i]) && forall j :: 0 <= j < |links| ==> Fresh(links[j])
    ensures Run(tr, b) && tr.states[0].links == links && End(tr).serving
    ensures |End(tr).links| == |links| && SameConfig(links[i], End(tr).links[i]) && OthersCalm(End(tr), i)
    ensures var l := End(tr).links[i];
            && Waiting(l) && AllDone(l.probes, |l.probes|) && l.phase.round == SECOND - 1
            && End(tr).clock == SECOND - 1 + Gap(l.interval, b)
  {
    tr := Serving(links, b);
    var l := End(tr).links[i];
    InvTrace(tr, |tr.states| - 1);
    assert JustStarted(l) && LinkInv(l, End(tr).clock);
    tr := Wait(tr, b, i, SECOND - 1 + Gap(l.interval, b));
  }

  /** The answers of connection i are as late as allowed. */
  lemma LateAnswers(links: seq<Link>, b: Bounds, i: nat) returns (tr: Trace)
    requires i < |links| && Checked(links[i]) && forall j :: 0 <= j < |links| ==> Fresh(links[j])
    ensures Run(tr, b) && tr.states[0].links == links && End(tr).serving
    ensures |End(tr).links| == |links| && SameConfig(links[i], End(tr).links[i]) && OthersCalm(End(tr), i)
    ensures var interval := links[i].interval;
            Waiting(End(tr).links[i]) && End(tr).clock == SECOND - 1 + Gap(interval, b) + Held(interval, b)
  {
    tr := SecondRound(links, b, i);
    var gap, u := Gap(links[i].interval, b), End(tr).clock;
    tr := HoldWaiting(tr, b, i);
    if b.reply > gap {
      tr := Wait(tr, b, i, u + gap);
      tr := HoldWaiting(tr, b, i);
    }
    tr := Wait(tr, b, i, u + Held(links[i].interval, b));
  }

  /** The records are copied just before the late answers arrive. */
  lemma LateCopy(links: seq<Link>, b: Bounds, i: nat) returns (tr: Trace)
    requires i < |links| && Checked(links[i]) && forall j :: 0 <= j < |links| ==> Fresh(links[j])
    ensures Run(tr, b) && tr.states[0].links == links
    ensures |End(tr).links| == |links| && SameConfig(links[i], End(tr).links[i]) && OthersCalm(End(tr), i)
    ensures var l := End(tr).links[i];
            var at := SECOND - 1 + Gap(l.interval, b) + Held(l.interval, b);
            && Quiet(l) && End(tr).clock == at && l.copies.Keys == {0}
            && l.copies[0].at == at && l.addrs[0] in l.copies[0].left
            && l.addrs[0] in l.copies[0].records && l.copies[0].records[l.addrs[0]] == 0
  {
    tr := LateAnswers(links, b, i);
    Now(tr, b, i);
    assert links[i].addrs[0] in End(tr).links[i].records;
    tr := Act(tr, b, i, TakeCopy(0));
    tr := AnswerAll(tr, b, i, 0);
  }

  lemma BeyondMargin(links: seq<Link>, b: Bounds, i: nat) returns (tr: Trace)
    requires i < |links| && Checked(links[i]) && forall j :: 0 <= j < |links| ==> Fresh(links[j])
    requires !WithinMargin(links[i].interval, b)
    ensures Run(tr, b) && tr.states[0].links == links && Unready(End(tr), 0)
  {
    tr := LateCopy(links, b, i);
    var l := End(tr).links[i];
    var t := l.copies[0].at + b.check;
    forall j | 0 <= j < |links| ensures Lasts(End(tr).links[j], b, t) {
      assert j != i ==> Calm(End(tr).links[j]);
    }
    var tr' := Coast(tr, b, t, |links|);
    assert Later(l, End(tr').links[i], b, t);
    HeldIsEnough(l.interval, b);
    Now(tr', b, i);
    tr := Act(tr', b, i, Look(0, l.addrs[0]));
  }

  ghost predicate NeverUnready(tr: Trace) {
    forall k, r: nat :: 0 <= k < |tr.states| ==> !Unready(tr.states[k], r)
  }

  /** For any connections and any bounds on the delays: their healthy runs are free of 503 answers exactly when the
      delays fit the margin of every checked connection. */
  lemma MarginIsExact(links: seq<Link>, b: Bounds)
    requires forall i :: 0 <= i < |links| ==> Fresh(links[i])
    ensures AllWithinMargin(links, b) <==>
              forall tr :: IsTrace(tr) && tr.states[0].links == links && Healthy(tr, b) ==> NeverUnready(tr)
  {
    if AllWithinMargin(links, b) {
      forall tr | IsTrace(tr) && tr.states[0].links == links && Healthy(tr, b) ensures NeverUnready(tr) {
        forall k, r: nat | 0 <= k < |tr.states| ensures !Unready(tr.states[k], r) {
          HealthyNeverUnready(tr, b, k, r);
        }
      }
    } else {
      var i :| 0 <= i < |links| && Checked(links[i]) && !WithinMargin(links[i].interval, b);
      var tr := BeyondMargin(links, b, i);
      assert IsTrace(tr) && Healthy(tr, b);
      assert Unready(tr.states[|tr.states|-1], 0);
    }
  }

  /** With intervals the configuration accepts, delays that add up to one second are harmless. */
  lemma OneSecondIsEnough(tr: Trace, b: Bounds)
    requires IsTrace(tr) && Healthy(tr, b) && b.round + b.reply + b.check <= SECOND
    requires forall i :: 0 <= i < |tr.states[0].links| ==> Checked(tr.states[0].links[i]) ==> tr.states[0].links[i].interval >= 1
    ensures NeverUnready(tr)
  {
    MarginIsExact(tr.states[0].links, b);
  }
}
