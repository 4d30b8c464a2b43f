/** How late a healthy link may be before /readyz reports it stale. */
module ProbingMargin {
  import opened Wrappers
  import opened Health
  import opened Probing
  import opened ProbingTheorems

  /** Bounds on the delays of the environment, in nanoseconds: of the first round after seeding and of each further
      round after its sleep; of a pong after the start of its round; of looking at a record after copying it. */
  datatype Bounds = Bounds(round: nat, reply: nat, check: nat)

  /** The largest distance between the starts of two rounds. */
  function Gap(interval: int, b: Bounds): int {
    Sleep(interval) + b.round
  }

  /** No delay has run over yet. */
  predicate Timely(l: Link, now: int, b: Bounds) {
    && (l.phase.Started? ==> now <= l.phase.at + b.round)
    && (l.phase.Pinging? || l.phase.Sleeping? ==> now <= l.phase.round + Gap(l.interval, b))
    && (l.phase.Pinging? && l.phase.next < |l.addrs| ==> now <= l.phase.round + b.reply)
    && (forall p :: 0 <= p < |l.probes| && !l.probes[p].done ==> now <= l.probes[p].round + b.reply)
    && (forall r :: r in l.copies && l.copies[r].left != {} ==> now <= l.copies[r].at + b.check)
  }

  /** Every address can be dialled and every probe is answered. */
  predicate Lossless(e: LinkEvent) {
    e != Launch(false) && !e.Lose?
  }

  ghost predicate TimelyState(s: State, b: Bounds) {
    forall i :: 0 <= i < |s.links| ==> Timely(s.links[i], s.clock, b)
  }

  predicate LosslessEvent(e: Event) {
    e.On? ==> Lossless(e.step)
  }

  ghost predicate Healthy(tr: Trace, b: Bounds) {
    && (forall k :: 0 <= k < |tr.states| ==> TimelyState(tr.states[k], b))
    && (forall k :: 0 <= k < |tr.events| ==> LosslessEvent(tr.events[k]))
  }

  /** The delays fit into the two seconds of grace, of which truncation to whole seconds takes almost one. */
  predicate WithinMargin(interval: int, b: Bounds) {
    Gap(interval, b) + b.reply + b.check <= (interval + 1) * SECOND + 1
  }

  // ----- Invariant of healthy runs -----

  /** An answer for `a` is still to come in a round that began at `round`. */
  predicate Expected(l: Link, a: string, round: int) {
    || (l.phase.Pinging? && l.phase.round == round && exists q :: l.phase.next <= q < |l.addrs| && l.addrs[q] == a)
    || (exists p :: 0 <= p < |l.probes| && l.probes[p] == Probe(a, round, false))
  }

  ghost predicate Awaited(l: Link, a: string, b: Bounds)
    requires a in l.records
  {
    exists round :: Expected(l, a, round) && l.records[a] >= Sec(round - Gap(l.interval, b))
  }

  function Last(l: Link): int
    requires !l.phase.Idle?
  {
    if l.phase.Started? then l.phase.at else l.phase.round
  }

  ghost predicate Fed(l: Link, a: string, b: Bounds)
    requires a in l.records && !l.phase.Idle?
  {
    l.records[a] >= Sec(Last(l)) || Awaited(l, a, b)
  }

  /** How old a record may be when it is copied. */
  function Age(interval: int, b: Bounds): int {
    Gap(interval, b) + b.reply + SECOND - 1
  }

  predicate CopyFresh(c: Copy, interval: int, b: Bounds) {
    && c.late.None?
    && forall a :: a in c.records ==> c.at - c.records[a] * SECOND <= Age(interval, b)
  }

  ghost predicate LinkFed(l: Link, now: int, b: Bounds) {
    && LinkInv(l, now)
    && (!l.phase.Idle? ==> Last(l) <= now && forall a :: a in l.records ==> Fed(l, a, b))
    && (forall r :: r in l.copies ==> CopyFresh(l.copies[r], l.interval, b))
  }

  lemma SecGrows(t: int, u: int)
    requires t <= u
    ensures Sec(t) <= Sec(u) && Sec(t) * SECOND <= t < Sec(t) * SECOND + SECOND
  {
  }

  /** In a timely state no record is older than the bound. */
  lemma RecordIsFresh(l: Link, now: int, b: Bounds, a: string)
    requires LinkFed(l, now, b) && Timely(l, now, b) && a in l.records
    ensures now - l.records[a] * SECOND <= Age(l.interval, b)
  {
    assert Fed(l, a, b);
    if l.records[a] >= Sec(Last(l)) {
      SecGrows(Last(l), Last(l));
    } else {
      var round :| Expected(l, a, round) && l.records[a] >= Sec(round - Gap(l.interval, b));
      SecGrows(round - Gap(l.interval, b), round);
      assert now <= round + b.reply;
    }
  }

  /** A new round makes every address expected, and what was recent enough for the last round will do for it. */
  lemma BeginFed(l: Link, now: int, b: Bounds, a: string)
    requires LinkFed(l, now, b) && Timely(l, now, b) && LinkEnabled(l, now, BeginRound) && a in l.records
    ensures Fed(LinkStep(l, now, BeginRound), a, b)
  {
    var l' := LinkStep(l, now, BeginRound);
    assert Fed(l, a, b);
    if l.records[a] >= Sec(Last(l)) {
      var q :| 0 <= q < |l.addrs| && l.addrs[q] == a;
      SecGrows(now - Gap(l.interval, b), Last(l));
      assert Expected(l', a, now);
    } else {
      var round :| Expected(l, a, round) && l.records[a] >= Sec(round - Gap(l.interval, b));
      assert Expected(l', a, round);
    }
  }

  lemma ExpectedStays(l: Link, now: int, e: LinkEvent, a: string, round: int)
    requires LinkEnabled(l, now, e) && (e == Launch(true) || e.EndRound? || e.TakeCopy? || e.Look?)
    requires Expected(l, a, round)
    ensures Expected(LinkStep(l, now, e), a, round)
  {
    var l' := LinkStep(l, now, e);
    if p :| 0 <= p < |l.probes| && l.probes[p] == Probe(a, round, false) {
      assert l'.probes[p] == Probe(a, round, false);
    } else {
      var q :| l.phase.next <= q < |l.addrs| && l.addrs[q] == a;
      if e == Launch(true) && q == l.phase.next {
        assert l'.probes[|l.probes|] == Probe(a, round, false);
      }
    }
  }

  lemma QuietFed(l: Link, now: int, e: LinkEvent, b: Bounds, a: string)
    requires LinkFed(l, now, b) && LinkEnabled(l, now, e) && (e == Launch(true) || e.EndRound? || e.TakeCopy? || e.Look?)
    requires a in l.records && !l.phase.Idle?
    ensures Fed(LinkStep(l, now, e), a, b)
  {
    assert Fed(l, a, b);
    if l.records[a] < Sec(Last(l)) {
      var round :| Expected(l, a, round) && l.records[a] >= Sec(round - Gap(l.interval, b));
      ExpectedStays(l, now, e, a, round);
    }
  }

  lemma PongFed(l: Link, now: int, p: nat, b: Bounds, a: string)
    requires LinkFed(l, now, b) && LinkEnabled(l, now, Pong(p)) && a in l.records && !l.phase.Idle?
    ensures Fed(LinkStep(l, now, Pong(p)), a, b)
  {
    var l' := LinkStep(l, now, Pong(p));
    if a == l.probes[p].addr {
      SecGrows(Last(l), now);
    } else {
      assert Fed(l, a, b);
      if l.records[a] < Sec(Last(l)) {
        var round :| Expected(l, a, round) && l.records[a] >= Sec(round - Gap(l.interval, b));
        if n :| 0 <= n < |l.probes| && l.probes[n] == Probe(a, round, false) {
          assert l'.probes[n] == Probe(a, round, false);
        }
        assert Expected(l', a, round);
      }
    }
  }

  lemma StepFed(l: Link, now: int, e: LinkEvent, b: Bounds)
    requires LinkFed(l, now, b) && Timely(l, now, b) && LinkEnabled(l, now, e) && Lossless(e)
    ensures var l' := LinkStep(l, now, e);
            !l'.phase.Idle? ==> Last(l') <= now && forall a :: a in l'.records ==> Fed(l', a, b)
  {
    var l' := LinkStep(l, now, e);
    if !l'.phase.Idle? {
      forall a | a in l'.records ensures Fed(l', a, b) {
        match e
        case Seed =>
        case BeginRound => BeginFed(l, now, b, a);
        case Pong(p) => PongFed(l, now, p, b, a);
        case _ => QuietFed(l, now, e, b, a);
      }
    }
  }

  lemma StepCopies(l: Link, now: int, e: LinkEvent, b: Bounds, r: nat)
    requires LinkFed(l, now, b) && Timely(l, now, b) && LinkEnabled(l, now, e) && (Checked(l) ==> WithinMargin(l.interval, b))
    requires r in LinkStep(l, now, e).copies
    ensures CopyFresh(LinkStep(l, now, e).copies[r], l.interval, b)
  {
    if e == TakeCopy(r) {
      forall a | a in l.records ensures now - l.records[a] * SECOND <= Age(l.interval, b) {
        RecordIsFresh(l, now, b, a);
      }
    } else {
      assert CopyFresh(l.copies[r], l.interval, b);
      if e.Look? && e.req == r {
        assert now <= l.copies[r].at + b.check;
      }
    }
  }

  ghost predicate AllFed(s: State, b: Bounds) {
    forall i :: 0 <= i < |s.links| ==> LinkFed(s.links[i], s.clock, b)
  }

  /** The delays fit the margin of every connection that is checked. */
  predicate AllWithinMargin(links: seq<Link>, b: Bounds) {
    forall i :: 0 <= i < |links| ==> Checked(links[i]) ==> WithinMargin(links[i].interval, b)
  }

  lemma FedNext(s: State, e: Event, b: Bounds)
    requires AllFed(s, b) && TimelyState(s, b) && Enabled(s, e) && LosslessEvent(e) && AllWithinMargin(s.links, b)
    ensures AllFed(Step(s, e), b)
  {
    match e {
      case Tick(now) =>
        forall i | 0 <= i < |s.links| ensures LinkFed(s.links[i], now, b) {
          LinkInvTick(s.links[i], s.clock, now);
        }
      case Serve =>
      case On(i, step) =>
        var l := s.links[i];
        if step.TakeCopy? || step.Look? {
          LinkInvCopy(l, s.clock, step);
        } else {
          LinkInvPing(l, s.clock, step);
        }
        StepFed(l, s.clock, step, b);
        forall r | r in LinkStep(l, s.clock, step).copies ensures CopyFresh(LinkStep(l, s.clock, step).copies[r], l.interval, b) {
          StepCopies(l, s.clock, step, b, r);
        }
    }
  }

  lemma {:induction false} FedTrace(tr: Trace, b: Bounds, k: nat)
    requires IsTrace(tr) && Healthy(tr, b) && AllWithinMargin(tr.states[0].links, b) && k < |tr.states|
    ensures AllFed(tr.states[k], b) && AllWithinMargin(tr.states[k].links, b)
  {
    if k == 0 {
      InvTrace(tr, 0);
    } else {
      FedTrace(tr, b, k - 1);
      TraceStep(tr, k - 1);
      assert TimelyState(tr.states[k-1], b) && LosslessEvent(tr.events[k-1]);
      FedNext(tr.states[k-1], tr.events[k-1], b);
    }
  }

  /** Healthy links never go unready: if the delays fit the margin of every checked connection, no request is
      answered 503. */
  lemma HealthyNeverUnready(tr: Trace, b: Bounds, k: nat, r: nat)
    requires IsTrace(tr) && Healthy(tr, b) && AllWithinMargin(tr.states[0].links, b) && k < |tr.states|
    ensures !Unready(tr.states[k], r)
  {
    FedTrace(tr, b, k);
  }
}
