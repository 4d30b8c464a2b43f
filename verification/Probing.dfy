/**
 The liveness monitor as a step system. Every connection has its ping loop and
 any number of probes in flight; requests for /readyz copy the records of each
 connection and look at the copies later. Steps of all of them and of the clock
 interleave freely, except that requests are served only once every connection
 has been started.
 */
module Probing {
  import opened Wrappers
  import opened Health

  /** A probe goroutine, with the start of the round that launched it. */
  datatype Probe = Probe(addr: string, round: int, done: bool)

  /** Where StartPingIPs stands; `round` is when the current or last round began. */
  datatype Phase =
    | Idle                                  // not called yet
    | Started(at: int)                      // seeded, no round yet
    | Pinging(round: int, next: nat)        // addresses before `next` have been dialled
    | Sleeping(round: int, wake: int)

  datatype Late = Late(addr: string, at: int)

  /** A request's copy of the records: what is left to look at, and the record found stale. */
  datatype Copy = Copy(at: int, records: Records, left: set<string>, late: Option<Late>)

  datatype Link = Link(
    addrs: seq<string>,
    interval: int,
    wireguard: bool,
    records: Records,
    phase: Phase,
    probes: seq<Probe>,
    copies: map<nat, Copy>)                 // by request

  datatype State = State(clock: int, serving: bool, links: seq<Link>)

  datatype LinkEvent =
    | Seed
    | BeginRound
    | Launch(dialled: bool)
    | EndRound
    | Pong(probe: nat)                      // a matching reply
    | Lose(probe: nat)                      // no reply, a failed write or a reply that does not match
    | TakeCopy(req: nat)
    | Look(req: nat, addr: string)

  datatype Event = Tick(now: int) | Serve | On(link: nat, step: LinkEvent)

  /** A connection that is pinged and that /readyz looks at. */
  predicate Checked(l: Link) {
    l.wireguard && |l.addrs| > 0
  }

  /** The start goroutine of every connection has run StartPingIPs as far as the ping loop. */
  predicate AllStarted(links: seq<Link>) {
    forall i :: 0 <= i < |links| ==> Checked(links[i]) ==> !links[i].phase.Idle?
  }

  function Sleep(interval: int): int {
    (if interval < 1 then 1 else interval) * SECOND
  }

  predicate InFlight(l: Link, p: nat) {
    p < |l.probes| && !l.probes[p].done
  }

  predicate LinkEnabled(l: Link, now: int, e: LinkEvent) {
    match e
    case Seed => Checked(l) && l.phase.Idle?
    case BeginRound => l.phase.Started? || (l.phase.Sleeping? && l.phase.wake <= now)
    case Launch(_) => l.phase.Pinging? && l.phase.next < |l.addrs|
    case EndRound => l.phase.Pinging? && l.phase.next >= |l.addrs|
    case Pong(p) => InFlight(l, p)
    case Lose(p) => InFlight(l, p)
    case TakeCopy(r) => r !in l.copies
    case Look(r, a) => r in l.copies && a in l.copies[r].left && a in l.copies[r].records
  }

  /** The copy a request takes; a connection that is not checked has nothing to look at. */
  function NewCopy(l: Link, now: int): Copy {
    Copy(now, l.records, if Checked(l) then l.records.Keys else {}, None)
  }

  /** One turn of the loop in stale, which ends at the first overdue record. */
  function LookAt(c: Copy, interval: int, a: string, now: int): Copy
    requires a in c.records
  {
    if Overdue(c.records[a], interval, now) then c.(left := {}, late := Some(Late(a, now)))
    else c.(left := c.left - {a})
  }

  function Finish(l: Link, p: nat): Link
    requires p < |l.probes|
  {
    l.(probes := l.probes[p := l.probes[p].(done := true)])
  }

  function LinkStep(l: Link, now: int, e: LinkEvent): Link
    requires LinkEnabled(l, now, e)
  {
    match e
    case Seed => l.(records := Seeded(l.records, l.addrs, Sec(now)), phase := Started(now))
    case BeginRound => l.(phase := Pinging(now, 0))
    case Launch(dialled) =>
      var probe := Probe(l.addrs[l.phase.next], l.phase.round, false);
      l.(phase := l.phase.(next := l.phase.next + 1), probes := if dialled then l.probes + [probe] else l.probes)
    case EndRound => l.(phase := Sleeping(l.phase.round, now + Sleep(l.interval)))
    case Pong(p) => Finish(l, p).(records := l.records[l.probes[p].addr := Sec(now)])
    case Lose(p) => Finish(l, p)
    case TakeCopy(r) => l.(copies := l.copies[r := NewCopy(l, now)])
    case Look(r, a) => l.(copies := l.copies[r := LookAt(l.copies[r], l.interval, a, now)])
  }

  predicate Enabled(s: State, e: Event) {
    match e
    case Tick(now) => s.clock <= now
    case Serve => AllStarted(s.links)
    case On(i, step) => i < |s.links| && LinkEnabled(s.links[i], s.clock, step) && (step.TakeCopy? ==> s.serving)
  }

  function Step(s: State, e: Event): State
    requires Enabled(s, e)
  {
    match e
    case Tick(now) => s.(clock := now)
    case Serve => s.(serving := true)
    case On(i, step) => s.(links := s.links[i := LinkStep(s.links[i], s.clock, step)])
  }

  predicate Next(s: State, e: Event, s': State) {
    Enabled(s, e) && s' == Step(s, e)
  }

  predicate Fresh(l: Link) {
    l.records == map[] && l.phase.Idle? && l.probes == [] && l.copies == map[]
  }

  datatype Trace = Trace(states: seq<State>, events: seq<Event>)

  ghost predicate Taken(tr: Trace, k: nat)
    requires k < |tr.events| && |tr.states| == |tr.events| + 1
  {
    Next(tr.states[k], tr.events[k], tr.states[k+1])
  }

  ghost predicate IsTrace(tr: Trace) {
    && |tr.states| == |tr.events| + 1
    && !tr.states[0].serving
    && (forall i :: 0 <= i < |tr.states[0].links| ==> Fresh(tr.states[0].links[i]))
    && (forall k :: 0 <= k < |tr.events| ==> Taken(tr, k))
  }

  // ----- Invariant of every run -----

  predicate CopyOk(c: Copy, interval: int, now: int) {
    && c.at <= now
    && c.left <= c.records.Keys
    && (c.late.Some? ==>
          && c.left == {} && c.late.value.addr in c.records && c.at <= c.late.value.at <= now
          && Overdue(c.records[c.late.value.addr], interval, c.late.value.at))
  }

  /** Everything looked at and not found stale was recent when the copy was taken. */
  predicate LookedAt(c: Copy, interval: int) {
    c.late.None? ==> forall a :: a in c.records && a !in c.left ==> !Overdue(c.records[a], interval, c.at)
  }

  ghost predicate LinkInv(l: Link, now: int) {
    && (l.phase.Idle? ==> l.records == map[] && l.probes == [])
    && (!l.phase.Idle? ==> Checked(l) && l.records.Keys == set a | a in l.addrs)
    && (forall p :: 0 <= p < |l.probes| ==> l.probes[p].addr in l.addrs)
    && (forall a :: a in l.records ==> l.records[a] <= Sec(now))
    && (forall r :: r in l.copies ==> CopyOk(l.copies[r], l.interval, now) && (Checked(l) ==> LookedAt(l.copies[r], l.interval)))
    && (!Checked(l) ==> forall r :: r in l.copies ==> l.copies[r].left == {} && l.copies[r].late.None?)
  }

  ghost predicate Inv(s: State) {
    && (forall i :: 0 <= i < |s.links| ==> LinkInv(s.links[i], s.clock))
    && (s.serving ==> AllStarted(s.links))
  }

  lemma LinkInvTick(l: Link, now: int, later: int)
    requires LinkInv(l, now) && now <= later
    ensures LinkInv(l, later)
  {
    assert Sec(now) <= Sec(later);
  }

  lemma LinkInvPing(l: Link, now: int, e: LinkEvent)
    requires LinkInv(l, now) && LinkEnabled(l, now, e) && !e.TakeCopy? && !e.Look?
    ensures LinkInv(LinkStep(l, now, e), now)
  {
  }

  lemma LinkInvCopy(l: Link, now: int, e: LinkEvent)
    requires LinkInv(l, now) && LinkEnabled(l, now, e) && (e.TakeCopy? || e.Look?)
    ensures LinkInv(LinkStep(l, now, e), now)
  {
  }

  lemma InvNext(s: State, e: Event)
    requires Inv(s) && Enabled(s, e)
    ensures Inv(Step(s, e))
  {
    match e {
      case Tick(now) =>
        forall i | 0 <= i < |s.links| ensures LinkInv(s.links[i], now) {
          LinkInvTick(s.links[i], s.clock, now);
        }
      case Serve =>
      case On(i, step) =>
        if step.TakeCopy? || step.Look? {
          LinkInvCopy(s.links[i], s.clock, step);
        } else {
          LinkInvPing(s.links[i], s.clock, step);
        }
    }
  }

  lemma {:induction false} InvTrace(tr: Trace, k: nat)
    requires IsTrace(tr) && k < |tr.states|
    ensures Inv(tr.states[k]) && |tr.states[k].links| == |tr.states[0].links|
  {
    if k > 0 {
      InvTrace(tr, k - 1);
      assert Taken(tr, k - 1);
      InvNext(tr.states[k-1], tr.events[k-1]);
    }
  }
}
