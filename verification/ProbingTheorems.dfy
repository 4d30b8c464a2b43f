/** What the liveness records and the answers of /readyz mean, in every run of the monitor. */
module ProbingTheorems {
  import opened Wrappers
  import opened Health
  import opened Probing

  lemma TraceStep(tr: Trace, k: nat)
    requires IsTrace(tr) && k < |tr.events|
    ensures Next(tr.states[k], tr.events[k], tr.states[k+1])
    ensures |tr.states[k].links| == |tr.states[k+1].links| == |tr.states[0].links|
  {
    InvTrace(tr, k);
    InvTrace(tr, k + 1);
    assert Taken(tr, k);
  }

  lemma {:induction false} ClockGrows(tr: Trace, j: nat, k: nat)
    requires IsTrace(tr) && j <= k < |tr.states|
    ensures tr.states[j].clock <= tr.states[k].clock
    decreases k
  {
    if j < k {
      ClockGrows(tr, j, k - 1);
      TraceStep(tr, k - 1);
    }
  }

  predicate SameConfig(l: Link, m: Link) {
    l.addrs == m.addrs && l.interval == m.interval && l.wireguard == m.wireguard
  }

  lemma {:induction false} ConfigFixed(tr: Trace, j: nat, k: nat, i: nat)
    requires IsTrace(tr) && j <= k < |tr.states| && i < |tr.states[0].links|
    ensures |tr.states[j].links| == |tr.states[k].links| == |tr.states[0].links|
    ensures SameConfig(tr.states[j].links[i], tr.states[k].links[i])
    decreases k
  {
    if j < k {
      ConfigFixed(tr, j, k - 1, i);
      TraceStep(tr, k - 1);
    } else {
      InvTrace(tr, j);
    }
  }

  // ----- The records -----

  /** From seeding on, the records are kept for exactly the CheckAlive addresses; before, and on connections that
      are never pinged, there are none. */
  lemma RecordKeys(tr: Trace, k: nat, i: nat)
    requires IsTrace(tr) && k < |tr.states| && i < |tr.states[k].links|
    ensures var l := tr.states[k].links[i];
            l.records.Keys == if l.phase.Idle? then {} else set a | a in l.addrs
  {
    InvTrace(tr, k);
  }

  /** No record ever disappears or goes back in time. */
  lemma {:induction false} RecordsNeverDecrease(tr: Trace, j: nat, k: nat, i: nat, a: string)
    requires IsTrace(tr) && j <= k < |tr.states| && i < |tr.states[j].links| && a in tr.states[j].links[i].records
    ensures i < |tr.states[k].links| && a in tr.states[k].links[i].records
    ensures tr.states[j].links[i].records[a] <= tr.states[k].links[i].records[a]
    decreases k
  {
    if j < k {
      RecordsNeverDecrease(tr, j, k - 1, i, a);
      InvTrace(tr, k - 1);
      TraceStep(tr, k - 1);
    }
  }

  /** Step m seeds the record of `a` or stores a pong of `a`. */
  predicate Heard(tr: Trace, m: nat, i: nat, a: string) {
    && m < |tr.events| && m < |tr.states| && tr.events[m].On? && tr.events[m].link == i && i < |tr.states[m].links|
    && var l := tr.states[m].links[i];
       match tr.events[m].step
       case Seed => a in l.addrs
       case Pong(p) => p < |l.probes| && l.probes[p].addr == a
       case _ => false
  }

  lemma StepRecord(l: Link, now: int, e: LinkEvent, a: string)
    requires LinkEnabled(l, now, e)
    requires !(e.Seed? && a in l.addrs) && !(e.Pong? && l.probes[e.probe].addr == a)
    ensures a in LinkStep(l, now, e).records <==> a in l.records
    ensures a in l.records ==> LinkStep(l, now, e).records[a] == l.records[a]
  {
  }

  /** A record holds the second in which its address was last heard or seeded. */
  lemma {:induction false} LastHeard(tr: Trace, k: nat, i: nat, a: string) returns (m: nat)
    requires IsTrace(tr) && k < |tr.states| && i < |tr.states[k].links| && a in tr.states[k].links[i].records
    ensures m < k && Heard(tr, m, i, a) && tr.states[k].links[i].records[a] == Sec(tr.states[m].clock)
    ensures forall n :: 0 <= n < k && Heard(tr, n, i, a) ==> tr.states[n].clock <= tr.states[m].clock
    decreases k
  {
    assert k > 0;
    TraceStep(tr, k - 1);
    if Heard(tr, k - 1, i, a) {
      m := k - 1;
      forall n | 0 <= n < k && Heard(tr, n, i, a) ensures tr.states[n].clock <= tr.states[m].clock {
        ClockGrows(tr, n, m);
      }
    } else {
      var e := tr.events[k-1];
      if e.On? && e.link == i {
        StepRecord(tr.states[k-1].links[i], tr.states[k-1].clock, e.step, a);
      }
      m := LastHeard(tr, k - 1, i, a);
    }
  }

  // ----- The answers -----

  /** The request has looked at everything it has to look at. */
  predicate Answered(s: State, r: nat) {
    forall i :: 0 <= i < |s.links| ==> r in s.links[i].copies && s.links[i].copies[r].left == {}
  }

  /** The answer is 503. */
  predicate Unready(s: State, r: nat) {
    exists i :: 0 <= i < |s.links| && r in s.links[i].copies && s.links[i].copies[r].late.Some?
  }

  /** A request sees each connection as it was when its records were copied. */
  lemma {:induction false} CopyKept(tr: Trace, j: nat, k: nat, i: nat, r: nat)
    requires IsTrace(tr) && j < k < |tr.states| && tr.events[j] == On(i, TakeCopy(r))
    ensures i < |tr.states[k].links| && r in tr.states[k].links[i].copies && i < |tr.states[j].links|
    ensures tr.states[k].links[i].copies[r].at == tr.states[j].clock
    ensures tr.states[k].links[i].copies[r].records == tr.states[j].links[i].records
    decreases k
  {
    TraceStep(tr, k - 1);
    if j < k - 1 {
      CopyKept(tr, j, k - 1, i, r);
    }
  }

  lemma {:induction false} CopyOrigin(tr: Trace, k: nat, i: nat, r: nat) returns (j: nat)
    requires IsTrace(tr) && k < |tr.states| && i < |tr.states[k].links| && r in tr.states[k].links[i].copies
    ensures j < k && tr.events[j] == On(i, TakeCopy(r))
    decreases k
  {
    assert k > 0;
    TraceStep(tr, k - 1);
    if r in tr.states[k-1].links[i].copies {
      j := CopyOrigin(tr, k - 1, i, r);
    } else {
      j := k - 1;
    }
  }

  /** A ready answer vouches for every checked address: it was heard or seeded at most interval + 2 seconds before
      its connection's records were copied. */
  lemma ReadyMeansHeard(tr: Trace, j: nat, k: nat, r: nat, i: nat, a: string) returns (m: nat)
    requires IsTrace(tr) && j < k < |tr.states| && Answered(tr.states[k], r) && !Unready(tr.states[k], r)
    requires tr.events[j] == On(i, TakeCopy(r)) && i < |tr.states[j].links|
    requires tr.states[j].links[i].wireguard && a in tr.states[j].links[i].addrs
    ensures m < j && Heard(tr, m, i, a)
    ensures tr.states[j].clock - tr.states[m].clock <= (tr.states[j].links[i].interval + 2) * SECOND
  {
    TraceStep(tr, j);
    InvTrace(tr, j);
    InvTrace(tr, k);
    CopyKept(tr, j, k, i, r);
    ConfigFixed(tr, j, k, i);
    assert !tr.states[j].links[i].phase.Idle?;
    m := LastHeard(tr, j, i, a);
    var l := tr.states[k].links[i];
    assert LinkInv(tr.states[j].links[i], tr.states[j].clock) && LinkInv(l, tr.states[k].clock);
    assert a in l.copies[r].records && !Overdue(l.copies[r].records[a], l.interval, tr.states[j].clock);
    OverdueBounds(tr.states[m].clock, l.interval, tr.states[j].clock);
  }

  /** A 503 comes from a pinged connection with a checked address that, up to the copying of its records, had been
      silent for more than interval + 1 seconds when it was looked at. */
  lemma UnreadyMeansSilence(tr: Trace, k: nat, r: nat) returns (i: nat, j: nat, a: string, at: int)
    requires IsTrace(tr) && k < |tr.states| && Unready(tr.states[k], r)
    ensures j < k && tr.events[j] == On(i, TakeCopy(r)) && i < |tr.states[j].links|
    ensures var l := tr.states[j].links[i];
            && l.wireguard && a in l.addrs
            && tr.states[j].clock <= at <= tr.states[k].clock
            && forall n :: 0 <= n < j && Heard(tr, n, i, a) ==> at - tr.states[n].clock > (l.interval + 1) * SECOND
  {
    InvTrace(tr, k);
    var c :| 0 <= c < |tr.states[k].links| && r in tr.states[k].links[c].copies && tr.states[k].links[c].copies[r].late.Some?;
    i := c;
    var l := tr.states[k].links[i];
    j := CopyOrigin(tr, k, i, r);
    CopyKept(tr, j, k, i, r);
    ConfigFixed(tr, j, k, i);
    InvTrace(tr, j);
    a, at := l.copies[r].late.value.addr, l.copies[r].late.value.at;
    assert LinkInv(l, tr.states[k].clock) && LinkInv(tr.states[j].links[i], tr.states[j].clock);
    var m := LastHeard(tr, j, i, a);
    OverdueBounds(tr.states[m].clock, l.interval, at);
  }

  // ----- The rounds -----

  /** Step k is the given step of connection i. */
  predicate Is(tr: Trace, k: nat, i: nat, e: LinkEvent)
    requires k < |tr.events|
  {
    tr.events[k] == On(i, e)
  }

  /** How a sleep that began at step j ends is known from the phase it leaves. */
  lemma {:induction false} SleepsOn(tr: Trace, j: nat, k: nat, i: nat)
    requires IsTrace(tr) && j < k < |tr.states| && i < |tr.states[0].links| && Is(tr, j, i, EndRound)
    requires forall n :: j < n < k ==> !Is(tr, n, i, BeginRound)
    ensures |tr.states[k].links| == |tr.states[0].links| && tr.states[k].links[i].phase.Sleeping?
    ensures var l := tr.states[k].links[i];
            l.phase.wake == tr.states[j].clock + (if l.interval < 1 then 1 else l.interval) * SECOND
    decreases k
  {
    TraceStep(tr, k - 1);
    if j < k - 1 {
      SleepsOn(tr, j, k - 1, i);
      assert !Is(tr, k - 1, i, BeginRound);
    }
  }

  /** After a round, the next one can begin exactly when the interval, but at least one second, has passed. */
  lemma NextRoundIff(tr: Trace, j: nat, k: nat, i: nat)
    requires IsTrace(tr) && j < k < |tr.states| && i < |tr.states[0].links| && Is(tr, j, i, EndRound)
    requires forall n :: j < n < k ==> !Is(tr, n, i, BeginRound)
    ensures i < |tr.states[k].links|
    ensures var l := tr.states[k].links[i];
            Enabled(tr.states[k], On(i, BeginRound)) <==>
              tr.states[k].clock - tr.states[j].clock >= (if l.interval < 1 then 1 else l.interval) * SECOND
  {
    SleepsOn(tr, j, k, i);
  }

  /** In a round, every address is dialled once, in the order of the configuration. */
  lemma {:induction false} RoundDialsAll(tr: Trace, j: nat, k: nat, i: nat)
    requires IsTrace(tr) && j < k < |tr.states| && i < |tr.states[0].links| && Is(tr, j, i, BeginRound)
    requires forall n :: j < n < k ==> !Is(tr, n, i, BeginRound) && !Is(tr, n, i, EndRound)
    ensures |tr.states[k].links| == |tr.states[0].links|
    ensures var l := tr.states[k].links[i];
            && l.phase == Pinging(tr.states[j].clock, Launches(tr, j, k, i)) && Launches(tr, j, k, i) <= |l.addrs|
            && (Enabled(tr.states[k], On(i, EndRound)) <==> Launches(tr, j, k, i) == |l.addrs|)
    decreases k
  {
    TraceStep(tr, k - 1);
    if j < k - 1 {
      RoundDialsAll(tr, j, k - 1, i);
      assert !Is(tr, k - 1, i, BeginRound) && !Is(tr, k - 1, i, EndRound);
    }
  }

  /** The number of addresses that connection i has dialled, or tried to, from step j on. */
  function Launches(tr: Trace, j: nat, k: nat, i: nat): nat
    requires j <= k <= |tr.events|
  {
    if j == k then 0
    else Launches(tr, j, k - 1, i) + if Is(tr, k - 1, i, Launch(true)) || Is(tr, k - 1, i, Launch(false)) then 1 else 0
  }

  /** A dial that succeeds launches a probe of the address whose turn it is. */
  lemma LaunchProbes(tr: Trace, k: nat, i: nat)
    requires IsTrace(tr) && k < |tr.events| && Is(tr, k, i, Launch(true))
    ensures i < |tr.states[k].links| && i < |tr.states[k+1].links|
    ensures var l, l' := tr.states[k].links[i], tr.states[k+1].links[i];
            && l.phase.Pinging? && l.phase.next < |l.addrs|
            && l'.probes == l.probes + [Probe(l.addrs[l.phase.next], l.phase.round, false)]
  {
    TraceStep(tr, k);
  }
}
