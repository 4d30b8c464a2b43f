/** The steps of the liveness monitor are what the code of a connection and of its snapshots does. */
module ProbingCode {
  import opened Wrappers
  import opened Health
  import opened Probing

  /** The connection object is in the state of the link. */
  ghost predicate Represents(vt: VirtualTun, l: Link)
    reads vt
  {
    vt.checkAlive == l.addrs && vt.interval == l.interval && vt.wireguard == l.wireguard && vt.records == l.records
  }

  /** StartPingIPs is the Seed step: it starts the ping loop exactly when that step is enabled, and then leaves the
      records that the step leaves. */
  method Start(vt: VirtualTun, ghost l: Link, now: int) returns (started: bool)
    requires Represents(vt, l) && l.phase.Idle?
    modifies vt
    ensures started <==> LinkEnabled(l, now, Seed)
    ensures Represents(vt, if LinkEnabled(l, now, Seed) then LinkStep(l, now, Seed) else l)
  {
    started := vt.StartPingIPs(now);
  }

  /** Storing the pong of a probe is the Pong step of that probe. */
  method Answer(vt: VirtualTun, ghost l: Link, ghost p: nat, addr: string, now: int)
    requires Represents(vt, l) && LinkEnabled(l, now, Pong(p)) && addr == l.probes[p].addr
    modifies vt
    ensures Represents(vt, LinkStep(l, now, Pong(p)))
  {
    vt.RecordPong(addr, now);
    assert vt.records == l.records[addr := Sec(now)];
  }

  /** The snapshot agrees with the copy of a request: same records, and something left to look at only if checked. */
  predicate Matches(snap: PingSnapshot, interval: int, c: Copy) {
    && snap.interval == interval && snap.records == c.records
    && c.left == (if snap.checkAlive then snap.records.Keys else {}) && c.late.None?
  }

  /** Copying the records is the TakeCopy step. */
  method Copy(vt: VirtualTun, ghost l: Link, ghost req: nat, ghost now: int) returns (snap: PingSnapshot)
    requires Represents(vt, l) && LinkEnabled(l, now, TakeCopy(req))
    ensures snap.name == vt.name && Matches(snap, l.interval, LinkStep(l, now, TakeCopy(req)).copies[req])
    ensures LinkStep(l, now, TakeCopy(req)).copies[req].at == now && Represents(vt, LinkStep(l, now, TakeCopy(req)))
  {
    snap := vt.CopyRecords();
  }

  /** The copy after Look steps at the given addresses, each at its own reading of the clock, up to the first record
      that is overdue. */
  function Looks(c: Copy, interval: int, order: seq<string>, clock: string -> int): Copy
    decreases |order|
  {
    if order == [] || order[0] !in c.left || order[0] !in c.records then c
    else Looks(LookAt(c, interval, order[0], clock(order[0])), interval, order[1..], clock)
  }

  /** The addresses, each once, in the order in which the map is ranged over. */
  ghost predicate Lists(order: seq<string>, keys: set<string>) {
    && (forall a :: a in keys <==> a in order)
    && (forall i, j :: 0 <= i < j < |order| ==> order[i] != order[j])
  }

  lemma {:induction false} LooksDecide(c: Copy, interval: int, order: seq<string>, clock: string -> int)
    requires Lists(order, c.left) && c.left <= c.records.Keys && c.late.None?
    ensures Looks(c, interval, order, clock).left == {}
    ensures Looks(c, interval, order, clock).late.Some? <==>
              exists a :: a in c.left && Overdue(c.records[a], interval, clock(a))
    decreases |order|
  {
    if order == [] {
      assert c.left == {};
    } else {
      var a := order[0];
      assert a in c.left;
      var d := LookAt(c, interval, a, clock(a));
      if Overdue(c.records[a], interval, clock(a)) {
        LooksEnd(d, interval, order[1..], clock);
      } else {
        ListsRest(order, c.left);
        LooksDecide(d, interval, order[1..], clock);
        assert forall b :: b in c.left <==> b == a || b in d.left;
      }
    }
  }

  lemma LooksEnd(c: Copy, interval: int, order: seq<string>, clock: string -> int)
    requires c.left == {}
    ensures Looks(c, interval, order, clock) == c
  {}

  lemma ListsRest(order: seq<string>, keys: set<string>)
    requires order != [] && Lists(order, keys)
    ensures Lists(order[1..], keys - {order[0]})
  {
    forall a ensures a in keys - {order[0]} <==> a in order[1..] {
      if a in order[1..] {
        var j :| 0 <= j < |order[1..]| && order[1..][j] == a;
        assert order[0] != order[j+1] && order[j+1] in order;
      }
    }
  }

  /** In whatever order the map is ranged over, the Look steps of a request find the copy of a connection stale exactly
      when the code finds the snapshot stale. */
  method Judge(snap: PingSnapshot, clock: string -> int, ghost c: Copy, ghost order: seq<string>) returns (stale: bool)
    requires Matches(snap, snap.interval, c) && Lists(order, c.left)
    ensures Looks(c, snap.interval, order, clock).left == {}
    ensures stale <==> Looks(c, snap.interval, order, clock).late.Some?
  {
    stale := IsStale(snap, clock);
    LooksDecide(c, snap.interval, order, clock);
  }
}
