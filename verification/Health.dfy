/** The liveness record of a connection, and the registry that reports it. */
module Health {
  import opened Text
  import opened Sorting
  import opened Config
  import Connections

  /** Nanoseconds in a second. */
  const SECOND := 1_000_000_000

  /** time.Time.Unix of a clock in nanoseconds. */
  function Sec(t: int): int {
    t / SECOND
  }

  type Records = map<string, int>

  /** The test of pingSnapshot.stale on one record. */
  predicate Overdue(record: int, interval: int, now: int) {
    now - record * SECOND > (interval + 2) * SECOND
  }

  /** Truncation to whole seconds moves the test by less than one second, and only towards stale. */
  lemma OverdueBounds(t: int, interval: int, now: int)
    ensures Overdue(Sec(t), interval, now) ==> now - t > (interval + 1) * SECOND
    ensures now - t > (interval + 2) * SECOND ==> Overdue(Sec(t), interval, now)
  {
    assert Sec(t) * SECOND <= t < Sec(t) * SECOND + SECOND;
  }

  function Seeded(records: Records, addrs: seq<string>, sec: int): Records {
    records + map a | a in addrs :: sec
  }

  datatype PingSnapshot = PingSnapshot(name: string, checkAlive: bool, interval: int, records: Records)

  /** `clock` gives the reading of the clock when a record is looked at. */
  ghost predicate Stale(snap: PingSnapshot, clock: string -> int) {
    snap.checkAlive && exists a :: a in snap.records && Overdue(snap.records[a], snap.interval, clock(a))
  }

  method IsStale(snap: PingSnapshot, clock: string -> int) returns (stale: bool)
    ensures stale <==> Stale(snap, clock)
  {
    if !snap.checkAlive {
      return false;
    }
    var left := snap.records.Keys;
    while left != {}
      invariant left <= snap.records.Keys
      invariant forall a :: a in snap.records && a !in left ==> !Overdue(snap.records[a], snap.interval, clock(a))
      decreases |left|
    {
      var a :| a in left;
      if Overdue(snap.records[a], snap.interval, clock(a)) {
        return true;
      }
      left := left - {a};
    }
    stale := false;
  }

  // ----- A connection -----

  class VirtualTun {
    const name: string
    const checkAlive: seq<string>   // CheckAlive, each address by its String()
    const interval: int             // CheckAliveInterval
    const wireguard: bool           // Tnet and Dev are set
    var records: Records            // PingRecord

    constructor (name: string, checkAlive: seq<string>, interval: int, wireguard: bool)
      ensures this.name == name && this.checkAlive == checkAlive
      ensures this.interval == interval && this.wireguard == wireguard && records == map[]
    {
      this.name, this.checkAlive, this.interval, this.wireguard := name, checkAlive, interval, wireguard;
      records := map[];
    }

    ghost function Snapshot(): PingSnapshot
      reads this
    {
      PingSnapshot(name, |checkAlive| > 0 && wireguard, interval, records)
    }

    /** The part of StartPingIPs before the ping loop; `started` says whether that loop runs. */
    method StartPingIPs(now: int) returns (started: bool)
      modifies this
      ensures started <==> wireguard && |checkAlive| > 0
      ensures records == if started then Seeded(old(records), checkAlive, Sec(now)) else old(records)
    {
      if !wireguard || |checkAlive| == 0 {
        return false;
      }
      var sec := Sec(now);
      for i := 0 to |checkAlive|
        invariant records == Seeded(old(records), checkAlive[..i], sec)
      {
        records := records[checkAlive[i] := sec];
        assert checkAlive[..i+1] == checkAlive[..i] + [checkAlive[i]];
      }
      assert checkAlive[..|checkAlive|] == checkAlive;
      started := true;
    }

    /** The end of a probe whose reply matched. */
    method RecordPong(addr: string, now: int)
      modifies this
      ensures records.Keys == old(records.Keys) + {addr} && records[addr] == Sec(now)
      ensures forall a :: a in old(records) && a != addr ==> records[a] == old(records)[a]
      ensures forall i, later :: later - now <= (i + 1) * SECOND ==> !Overdue(records[addr], i, later)
      ensures forall i, later :: later - now > (i + 2) * SECOND ==> Overdue(records[addr], i, later)
    {
      records := records[addr := Sec(now)];
      forall i, later ensures later - now <= (i + 1) * SECOND ==> !Overdue(records[addr], i, later)
                      ensures later - now > (i + 2) * SECOND ==> Overdue(records[addr], i, later)
      {
        OverdueBounds(now, i, later);
      }
    }

    method CopyRecords() returns (snap: PingSnapshot)
      ensures snap == Snapshot()
      ensures snap.name == name && snap.interval == interval && snap.records == records
      ensures snap.checkAlive <==> wireguard && |checkAlive| > 0
    {
      var copy: Records := map[];
      var left := records.Keys;
      while left != {}
        invariant left <= records.Keys
        invariant copy == map a | a in records && a !in left :: records[a]
        decreases |left|
      {
        var a :| a in left;
        copy := copy[a := records[a]];
        left := left - {a};
      }
      assert copy == records;
      snap := PingSnapshot(name, |checkAlive| > 0 && wireguard, interval, copy);
    }
  }

  // ----- Order of the report -----

  predicate NameSorted(s: seq<PingSnapshot>) {
    forall i, j :: 0 <= i < j < |s| ==> !Less(s[j].name, s[i].name)
  }

  predicate DistinctNames(s: seq<PingSnapshot>) {
    forall i, j :: 0 <= i < j < |s| ==> s[i].name != s[j].name
  }

  /** Some list that sort.Slice may leave; which one it is matters only if names repeat. */
  ghost predicate SortOf(out: seq<PingSnapshot>, s: seq<PingSnapshot>) {
    NameSorted(out) && multiset(out) == multiset(s)
  }

  lemma {:induction false} DistinctPermutation(s: seq<PingSnapshot>, t: seq<PingSnapshot>)
    requires multiset(s) == multiset(t) && DistinctNames(s)
    ensures DistinctNames(t)
  {
    forall i, j | 0 <= i < j < |t| ensures t[i].name != t[j].name {
      if t[i] == t[j] {
        var rest := t[..j] + t[j+1..];
        assert t == t[..j] + [t[j]] + t[j+1..];
        assert multiset(t) == multiset(rest) + multiset{t[j]};
        assert rest[i] == t[j];
        assert multiset(s)[t[j]] >= 2;
        OnceOnly(s, t[j]);
        assert false;
      }
      assert t[i] in multiset(s) && t[j] in multiset(s);
    }
  }

  lemma {:induction false} OnceOnly(s: seq<PingSnapshot>, x: PingSnapshot)
    requires DistinctNames(s)
    ensures multiset(s)[x] <= 1
  {
    if s != [] {
      var m := |s| - 1;
      assert s == s[..m] + [s[m]];
      OnceOnly(s[..m], x);
      if x == s[m] {
        assert x !in s[..m];
      }
    }
  }

  /** With distinct names the sorted list depends only on which snapshots there are. */
  lemma SortIsUnique(a: seq<PingSnapshot>, b: seq<PingSnapshot>, s: seq<PingSnapshot>, t: seq<PingSnapshot>)
    requires SortOf(a, s) && SortOf(b, t) && DistinctNames(s) && DistinctNames(t)
    requires forall x :: x in s <==> x in t
    ensures a == b
  {
    DistinctPermutation(s, a);
    DistinctPermutation(t, b);
    var less := (x: PingSnapshot, y: PingSnapshot) => Less(x.name, y.name);
    forall x: PingSnapshot, y: PingSnapshot ensures !(less(x, y) && less(y, x)) {
      LessTotal(x.name, y.name);
    }
    StrictlySorted(a);
    StrictlySorted(b);
    forall x ensures x in a <==> x in b {
      assert (x in a <==> x in multiset(s)) && (x in multiset(s) <==> x in s);
      assert (x in b <==> x in multiset(t)) && (x in multiset(t) <==> x in t);
    }
    SortedUnique(a, b, less);
  }

  lemma StrictlySorted(a: seq<PingSnapshot>)
    requires NameSorted(a) && DistinctNames(a)
    ensures SortedBy(a, (x: PingSnapshot, y: PingSnapshot) => Less(x.name, y.name))
  {
    forall i, j | 0 <= i < j < |a| ensures Less(a[i].name, a[j].name) {
      LessTotal(a[i].name, a[j].name);
    }
  }

  method InsertByName(s: seq<PingSnapshot>, x: PingSnapshot) returns (out: seq<PingSnapshot>)
    requires NameSorted(s)
    ensures SortOf(out, s + [x])
  {
    var k := |s|;
    while k > 0 && Less(x.name, s[k-1].name)
      invariant 0 <= k <= |s|
      invariant forall i :: k <= i < |s| ==> Less(x.name, s[i].name)
    {
      k := k - 1;
    }
    out := s[..k] + [x] + s[k..];
    InsertedIsSorted(s, x, k);
    InsertedIsPermuted(s, x, k);
  }

  lemma InsertedIsPermuted(s: seq<PingSnapshot>, x: PingSnapshot, k: nat)
    requires k <= |s|
    ensures multiset(s[..k] + [x] + s[k..]) == multiset(s + [x])
  {
    assert s == s[..k] + s[k..];
  }

  lemma InsertedIsSorted(s: seq<PingSnapshot>, x: PingSnapshot, k: nat)
    requires k <= |s| && NameSorted(s)
    requires k > 0 ==> !Less(x.name, s[k-1].name)
    requires forall i :: k <= i < |s| ==> Less(x.name, s[i].name)
    ensures NameSorted(s[..k] + [x] + s[k..])
  {
    forall i | k <= i < |s| ensures !Less(s[i].name, x.name) {
      LessTotal(s[i].name, x.name);
    }
    forall i | 0 <= i < k ensures !Less(x.name, s[i].name) {
      if Less(x.name, s[i].name) {
        AtMost(x.name, s[i].name, s[k-1].name);
      }
    }
  }

  lemma AtMost(a: string, b: string, c: string)
    requires Less(a, b) && !Less(c, b)
    ensures Less(a, c)
  {
    LessTotal(b, c);
    if b != c {
      LessTrans(a, b, c);
    }
  }

  method SortByName(s: seq<PingSnapshot>) returns (out: seq<PingSnapshot>)
    ensures SortOf(out, s)
  {
    out := [];
    for i := 0 to |s|
      invariant SortOf(out, s[..i])
    {
      out := InsertByName(out, s[i]);
      assert s[..i+1] == s[..i] + [s[i]];
    }
    assert s[..|s|] == s;
  }

  // ----- The registry -----

  /** The report of /readyz: later snapshots replace earlier ones of the same name. */
  function Report(snaps: seq<PingSnapshot>): map<string, Records> {
    if snaps == [] then map[]
    else var m := |snaps| - 1; Report(snaps[..m])[snaps[m].name := snaps[m].records]
  }

  predicate HasName(snaps: seq<PingSnapshot>, n: string) {
    exists k :: 0 <= k < |snaps| && snaps[k].name == n
  }

  lemma {:induction false} ReportNames(snaps: seq<PingSnapshot>, n: string)
    ensures n in Report(snaps) <==> HasName(snaps, n)
  {
    if snaps != [] {
      var m := |snaps| - 1;
      ReportNames(snaps[..m], n);
      if HasName(snaps[..m], n) {
        var k :| 0 <= k < m && snaps[..m][k].name == n;
        assert snaps[k].name == n;
      }
      assert n == snaps[m].name ==> HasName(snaps, n);
      assert HasName(snaps, n) && n != snaps[m].name ==> HasName(snaps[..m], n) by {
        if HasName(snaps, n) && n != snaps[m].name {
          var k :| 0 <= k < |snaps| && snaps[k].name == n;
          assert snaps[..m][k].name == n;
        }
      }
    }
  }

  lemma {:induction false} ReportSize(snaps: seq<PingSnapshot>)
    requires DistinctNames(snaps)
    ensures |Report(snaps)| == |snaps|
  {
    if snaps != [] {
      var m := |snaps| - 1;
      ReportSize(snaps[..m]);
      ReportNames(snaps[..m], snaps[m].name);
      assert Report(snaps).Keys == Report(snaps[..m]).Keys + {snaps[m].name};
      assert |Report(snaps)| == |Report(snaps).Keys| && |Report(snaps[..m])| == |Report(snaps[..m]).Keys|;
    }
  }

  lemma {:induction false} ReportAt(snaps: seq<PingSnapshot>, k: nat)
    requires DistinctNames(snaps) && k < |snaps|
    ensures snaps[k].name in Report(snaps) && Report(snaps)[snaps[k].name] == snaps[k].records
  {
    var m := |snaps| - 1;
    if k < m {
      ReportAt(snaps[..m], k);
    }
  }

  /** With distinct names nothing is replaced: one entry per snapshot, holding its records, and no others. */
  lemma ReportIsComplete(snaps: seq<PingSnapshot>)
    requires DistinctNames(snaps)
    ensures |Report(snaps)| == |snaps|
    ensures forall k :: 0 <= k < |snaps| ==> snaps[k].name in Report(snaps) && Report(snaps)[snaps[k].name] == snaps[k].records
    ensures forall n :: n in Report(snaps) ==> HasName(snaps, n)
  {
    ReportSize(snaps);
    forall k | 0 <= k < |snaps| ensures snaps[k].name in Report(snaps) && Report(snaps)[snaps[k].name] == snaps[k].records {
      ReportAt(snaps, k);
    }
    forall n | n in Report(snaps) ensures HasName(snaps, n) {
      ReportNames(snaps, n);
    }
  }

  /** A WireGuard connection with CheckAlive addresses, one of which was last heard more than interval + 2 seconds
      before `now`. */
  ghost predicate Silent(vt: VirtualTun, now: int)
    reads vt
  {
    && vt.wireguard && |vt.checkAlive| > 0
    && exists a :: a in vt.records && now - vt.records[a] * SECOND > (vt.interval + 2) * SECOND
  }

  /** All readings of the clock lie between the two. */
  ghost predicate Within(clock: (nat, string) -> int, lo: int, hi: int) {
    forall k, a :: lo <= clock(k, a) <= hi
  }

  lemma SilentIsStale(vt: VirtualTun, clock: string -> int, lo: int, hi: int)
    requires forall a :: lo <= clock(a) <= hi
    ensures Silent(vt, lo) ==> Stale(vt.Snapshot(), clock)
    ensures Stale(vt.Snapshot(), clock) ==> Silent(vt, hi)
  {
    if Silent(vt, lo) {
      var a :| a in vt.records && lo - vt.records[a] * SECOND > (vt.interval + 2) * SECOND;
      assert Overdue(vt.Snapshot().records[a], vt.interval, clock(a));
    }
    if Stale(vt.Snapshot(), clock) {
      var a :| a in vt.records && Overdue(vt.records[a], vt.interval, clock(a));
      assert hi - vt.records[a] * SECOND > (vt.interval + 2) * SECOND;
    }
  }

  class HealthRegistry {
    var conns: seq<VirtualTun>

    constructor ()
      ensures conns == []
    {
      conns := [];
    }

    ghost function Snapshots(): (r: seq<PingSnapshot>)
      reads this, conns
      ensures |r| == |conns| && forall i :: 0 <= i < |r| ==> r[i] == conns[i].Snapshot()
    {
      seq(|conns|, i requires 0 <= i < |conns| reads this, conns => conns[i].Snapshot())
    }

    method Add(vt: VirtualTun)
      modifies this
      ensures conns == old(conns) + [vt]
      ensures Snapshots() == old(Snapshots()) + [vt.Snapshot()]
    {
      conns := conns + [vt];
    }

    ghost predicate SomeSilent(now: int)
      reads this, conns
    {
      exists i :: 0 <= i < |conns| && Silent(conns[i], now)
    }

    ghost predicate ConnsDiffer()
      reads this, conns
    {
      forall i, j :: 0 <= i < j < |conns| ==> conns[i].name != conns[j].name
    }

    lemma SnapshotAt(snaps: seq<PingSnapshot>, i: nat) returns (k: nat)
      requires SortOf(snaps, Snapshots()) && i < |conns|
      ensures k < |snaps| && snaps[k] == conns[i].Snapshot()
    {
      assert Snapshots()[i] in multiset(snaps);
      k :| 0 <= k < |snaps| && snaps[k] == Snapshots()[i];
    }

    lemma SnapshotFrom(snaps: seq<PingSnapshot>, k: nat) returns (i: nat)
      requires SortOf(snaps, Snapshots()) && k < |snaps|
      ensures i < |conns| && snaps[k] == conns[i].Snapshot()
    {
      assert snaps[k] in multiset(Snapshots());
      i :| 0 <= i < |Snapshots()| && Snapshots()[i] == snaps[k];
    }

    lemma VerdictIs(snaps: seq<PingSnapshot>, clock: (nat, string) -> int, lo: int, hi: int)
      requires SortOf(snaps, Snapshots()) && Within(clock, lo, hi)
      ensures (exists k: nat :: k < |snaps| && Stale(snaps[k], a => clock(k, a))) ==> SomeSilent(hi)
      ensures SomeSilent(lo) ==> exists k: nat :: k < |snaps| && Stale(snaps[k], a => clock(k, a))
    {
      if k: nat :| k < |snaps| && Stale(snaps[k], a => clock(k, a)) {
        var i := SnapshotFrom(snaps, k);
        SilentIsStale(conns[i], a => clock(k, a), lo, hi);
      }
      if SomeSilent(lo) {
        var i :| 0 <= i < |conns| && Silent(conns[i], lo);
        var k := SnapshotAt(snaps, i);
        SilentIsStale(conns[i], a => clock(k, a), lo, hi);
        assert Stale(snaps[k], a => clock(k, a));
      }
    }

    lemma ReportIs(snaps: seq<PingSnapshot>)
      requires SortOf(snaps, Snapshots()) && ConnsDiffer()
      ensures |Report(snaps)| == |conns|
      ensures forall vt :: vt in conns ==> vt.name in Report(snaps) && Report(snaps)[vt.name] == vt.records
    {
      DistinctPermutation(Snapshots(), snaps);
      ReportIsComplete(snaps);
      assert |multiset(snaps)| == |multiset(Snapshots())|;
      forall vt | vt in conns ensures vt.name in Report(snaps) && Report(snaps)[vt.name] == vt.records {
        var i :| 0 <= i < |conns| && conns[i] == vt;
        var k := SnapshotAt(snaps, i);
      }
    }

    method Snapshot() returns (out: seq<PingSnapshot>)
      ensures SortOf(out, Snapshots())
    {
      var all: seq<PingSnapshot> := [];
      for i := 0 to |conns|
        invariant all == Snapshots()[..i]
      {
        var snap := conns[i].CopyRecords();
        all := all + [snap];
      }
      assert all == Snapshots();
      out := SortByName(all);
    }

    /** The body of /readyz; `clock` gives the reading for each record of the k-th snapshot. The snapshots it
        went through are returned besides the report. */
    method Readyz(clock: (nat, string) -> int) returns (report: map<string, Records>, ready: bool, snaps: seq<PingSnapshot>)
      ensures SortOf(snaps, Snapshots()) && report == Report(snaps)
      ensures ready <==> forall k: nat :: k < |snaps| ==> !Stale(snaps[k], a => clock(k, a))
      ensures forall lo, hi :: Within(clock, lo, hi) && !ready ==> SomeSilent(hi)
      ensures forall lo, hi :: Within(clock, lo, hi) && SomeSilent(lo) ==> !ready
      ensures forall now :: Within(clock, now, now) ==> (ready <==> !SomeSilent(now))
      ensures ConnsDiffer() ==> |report| == |conns|
      ensures ConnsDiffer() ==> forall vt :: vt in conns ==> vt.name in report && report[vt.name] == vt.records
    {
      snaps := Snapshot();
      report, ready := map[], true;
      for k := 0 to |snaps|
        invariant report == Report(snaps[..k])
        invariant ready <==> forall j: nat :: j < k ==> !Stale(snaps[j], a => clock(j, a))
      {
        report := report[snaps[k].name := snaps[k].records];
        assert snaps[..k+1][..k] == snaps[..k];
        var stale := IsStale(snaps[k], a => clock(k, a));
        if stale {
          ready := false;
        }
      }
      assert snaps[..|snaps|] == snaps;
      forall lo, hi | Within(clock, lo, hi)
        ensures (!ready ==> SomeSilent(hi)) && (SomeSilent(lo) ==> !ready)
      {
        VerdictIs(snaps, clock, lo, hi);
      }
      if ConnsDiffer() {
        ReportIs(snaps);
      }
    }
  }

  // ----- Connections accepted by ValidateConnections -----

  /** The connections that started, in the order of their Add calls: each spec at most once. */
  predicate Registered(specs: seq<ConnectionSpec>, order: seq<nat>) {
    && (forall i :: 0 <= i < |order| ==> order[i] < |specs|)
    && (forall i, j :: 0 <= i < j < |order| ==> order[i] != order[j])
  }

  /** Their snapshots at one moment, `state` being the snapshot of each spec's connection. */
  ghost predicate SnapshotsOf(snaps: seq<PingSnapshot>, specs: seq<ConnectionSpec>, order: seq<nat>, state: seq<PingSnapshot>)
    requires Registered(specs, order)
  {
    && |state| == |specs| && (forall i :: 0 <= i < |specs| ==> state[i].name == specs[i].name)
    && |snaps| == |order| && (forall i :: 0 <= i < |order| ==> snaps[i] == state[order[i]])
  }

  lemma AcceptedNamesDiffer(specs: seq<ConnectionSpec>, info: string, env: Env, order: seq<nat>,
                            state: seq<PingSnapshot>, snaps: seq<PingSnapshot>)
    requires Connections.ValidSpecs(specs, info, env) && Registered(specs, order) && SnapshotsOf(snaps, specs, order, state)
    ensures DistinctNames(snaps)
  {
    forall i, j | 0 <= i < j < |snaps| ensures snaps[i].name != snaps[j].name {
      var m, n := order[i], order[j];
      if m < n {
        assert !Connections.Clash(specs[m], specs[n], env);
      } else {
        assert !Connections.Clash(specs[n], specs[m], env);
      }
    }
  }

  lemma SameSnapshots(order: seq<nat>, order': seq<nat>, state: seq<PingSnapshot>, snaps: seq<PingSnapshot>, snaps': seq<PingSnapshot>)
    requires forall c :: c in order ==> c in order'
    requires |snaps| == |order| && (forall i :: 0 <= i < |order| ==> order[i] < |state| && snaps[i] == state[order[i]])
    requires |snaps'| == |order'| && (forall i :: 0 <= i < |order'| ==> order'[i] < |state| && snaps'[i] == state[order'[i]])
    ensures forall x :: x in snaps ==> x in snaps'
  {
    forall x | x in snaps ensures x in snaps' {
      var i :| 0 <= i < |snaps| && snaps[i] == x;
      assert order[i] in order';
      var j :| 0 <= j < |order'| && order'[j] == order[i];
      assert snaps'[j] == x;
    }
  }

  /** Whatever order the connections started in, the sorted list and the report are the same, and the report
      has one entry for each of them. */
  lemma StartOrderIrrelevant(specs: seq<ConnectionSpec>, info: string, env: Env, order: seq<nat>, order': seq<nat>,
                             state: seq<PingSnapshot>, snaps: seq<PingSnapshot>, snaps': seq<PingSnapshot>,
                             out: seq<PingSnapshot>, out': seq<PingSnapshot>)
    requires Connections.ValidSpecs(specs, info, env) && Registered(specs, order) && Registered(specs, order')
    requires forall c :: c in order <==> c in order'
    requires SnapshotsOf(snaps, specs, order, state) && SnapshotsOf(snaps', specs, order', state)
    requires SortOf(out, snaps) && SortOf(out', snaps')
    ensures out == out' && |Report(out)| == |order|
    ensures forall i :: 0 <= i < |order| ==>
              specs[order[i]].name in Report(out) && Report(out)[specs[order[i]].name] == state[order[i]].records
  {
    AcceptedNamesDiffer(specs, info, env, order, state, snaps);
    AcceptedNamesDiffer(specs, info, env, order', state, snaps');
    SameSnapshots(order, order', state, snaps, snaps');
    SameSnapshots(order', order, state, snaps', snaps);
    SortIsUnique(out, out', snaps, snaps');
    DistinctPermutation(snaps, out);
    ReportIsComplete(out);
    assert |multiset(out)| == |multiset(snaps)|;
    forall i | 0 <= i < |order|
      ensures specs[order[i]].name in Report(out) && Report(out)[specs[order[i]].name] == state[order[i]].records
    {
      assert snaps[i] in multiset(out);
      var k :| 0 <= k < |out| && out[k] == snaps[i];
    }
  }
}
