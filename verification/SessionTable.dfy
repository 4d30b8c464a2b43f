/**
 The session table of the UDP proxy tunnel: the map from source address to
 session, the session objects it points to, and the critical sections that
 sessionMu guards.

 Session objects are identified by their index in `heap`, which stands for Go's
 pointer identity: two sessions are the same object exactly when they have the
 same index.
 */
module SessionTable {

  /** One udpSession. `closes` counts how often its closeChan has been closed,
      `src` is the address it was created for, and `published` says whether it
      has ever been put into the table. */
  datatype Session = Session(src: string, conn: nat, lastActive: int, closes: nat, published: bool)

  /** `redundant` counts how often closeSessionChan found the channel already closed. */
  datatype Table = Table(sessions: map<string, nat>, heap: seq<Session>, redundant: nat)

  const EMPTY := Table(map[], [], 0)

  /** Every pointer in the table refers to an allocated session. */
  predicate Typed(t: Table) {
    forall k :: k in t.sessions ==> t.sessions[k] < |t.heap|
  }

  predicate InTable(t: Table, id: nat)
    requires id < |t.heap|
  {
    t.heap[id].src in t.sessions && t.sessions[t.heap[id].src] == id
  }

  /** The table invariant: the published sessions that are still open are exactly the ones in the
      table, each under its own address, and no channel is closed twice. */
  ghost predicate TableOk(t: Table) {
    && Typed(t)
    && t.redundant == 0
    && (forall k :: k in t.sessions ==> t.heap[t.sessions[k]].src == k && t.heap[t.sessions[k]].published)
    && (forall id :: 0 <= id < |t.heap| && t.heap[id].published ==> (InTable(t, id) <==> t.heap[id].closes == 0))
    && (forall id :: 0 <= id < |t.heap| ==> t.heap[id].closes <= 1)
    && (forall id :: 0 <= id < |t.heap| && !t.heap[id].published ==> t.heap[id].closes == 0)
  }

  // ----- What each critical section does to the table -----

  function Touch(t: Table, id: nat, now: int): Table
    requires id < |t.heap|
  {
    t.(heap := t.heap[id := t.heap[id].(lastActive := now)])
  }

  function Build(t: Table, src: string, conn: nat, now: int): Table {
    t.(heap := t.heap + [Session(src, conn, now, 0, false)])
  }

  function Publish(t: Table, src: string, id: nat): Table
    requires id < |t.heap|
  {
    t.(sessions := t.sessions[src := id], heap := t.heap[id := t.heap[id].(published := true)])
  }

  function CloseChan(t: Table, id: nat): Table
    requires id < |t.heap|
  {
    if t.heap[id].closes > 0 then t.(redundant := t.redundant + 1)
    else t.(heap := t.heap[id := t.heap[id].(closes := 1)])
  }

  function Remove(t: Table, src: string, id: nat): Table
    requires id < |t.heap|
  {
    if src in t.sessions && t.sessions[src] == id then
      CloseChan(t, id).(sessions := t.sessions - {src})
    else
      t
  }

  predicate Expired(t: Table, key: string, now: int, idle: int)
    requires Typed(t) && key in t.sessions
  {
    now - t.heap[t.sessions[key]].lastActive >= idle
  }

  /** The table after one cleaner pass, stated without an iteration order: the
      expired entries are gone and exactly their channels are closed. */
  function Evict(t: Table, now: int, idle: int): Table
    requires Typed(t)
  {
    var gone := set k | k in t.sessions && Expired(t, k, now, idle);
    EvictKeys(t, gone)
  }

  function EvictKeys(t: Table, gone: set<string>): Table
  {
    t.(sessions := t.sessions - gone,
       heap := seq(|t.heap|, i requires 0 <= i < |t.heap| =>
                 if t.heap[i].src in gone && InTable(t, i) then t.heap[i].(closes := 1) else t.heap[i]))
  }

  // ----- The table as the object its closures mutate -----

  class UdpTable {
    var sessions: map<string, nat>
    var heap: seq<Session>
    var redundant: nat

    ghost function View(): Table
      reads this
    {
      Table(sessions, heap, redundant)
    }

    ghost predicate Valid()
      reads this
    {
      TableOk(View())
    }

    constructor ()
      ensures Valid() && View() == EMPTY
    {
      sessions, heap, redundant := map[], [], 0;
    }

    /** closeSessionChan: the select on closeChan decides which branch runs. */
    method CloseSessionChan(id: nat)
      requires id < |heap|
      modifies this
      ensures View() == CloseChan(old(View()), id)
    {
      if heap[id].closes > 0 {
        redundant := redundant + 1;
      } else {
        heap := heap[id := heap[id].(closes := heap[id].closes + 1)];
      }
    }

    /** removeSession: acts only while src still maps to this very session. */
    method RemoveSession(src: string, id: nat)
      requires Valid() && id < |heap|
      modifies this
      ensures Valid() && View() == Remove(old(View()), src, id)
      ensures heap[id].published && heap[id].src == src ==> heap[id].closes == 1
      ensures forall j :: 0 <= j < |heap| && j != id ==>
                heap[j] == old(heap[j]) && (InTable(View(), j) <==> old(InTable(View(), j)))
    {
      if src in sessions && sessions[src] == id {
        CloseSessionChan(id);
        sessions := sessions - {src};
      }
    }

    /** The body of one cleaner tick, under the lock, in whatever order the map is ranged over. */
    method CleanerPass(now: int, idle: int)
      requires Valid()
      modifies this
      ensures Valid() && View() == Evict(old(View()), now, idle)
      ensures forall k :: k in sessions ==> now - heap[sessions[k]].lastActive < idle
    {
      var todo := sessions.Keys;
      ghost var t0 := View();
      ghost var gone: set<string> := {};
      while todo != {}
        invariant todo <= t0.sessions.Keys && todo !! gone
        invariant gone == set k | k in t0.sessions && k !in todo && Expired(t0, k, now, idle)
        invariant View() == EvictKeys(t0, gone)
        decreases todo
      {
        var key :| key in todo;
        todo := todo - {key};
        var id := sessions[key];
        if now - heap[id].lastActive >= idle {
          CloseSessionChan(id);
          sessions := sessions - {key};
          EvictOneMore(t0, gone, key);
          gone := gone + {key};
        }
      }
      assert gone == set k | k in t0.sessions && Expired(t0, k, now, idle);
      EvictKeepsTable(t0, gone);
    }

    /** The first critical section of getOrCreateSession. */
    method LookupSession(src: string, now: int) returns (found: bool, id: nat)
      requires Valid()
      modifies this
      ensures Valid() && found == (src in old(sessions))
      ensures found ==> id == old(sessions)[src] && View() == Touch(old(View()), id, now) && heap[id].closes == 0
      ensures !found ==> View() == old(View())
    {
      found, id := src in sessions, 0;
      if found {
        id := sessions[src];
        heap := heap[id := heap[id].(lastActive := now)];
      }
    }

    /** The session getOrCreateSession builds on a fresh connection, before anyone else can see it. */
    method NewSession(src: string, conn: nat, now: int) returns (id: nat)
      requires Valid()
      modifies this`heap
      ensures Valid() && id == |old(heap)| && View() == Build(old(View()), src, conn, now)
      ensures forall k :: k in sessions ==> sessions[k] != id
    {
      id := |heap|;
      heap := heap + [Session(src, conn, now, 0, false)];
      BuildKeepsTable(old(View()), src, conn, now);
    }

    /** The reader loop and the handler stamp a session they hold, in the table or not. */
    method TouchSession(id: nat, now: int)
      requires Valid() && id < |heap|
      modifies this`heap
      ensures Valid() && View() == Touch(old(View()), id, now)
    {
      heap := heap[id := heap[id].(lastActive := now)];
      TouchKeepsTable(old(View()), id, now);
    }

    /** The second critical section of getOrCreateSession: install `id`, or yield to the session
        another caller installed for the same source in the meantime. */
    method PublishSession(src: string, id: nat, now: int) returns (won: bool, current: nat)
      requires Valid() && id < |heap| && !heap[id].published && heap[id].src == src
      modifies this
      ensures Valid() && current < |heap| && heap[current].src == src && InTable(View(), current)
      ensures won == (src !in old(sessions))
      ensures won ==> current == id && View() == Publish(old(View()), src, id)
      ensures !won ==> current == old(sessions)[src] != id && View() == Touch(old(View()), current, now)
    {
      if src in sessions {
        won, current := false, sessions[src];
        heap := heap[current := heap[current].(lastActive := now)];
      } else {
        won, current := true, id;
        sessions := sessions[src := id];
        heap := heap[id := heap[id].(published := true)];
      }
    }
  }

  // ----- Lemmas about the specification -----

  /** Evicting one more entry is closing its channel once and dropping its key. */
  lemma EvictOneMore(t: Table, gone: set<string>, key: string)
    requires TableOk(t) && key in t.sessions && key !in gone
    ensures var e := EvictKeys(t, gone);
            && t.sessions[key] < |e.heap| && e.heap[t.sessions[key]].closes == 0
            && CloseChan(e, t.sessions[key]).(sessions := e.sessions - {key}) == EvictKeys(t, gone + {key})
  {
    var e, f := EvictKeys(t, gone), EvictKeys(t, gone + {key});
    var id := t.sessions[key];
    assert e.sessions - {key} == f.sessions;
    assert CloseChan(e, id).heap == f.heap;
  }

  lemma EvictKeepsTable(t: Table, gone: set<string>)
    requires TableOk(t)
    ensures TableOk(EvictKeys(t, gone))
  {
    var e := EvictKeys(t, gone);
    forall id | 0 <= id < |e.heap| && e.heap[id].published
      ensures InTable(e, id) <==> e.heap[id].closes == 0
    {
      assert InTable(t, id) <==> t.heap[id].closes == 0;
    }
  }

  lemma TouchKeepsTable(t: Table, id: nat, now: int)
    requires TableOk(t) && id < |t.heap|
    ensures TableOk(Touch(t, id, now))
  {
    var u := Touch(t, id, now);
    assert forall j :: 0 <= j < |t.heap| ==> (InTable(u, j) <==> InTable(t, j));
  }

  lemma RemoveKeepsTable(t: Table, src: string, id: nat)
    requires TableOk(t) && id < |t.heap|
    ensures TableOk(Remove(t, src, id))
  {
    var u := Remove(t, src, id);
    assert forall j :: 0 <= j < |t.heap| && j != id ==> (InTable(u, j) <==> InTable(t, j));
  }

  lemma PublishKeepsTable(t: Table, src: string, id: nat)
    requires TableOk(t) && id < |t.heap| && !t.heap[id].published && t.heap[id].src == src && src !in t.sessions
    ensures TableOk(Publish(t, src, id))
  {
    var u := Publish(t, src, id);
    assert forall j :: 0 <= j < |t.heap| && j != id && t.heap[j].published ==> (InTable(u, j) <==> InTable(t, j));
  }

  lemma BuildKeepsTable(t: Table, src: string, conn: nat, now: int)
    requires TableOk(t)
    ensures TableOk(Build(t, src, conn, now))
  {
    var u := Build(t, src, conn, now);
    assert forall j :: 0 <= j < |t.heap| ==> (InTable(u, j) <==> InTable(t, j));
  }
}
