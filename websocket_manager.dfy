/**
 * The per-process connection registry: a map from channel name to the
 * ordered list of live viewer connections, with registration, removal by
 * identity and a broadcast that prunes connections whose write fails.
 *
 * A connection is an opaque identity. Whether a write to it fails is decided
 * by the caller (the set `failing` handed to `Broadcast`), and the I/O the
 * registry performs on connections is recorded in a ghost trace.
 */
module WebSocketManager {

  /** A websocket connection, compared by identity (Go compares `*websocket.Conn` pointers). */
  datatype Conn = Conn(id: nat)

  /** One I/O action on a connection: a JSON frame written to it, or its closing. */
  datatype Event<T> = Write(conn: Conn, data: T) | Close(conn: Conn)

  /** One call of `Broadcast`. */
  datatype Call<T> = Call(channel: string, data: T)

  // ---------------------------------------------------------------------------
  // Specification of the list operations
  // ---------------------------------------------------------------------------

  /** The list of a channel; a channel without an entry reads as the empty list (Go's nil slice). */
  function Lookup(clients: map<string, seq<Conn>>, channel: string): seq<Conn>
  {
    if channel in clients then clients[channel] else []
  }

  /** The list without its first occurrence of `c` (the list itself when `c` is absent). */
  function RemoveFirst(s: seq<Conn>, c: Conn): (r: seq<Conn>)
    ensures c in s ==> |r| == |s| - 1
    ensures c !in s ==> |r| == |s|
  {
    if s == [] then []
    else if s[0] == c then s[1..]
    else [s[0]] + RemoveFirst(s[1..], c)
  }

  /** The connections of `conns` that are not in `failing`, in their original order. */
  function Survivors(conns: seq<Conn>, failing: set<Conn>): (r: seq<Conn>)
    ensures |r| <= |conns|
  {
    if conns == [] then []
    else
      var last := conns[|conns| - 1];
      Survivors(conns[..|conns| - 1], failing) + (if last in failing then [] else [last])
  }

  /** What a broadcast does to one connection: write to it, and close it if the write failed. */
  function WriteStep<T>(c: Conn, data: T, failing: set<Conn>): seq<Event<T>>
  {
    if c in failing then [Write(c, data), Close(c)] else [Write(c, data)]
  }

  /** What one broadcast of `data` over `conns` does, connection after connection in list order. */
  function BroadcastTrace<T>(conns: seq<Conn>, data: T, failing: set<Conn>): seq<Event<T>>
  {
    if conns == [] then []
    else BroadcastTrace(conns[..|conns| - 1], data, failing) + WriteStep(conns[|conns| - 1], data, failing)
  }

  /** The connections written to in a trace, in order. */
  function Written<T>(trace: seq<Event<T>>): seq<Conn>
  {
    if trace == [] then []
    else
      var last := trace[|trace| - 1];
      Written(trace[..|trace| - 1]) + (if last.Write? then [last.conn] else [])
  }

  /** The connections closed in a trace, in order. */
  function Closed<T>(trace: seq<Event<T>>): seq<Conn>
  {
    if trace == [] then []
    else
      var last := trace[|trace| - 1];
      Closed(trace[..|trace| - 1]) + (if last.Close? then [last.conn] else [])
  }

  // ---------------------------------------------------------------------------
  // Properties of the specification
  // ---------------------------------------------------------------------------

  /** `RemoveClient`'s search stops at the first occurrence `i` and splices it out. */
  lemma {:induction false} RemoveFirstAt(s: seq<Conn>, c: Conn, i: nat)
    requires i < |s| && s[i] == c && c !in s[..i]
    ensures RemoveFirst(s, c) == s[..i] + s[i + 1..]
  {
    if i > 0 {
      assert s[0] in s[..i];
      assert s[1..][..i - 1] == s[1..i];
      RemoveFirstAt(s[1..], c, i - 1);
      assert s[..i] == [s[0]] + s[1..][..i - 1];
    }
  }

  /** Removing a connection that is not registered changes nothing. */
  lemma {:induction false} RemoveFirstAbsent(s: seq<Conn>, c: Conn)
    requires c !in s
    ensures RemoveFirst(s, c) == s
  {
    if s != [] {
      RemoveFirstAbsent(s[1..], c);
    }
  }

  /** Exactly one copy of `c` goes, later duplicates and every other connection stay. */
  lemma {:induction false} RemoveFirstMultiset(s: seq<Conn>, c: Conn)
    ensures multiset(RemoveFirst(s, c)) == multiset(s) - multiset{c}
  {
    if s != [] {
      assert s == [s[0]] + s[1..];
      if s[0] != c {
        RemoveFirstMultiset(s[1..], c);
      }
    }
  }

  /** Removal undoes registration of a connection that was not registered already. */
  lemma {:induction false} RemoveUndoesAdd(s: seq<Conn>, c: Conn)
    requires c !in s
    ensures RemoveFirst(s + [c], c) == s
  {
    RemoveFirstAt(s + [c], c, |s|);
    assert (s + [c])[..|s|] == s;
  }

  /** A connection survives iff it was there and its write did not fail. */
  lemma {:induction false} SurvivorsMembers(conns: seq<Conn>, failing: set<Conn>, c: Conn)
    ensures c in Survivors(conns, failing) <==> c in conns && c !in failing
  {
    if conns != [] {
      var init := conns[..|conns| - 1];
      SurvivorsMembers(init, failing, c);
      assert conns == init + [conns[|conns| - 1]];
    }
  }

  /**
   * Survivors keeps the list's order: it filters each part of a split list
   * separately and glues the results back together.
   */
  lemma {:induction false} SurvivorsAppend(a: seq<Conn>, b: seq<Conn>, failing: set<Conn>)
    ensures Survivors(a + b, failing) == Survivors(a, failing) + Survivors(b, failing)
    decreases |b|
  {
    if b != [] {
      var init := b[..|b| - 1];
      assert (a + b)[..|a + b| - 1] == a + init;
      SurvivorsAppend(a, init, failing);
    } else {
      assert a + b == a;
    }
  }

  /** The list is left as it was exactly when no registered write failed. */
  lemma {:induction false} SurvivorsAll(conns: seq<Conn>, failing: set<Conn>)
    ensures Survivors(conns, failing) == conns <==> forall i :: 0 <= i < |conns| ==> conns[i] !in failing
  {
    if conns != [] {
      var init := conns[..|conns| - 1];
      SurvivorsAll(init, failing);
      if conns[|conns| - 1] in failing {
        assert |Survivors(conns, failing)| < |conns| by {
          assert |Survivors(init, failing)| <= |init|;
        }
      } else if Survivors(conns, failing) == conns {
        assert Survivors(init, failing) == Survivors(conns, failing)[..|conns| - 1];
      }
    }
  }

  /** A connection dropped by one broadcast stays out of every later one. */
  lemma {:induction false} SurvivorsTwice(conns: seq<Conn>, a: set<Conn>, b: set<Conn>)
    ensures Survivors(Survivors(conns, a), b) == Survivors(conns, a + b)
  {
    if conns != [] {
      var init := conns[..|conns| - 1];
      var last := conns[|conns| - 1];
      SurvivorsTwice(init, a, b);
      SurvivorsAppend(Survivors(init, a), if last in a then [] else [last], b);
    }
  }

  lemma {:induction false} WrittenAppend<T>(a: seq<Event<T>>, b: seq<Event<T>>)
    ensures Written(a + b) == Written(a) + Written(b)
    decreases |b|
  {
    if b != [] {
      assert (a + b)[..|a + b| - 1] == a + b[..|b| - 1];
      WrittenAppend(a, b[..|b| - 1]);
    } else {
      assert a + b == a;
    }
  }

  lemma {:induction false} ClosedAppend<T>(a: seq<Event<T>>, b: seq<Event<T>>)
    ensures Closed(a + b) == Closed(a) + Closed(b)
    decreases |b|
  {
    if b != [] {
      assert (a + b)[..|a + b| - 1] == a + b[..|b| - 1];
      ClosedAppend(a, b[..|b| - 1]);
    } else {
      assert a + b == a;
    }
  }

  /** One step writes its connection once and closes it exactly when its write fails. */
  lemma WriteStepEvents<T>(c: Conn, data: T, failing: set<Conn>)
    ensures Written(WriteStep(c, data, failing)) == [c]
    ensures Closed(WriteStep(c, data, failing)) == if c in failing then [c] else []
  {
    var w: seq<Event<T>> := [Write(c, data)];
    assert w[..0] == [];
    assert Written(w) == [c] && Closed(w) == [];
    if c in failing {
      assert [Write(c, data), Close(c)][..1] == w;
    }
  }

  /** Every write in the trace carries `data`. */
  ghost predicate Carries<T>(trace: seq<Event<T>>, data: T)
  {
    forall i :: 0 <= i < |trace| && trace[i].Write? ==> trace[i].data == data
  }

  /** A broadcast writes exactly once to every registered connection, in list order. */
  lemma {:induction false} BroadcastWritesEach<T>(conns: seq<Conn>, data: T, failing: set<Conn>)
    ensures Written(BroadcastTrace(conns, data, failing)) == conns
  {
    if conns != [] {
      var init := conns[..|conns| - 1];
      var last := conns[|conns| - 1];
      var before := BroadcastTrace(init, data, failing);
      var step := WriteStep(last, data, failing);
      assert conns == init + [last];
      assert BroadcastTrace(conns, data, failing) == before + step;
      BroadcastWritesEach(init, data, failing);
      assert Written(before) == init;
      WriteStepEvents(last, data, failing);
      assert Written(step) == [last];
      WrittenAppend(before, step);
    }
  }

  /** Every frame a broadcast writes is the broadcast's own data. */
  lemma {:induction false} BroadcastWritesData<T>(conns: seq<Conn>, data: T, failing: set<Conn>)
    ensures Carries(BroadcastTrace(conns, data, failing), data)
  {
    if conns != [] {
      var init := conns[..|conns| - 1];
      var before := BroadcastTrace(init, data, failing);
      var step := WriteStep(conns[|conns| - 1], data, failing);
      BroadcastWritesData(init, data, failing);
      var t := before + step;
      assert BroadcastTrace(conns, data, failing) == t;
      forall i | 0 <= i < |t| && t[i].Write?
        ensures t[i].data == data
      {
        if i >= |before| {
          assert t[i] == step[i - |before|];
        }
      }
    }
  }

  /** The connections of `conns` that are in `failing`, in their original order. */
  function Dropped(conns: seq<Conn>, failing: set<Conn>): seq<Conn>
  {
    if conns == [] then []
    else
      var last := conns[|conns| - 1];
      Dropped(conns[..|conns| - 1], failing) + (if last in failing then [last] else [])
  }

  /** A connection is dropped iff it was there and its write failed. */
  lemma {:induction false} DroppedMembers(conns: seq<Conn>, failing: set<Conn>, c: Conn)
    ensures c in Dropped(conns, failing) <==> c in conns && c in failing
  {
    if conns != [] {
      var init := conns[..|conns| - 1];
      DroppedMembers(init, failing, c);
      assert conns == init + [conns[|conns| - 1]];
    }
  }

  /** Every entry is either kept or dropped, never both. */
  lemma {:induction false} SurvivorsAndDropped(conns: seq<Conn>, failing: set<Conn>)
    ensures |Survivors(conns, failing)| + |Dropped(conns, failing)| == |conns|
  {
    if conns != [] {
      SurvivorsAndDropped(conns[..|conns| - 1], failing);
    }
  }

  /**
   * A broadcast closes exactly the connections whose write failed, in list
   * order, each once, and never a surviving one.
   */
  lemma {:induction false} BroadcastClosesFailed<T>(conns: seq<Conn>, data: T, failing: set<Conn>)
    ensures Closed(BroadcastTrace(conns, data, failing)) == Dropped(conns, failing)
  {
    if conns != [] {
      var init := conns[..|conns| - 1];
      var last := conns[|conns| - 1];
      BroadcastClosesFailed(init, data, failing);
      ClosedAppend(BroadcastTrace(init, data, failing), WriteStep(last, data, failing));
      WriteStepEvents(last, data, failing);
    }
  }

  /** A connection is closed by a broadcast iff it was registered and its write failed. */
  lemma BroadcastClosesMembers<T>(conns: seq<Conn>, data: T, failing: set<Conn>, c: Conn)
    ensures c in Closed(BroadcastTrace(conns, data, failing)) <==> c in conns && c in failing
    ensures c in Closed(BroadcastTrace(conns, data, failing)) ==> c !in Survivors(conns, failing)
  {
    BroadcastClosesFailed(conns, data, failing);
    DroppedMembers(conns, failing, c);
    SurvivorsMembers(conns, failing, c);
  }

  /** Every registered entry is either kept or closed by a broadcast. */
  lemma BroadcastKeepsOrCloses<T>(conns: seq<Conn>, data: T, failing: set<Conn>)
    ensures |Closed(BroadcastTrace(conns, data, failing))| + |Survivors(conns, failing)| == |conns|
  {
    BroadcastClosesFailed(conns, data, failing);
    SurvivorsAndDropped(conns, failing);
  }

  lemma AppendAssoc<T>(a: seq<T>, b: seq<T>, c: seq<T>)
    ensures a + b + c == a + (b + c)
  {
  }

  // ---------------------------------------------------------------------------
  // The registry
  // ---------------------------------------------------------------------------

  class Manager<T> {
    /** Channel name to the registered connections, in registration order. */
    var clients: map<string, seq<Conn>>
    /** Every write and close this registry performed, in order. */
    ghost var trace: seq<Event<T>>
    /** Every broadcast this registry was asked to make, in order. */
    ghost var calls: seq<Call<T>>

    function Conns(channel: string): seq<Conn>
      reads this
    {
      Lookup(clients, channel)
    }

    /** `NewWebSocketManager`: no channel has an entry. */
    constructor ()
      ensures clients == map[] && trace == [] && calls == []
    {
      clients := map[];
      trace := [];
      calls := [];
    }

    /** Appends `conn` to the channel's list, with no duplicate check. */
    method AddClient(channel: string, conn: Conn)
      modifies this
      ensures clients == old(clients)[channel := old(Conns(channel)) + [conn]]
      ensures trace == old(trace) && calls == old(calls)
    {
      clients := clients[channel := Conns(channel) + [conn]];
    }

    /** Splices out the first entry identical to `conn`; does nothing when there is none. */
    method RemoveClient(channel: string, conn: Conn)
      modifies this
      ensures conn in old(Conns(channel)) ==> clients == old(clients)[channel := RemoveFirst(old(Conns(channel)), conn)]
      ensures conn !in old(Conns(channel)) ==> clients == old(clients)
      ensures trace == old(trace) && calls == old(calls)
    {
      var conns := Conns(channel);
      var i := 0;
      while i < |conns|
        invariant 0 <= i <= |conns|
        invariant conn !in conns[..i]
        invariant clients == old(clients)
      {
        if conns[i] == conn {
          RemoveFirstAt(conns, conn, i);
          clients := clients[channel := conns[..i] + conns[i + 1..]];
          return;
        }
        assert conns[..i + 1] == conns[..i] + [conns[i]];
        i := i + 1;
      }
      assert conns[..i] == conns;
    }

    /**
     * Writes `data` to every connection of the channel in order; each
     * connection in `failing` fails its write, is closed and is dropped.
     * The channel's list becomes the survivors, even when it had no entry.
     */
    method Broadcast(channel: string, data: T, failing: set<Conn>)
      modifies this
      ensures clients == old(clients)[channel := Survivors(old(Conns(channel)), failing)]
      ensures trace == old(trace) + BroadcastTrace(old(Conns(channel)), data, failing)
      ensures calls == old(calls) + [Call(channel, data)]
    {
      var conns := Conns(channel);
      var activeConns: seq<Conn> := [];
      var i := 0;
      while i < |conns|
        invariant 0 <= i <= |conns|
        invariant activeConns == Survivors(conns[..i], failing)
        invariant trace == old(trace) + BroadcastTrace(conns[..i], data, failing)
        invariant clients == old(clients) && calls == old(calls)
      {
        var conn := conns[i];
        assert conns[..i + 1][..i] == conns[..i];
        assert BroadcastTrace(conns[..i + 1], data, failing)
          == BroadcastTrace(conns[..i], data, failing) + WriteStep(conn, data, failing);
        AppendAssoc(old(trace), BroadcastTrace(conns[..i], data, failing), WriteStep(conn, data, failing));
        if conn in failing {
          trace := trace + [Write(conn, data), Close(conn)];
        } else {
          trace := trace + [Write(conn, data)];
          activeConns := activeConns + [conn];
        }
        i := i + 1;
      }
      assert conns[..i] == conns;
      clients := clients[channel := activeConns];
      calls := calls + [Call(channel, data)];
    }
  }
}
