// The event log of one discovery run. A transaction that appends an event first
// increments the run's counter row and so holds that row until it commits or rolls back.
module EventLog {
  import opened Prelude

  datatype RunStatus = Unfinished | Completed | Failed | Cancelled | Interrupted

  datatype Event = Event(sequence: nat, isPublic: bool, body: string)

  // An open transaction: its own view of the counter and status, and what it inserted.
  datatype Tx = Tx(id: nat, counter: nat, inserted: seq<Event>, status: RunStatus)

  // counter, status and table are committed state; table lists events in commit order.
  datatype Log = Log(counter: nat, status: RunStatus, table: seq<Event>, lock: Option<Tx>)

  datatype Op =
    | OpAppend(tx: nat, isPublic: bool, body: string)
    | OpSetStatus(tx: nat, status: RunStatus)
    | OpCommit(tx: nat)
    | OpRollback(tx: nat)

  const FRESH := Log(0, Unfinished, [], None)

  /** The transaction working on the run row: the lock holder, or a new one if the row is free. */
  function Holder(l: Log, id: nat): Option<Tx> {
    if l.lock.None? then Some(Tx(id, l.counter, [], l.status))
    else if l.lock.value.id == id then l.lock
    else None
  }

  /** Increment the counter and insert an event numbered with the result. */
  function AppendEvent(l: Log, id: nat, isPublic: bool, body: string): Log {
    match Holder(l, id)
    case Some(tx) =>
      var number := tx.counter + 1;
      l.(lock := Some(tx.(counter := number, inserted := tx.inserted + [Event(number, isPublic, body)])))
    case None => l
  }

  function SetStatus(l: Log, id: nat, status: RunStatus): Log {
    match Holder(l, id)
    case Some(tx) => l.(lock := Some(tx.(status := status)))
    case None => l
  }

  function Commit(l: Log, id: nat): Log {
    if l.lock.Some? && l.lock.value.id == id then
      Log(l.lock.value.counter, l.lock.value.status, l.table + l.lock.value.inserted, None)
    else l
  }

  function Rollback(l: Log, id: nat): Log {
    if l.lock.Some? && l.lock.value.id == id then l.(lock := None) else l
  }

  /** One writer step; a transaction that needs the row while another holds it waits, changing nothing. */
  function Apply(l: Log, op: Op): Log {
    match op
    case OpAppend(id, isPublic, body) => AppendEvent(l, id, isPublic, body)
    case OpSetStatus(id, status) => SetStatus(l, id, status)
    case OpCommit(id) => Commit(l, id)
    case OpRollback(id) => Rollback(l, id)
  }

  function Exec(l: Log, ops: seq<Op>): Log
    decreases |ops|
  {
    if ops == [] then l else Exec(Apply(l, ops[0]), ops[1..])
  }

  lemma {:induction false} ExecJoin(l: Log, a: seq<Op>, b: seq<Op>)
    ensures Exec(l, a + b) == Exec(Exec(l, a), b)
    decreases |a|
  {
    if a == [] {
      assert a + b == b;
    } else {
      assert (a + b)[1..] == a[1..] + b;
      ExecJoin(Apply(l, a[0]), a[1..], b);
    }
  }

  // ---------- the numbering ----------

  predicate Numbered(events: seq<Event>, first: nat) {
    forall k :: 0 <= k < |events| ==> events[k].sequence == first + k
  }

  predicate Gapless(l: Log) {
    && |l.table| == l.counter && Numbered(l.table, 1)
    && (l.lock.Some? ==>
          var tx := l.lock.value;
          tx.counter == l.counter + |tx.inserted| && Numbered(tx.inserted, l.counter + 1))
  }

  lemma GaplessStep(l: Log, op: Op)
    requires Gapless(l)
    ensures Gapless(Apply(l, op)) && l.table <= Apply(l, op).table
  {
  }

  /**
   * Whatever transactions interleave, the committed sequences are exactly 1..event_sequence in commit order, and
   * every later state only adds events with larger numbers: no gap is ever filled late.
   */
  lemma {:induction false} GaplessAlways(l: Log, ops: seq<Op>)
    requires Gapless(l)
    ensures Gapless(Exec(l, ops)) && l.table <= Exec(l, ops).table
    decreases |ops|
  {
    if ops != [] {
      GaplessStep(l, ops[0]);
      GaplessAlways(Apply(l, ops[0]), ops[1..]);
    }
  }

  /** A transaction commits its events and its status together, or nothing at all. */
  lemma TransactionIsAtomic(l: Log, id: nat, isPublic: bool, body: string, status: RunStatus)
    requires Gapless(l) && l.lock.None?
    ensures var open := SetStatus(AppendEvent(l, id, isPublic, body), id, status);
            && open.table == l.table && open.status == l.status && open.counter == l.counter
            && Rollback(open, id) == l
            && Commit(open, id) == Log(l.counter + 1, status, l.table + [Event(l.counter + 1, isPublic, body)], None)
  {
    assert [] + [Event(l.counter + 1, isPublic, body)] == [Event(l.counter + 1, isPublic, body)];
  }

  // ---------- what a reader selects ----------

  const PAGE_SIZE: nat := 200

  /** The public events after a cursor, in table order. */
  function SelectPublic(table: seq<Event>, after: nat): seq<Event>
    decreases |table|
  {
    if table == [] then []
    else
      var rest := SelectPublic(table[1..], after);
      if table[0].isPublic && table[0].sequence > after then [table[0]] + rest else rest
  }

  /** One page: the first PAGE_SIZE public events after the cursor. */
  function Page(table: seq<Event>, after: nat): seq<Event> {
    var all := SelectPublic(table, after);
    if |all| <= PAGE_SIZE then all else all[..PAGE_SIZE]
  }

  /** The public events numbered above lo and at most hi. */
  function Window(table: seq<Event>, lo: nat, hi: nat): seq<Event>
    decreases |table|
  {
    if table == [] then []
    else
      var rest := Window(table[1..], lo, hi);
      if table[0].isPublic && lo < table[0].sequence <= hi then [table[0]] + rest else rest
  }

  predicate Ascending(events: seq<Event>) {
    forall i, j :: 0 <= i < j < |events| ==> events[i].sequence < events[j].sequence
  }

  /** A window holds exactly the public events of its range, once each and in increasing order. */
  lemma {:induction false} WindowIsExact(table: seq<Event>, lo: nat, hi: nat, first: nat)
    requires Numbered(table, first)
    ensures Ascending(Window(table, lo, hi))
    ensures forall e :: e in Window(table, lo, hi) <==> e in table && e.isPublic && lo < e.sequence <= hi
    decreases |table|
  {
    if table != [] {
      WindowIsExact(table[1..], lo, hi, first + 1);
      var rest := Window(table[1..], lo, hi);
      assert forall e :: e in rest ==> e in table[1..] && e.sequence > table[0].sequence;
      assert table == [table[0]] + table[1..];
    }
  }

  lemma {:induction false} WindowBelow(table: seq<Event>, lo: nat, hi: nat, first: nat)
    requires Numbered(table, first) && hi < first
    ensures Window(table, lo, hi) == []
    decreases |table|
  {
    if table != [] {
      WindowBelow(table[1..], lo, hi, first + 1);
    }
  }

  /** Rows added later lie above every number a reader can have reached. */
  lemma {:induction false} WindowIsStable(table: seq<Event>, later: seq<Event>, lo: nat, hi: nat, first: nat)
    requires table <= later && Numbered(later, first) && (hi < first + |table| || hi <= lo)
    ensures Window(later, lo, hi) == Window(table, lo, hi)
    decreases |later|
  {
    if later != [] {
      if table == [] {
        WindowIsStable([], later[1..], lo, hi, first + 1);
      } else {
        WindowIsStable(table[1..], later[1..], lo, hi, first + 1);
      }
    }
  }

  /** Consecutive windows join without loss or repetition. */
  lemma {:induction false} WindowsJoin(table: seq<Event>, lo: nat, mid: nat, hi: nat, first: nat)
    requires Numbered(table, first) && lo <= mid <= hi
    ensures Window(table, lo, mid) + Window(table, mid, hi) == Window(table, lo, hi)
    decreases |table|
  {
    if table != [] {
      WindowsJoin(table[1..], lo, mid, hi, first + 1);
      if table[0].sequence > mid {
        WindowBelow(table[1..], lo, mid, first + 1);
      }
      if table[0].isPublic && lo < table[0].sequence <= mid {
        assert [table[0]] + Window(table[1..], lo, mid) + Window(table[1..], mid, hi)
            == [table[0]] + (Window(table[1..], lo, mid) + Window(table[1..], mid, hi));
      }
    }
  }

  /** A nonempty page is the window from the cursor to its own last event; an empty page says nothing is left. */
  lemma {:induction false} PageIsWindow(table: seq<Event>, after: nat, first: nat)
    requires Numbered(table, first)
    ensures var page := Page(table, after);
            if page == [] then forall hi: nat :: Window(table, after, hi) == []
            else page == Window(table, after, page[|page| - 1].sequence)
                 && after < page[|page| - 1].sequence < first + |table|
  {
    PrefixIsWindow(table, after, PAGE_SIZE, first);
    if SelectPublic(table, after) == [] {
      forall hi: nat ensures Window(table, after, hi) == [] {
        SelectBoundsWindow(table, after, hi);
      }
    }
  }

  lemma {:induction false} SelectBoundsWindow(table: seq<Event>, after: nat, hi: nat)
    requires SelectPublic(table, after) == []
    ensures Window(table, after, hi) == []
    decreases |table|
  {
    if table != [] {
      SelectBoundsWindow(table[1..], after, hi);
    }
  }

  /** The first n selected events are the window up to the last of them. */
  lemma {:induction false} PrefixIsWindow(table: seq<Event>, after: nat, n: nat, first: nat)
    requires Numbered(table, first) && n > 0
    ensures var all := SelectPublic(table, after);
            var page := if |all| <= n then all else all[..n];
            page != [] ==> page == Window(table, after, page[|page| - 1].sequence)
                           && after < page[|page| - 1].sequence
                           && first <= page[|page| - 1].sequence < first + |table|
    decreases |table|
  {
    var all := SelectPublic(table, after);
    var page := if |all| <= n then all else all[..n];
    if page != [] {
      var rest := SelectPublic(table[1..], after);
      if all == rest {
        PrefixIsWindow(table[1..], after, n, first + 1);
      } else if n == 1 || rest == [] {
        assert page == [table[0]];
        WindowBelow(table[1..], after, table[0].sequence, first + 1);
      } else {
        PrefixIsWindow(table[1..], after, n - 1, first + 1);
        var tail := if |rest| <= n - 1 then rest else rest[..n - 1];
        assert page == [table[0]] + tail;
        assert page[|page| - 1] == tail[|tail| - 1];
      }
    }
  }
}
