// Replaying a run's public events to one client, while writers keep committing.
module EventStream {
  import opened Prelude
  import opened EventLog

  datatype Frame = Discovery(event: Event) | End(cursor: nat, status: RunStatus) | Heartbeat

  // The client goes away after the given number of rounds; gap(k, g) is what writers
  // commit in the g-th gap of round k; beat(k) says whether a heartbeat is due then.
  datatype World = World(rounds: nat, gap: (nat, nat) -> seq<Op>, beat: nat -> bool)

  predicate IsTerminal(status: RunStatus) {
    status != Unfinished
  }

  /** The events among the frames a client received, in order. */
  function Delivered(frames: seq<Frame>): seq<Event>
    decreases |frames|
  {
    if frames == [] then []
    else
      var last := frames[|frames| - 1];
      Delivered(frames[..|frames| - 1]) + if last.Discovery? then [last.event] else []
  }

  lemma DeliveredMore(frames: seq<Frame>, f: Frame)
    ensures Delivered(frames + [f]) == Delivered(frames) + if f.Discovery? then [f.event] else []
  {
    assert (frames + [f])[..|frames|] == frames;
  }

  // ---------- reconnect cursor ----------

  // The Last-Event-ID header: absent, not an integer, or an integer.
  datatype Header = Absent | Malformed | Number(value: int)

  datatype CursorResult = Cursor(value: nat) | Unprocessable

  function ParseEventCursor(header: Header, query: Option<nat>): CursorResult {
    if header.Malformed? || (header.Number? && header.value < 0) then Unprocessable
    else
      var fromHeader: nat := if header.Number? then header.value else 0;
      var fromQuery := if query.Some? then query.value else 0;
      Cursor(if fromHeader >= fromQuery then fromHeader else fromQuery)
  }

  /** The accepted cursor is the least one that replays before neither client cursor; only malformed headers are refused. */
  lemma CursorNeverReplays(header: Header, query: Option<nat>, c: nat)
    ensures ParseEventCursor(header, query).Unprocessable? <==> header.Malformed? || (header.Number? && header.value < 0)
    ensures ParseEventCursor(header, query).Cursor? ==>
              (ParseEventCursor(header, query).value <= c <==>
               (header.Number? ==> header.value <= c) && (query.Some? ==> query.value <= c))
  {
  }

  // ---------- the stream ----------

  /** The pending page is what follows the cursor, up to its own last event. */
  ghost predicate Pending(log: Log, current: nat, pending: seq<Event>) {
    pending != [] ==>
      && current < pending[|pending| - 1].sequence <= |log.table|
      && pending == Window(log.table, current, pending[|pending| - 1].sequence)
  }

  /** What the client has is the window from where it started to where it is. */
  ghost predicate Caught(log: Log, cursor: nat, current: nat, frames: seq<Frame>) {
    && cursor <= current && (current == cursor || current <= |log.table|)
    && Delivered(frames) == Window(log.table, cursor, current)
  }

  ghost predicate NotEnded(frames: seq<Frame>) {
    forall i :: 0 <= i < |frames| ==> !frames[i].End?
  }

  lemma CaughtLater(log: Log, later: Log, cursor: nat, current: nat, frames: seq<Frame>)
    requires Gapless(log) && Gapless(later) && log.table <= later.table
    requires Caught(log, cursor, current, frames)
    ensures Caught(later, cursor, current, frames)
  {
    WindowIsStable(log.table, later.table, cursor, current, 1);
  }

  /** Delivering the pending page moves the cursor to its last event and keeps the window exact. */
  lemma CaughtAfterPage(log: Log, cursor: nat, current: nat, pending: seq<Event>, before: seq<Frame>, after: seq<Frame>)
    requires Gapless(log) && Caught(log, cursor, current, before) && Pending(log, current, pending) && pending != []
    requires Delivered(after) == Delivered(before) + pending
    ensures Caught(log, cursor, pending[|pending| - 1].sequence, after)
  {
    WindowsJoin(log.table, cursor, current, pending[|pending| - 1].sequence, 1);
  }

  /** Exactly the public events of the table numbered above lo and at most hi, once each, in increasing order. */
  ghost predicate IsReplay(table: seq<Event>, lo: nat, hi: nat, events: seq<Event>) {
    && Ascending(events)
    && forall e :: e in events <==> e in table && e.isPublic && lo < e.sequence <= hi
  }

  /** Every public event of the table after the cursor is among the frames. */
  ghost predicate HasAll(table: seq<Event>, cursor: nat, frames: seq<Frame>) {
    forall e :: e in table && e.isPublic && e.sequence > cursor ==> e in Delivered(frames)
  }

  /** An empty page means the client already has every public event committed so far. */
  lemma EmptyPageMeansComplete(log: Log, early: seq<Event>, cursor: nat, current: nat, frames: seq<Frame>, f: Frame)
    requires Gapless(log) && Caught(log, cursor, current, frames) && Page(log.table, current) == []
    requires early <= log.table && !f.Discovery?
    ensures HasAll(early, cursor, frames) && HasAll(early, cursor, frames + [f])
  {
    DeliveredMore(frames, f);
    PageIsWindow(log.table, current, 1);
    WindowIsExact(log.table, cursor, current, 1);
    forall e | e in early && e.isPublic && e.sequence > cursor ensures e in Delivered(frames) {
      WindowIsExact(log.table, current, e.sequence, 1);
      assert Window(log.table, current, e.sequence) == [];
      assert e in log.table;
    }
  }

  /** No writer commits anything while the stream runs. */
  ghost predicate Quiet(w: World) {
    forall k: nat, g: nat :: w.gap(k, g) == []
  }

  /** Nothing is pending, nothing is left to send, and the run goes on. */
  ghost predicate Idle(log: Log, current: nat, pending: seq<Event>) {
    pending == [] && Page(log.table, current) == [] && !IsTerminal(log.status)
  }

  /** With no writer left, after k rounds the cursor moved at least k - 1 times, or there was nothing left to send. */
  ghost predicate Advanced(w: World, start: Log, log: Log, k: nat, cursor: nat, current: nat, pending: seq<Event>) {
    Quiet(w) ==> log == start && (k - 1 <= current - cursor || Idle(log, current, pending))
  }

  lemma AdvancedStart(w: World, start: Log, log: Log, cursor: nat, pending: seq<Event>)
    requires log == Exec(Exec(start, w.gap(0, 0)), w.gap(0, 1))
    ensures Advanced(w, start, log, 1, cursor, cursor, pending)
  {
  }

  lemma AdvancedFetch(w: World, start: Log, before: Log, log: Log, k: nat, cursor: nat, current: nat, page: seq<Event>)
    requires Advanced(w, start, before, k, cursor, current, []) && page == Page(log.table, current)
    requires log == Exec(Exec(before, w.gap(k, 0)), w.gap(k, 1))
    ensures page != [] ==> Advanced(w, start, log, k, cursor, current, page)
    ensures page == [] && !IsTerminal(Exec(before, w.gap(k, 0)).status) ==>
              Advanced(w, start, log, k + 1, cursor, current, [])
    ensures Quiet(w) ==> Exec(before, w.gap(k, 0)) == start
  {
  }

  lemma AdvancedSend(w: World, start: Log, log: Log, k: nat, cursor: nat, current: nat, pending: seq<Event>, reached: nat)
    requires Advanced(w, start, log, k, cursor, current, pending) && pending != [] && current < reached
    ensures Advanced(w, start, log, k + 1, cursor, reached, [])
  {
  }

  lemma AdvancedDone(w: World, start: Log, log: Log, k: nat, cursor: nat, current: nat, pending: seq<Event>, frames: seq<Frame>)
    requires Advanced(w, start, log, k, cursor, current, pending) && Quiet(w) && k > |start.table| + 1
    requires Gapless(log) && Caught(log, cursor, current, frames)
    ensures HasAll(start.table, cursor, frames) && !IsTerminal(start.status)
  {
    CaughtBound(log, cursor, current, frames);
    EmptyPageMeansComplete(log, log.table, cursor, current, frames, Heartbeat);
  }

  lemma CaughtBound(log: Log, cursor: nat, current: nat, frames: seq<Frame>)
    requires Caught(log, cursor, current, frames)
    ensures current - cursor <= |log.table|
  {
  }

  lemma WindowFromHere(log: Log, cursor: nat)
    requires Gapless(log)
    ensures Caught(log, cursor, cursor, [])
  {
    WindowIsStable([], log.table, cursor, cursor, 1);
  }

  lemma CaughtSame(log: Log, cursor: nat, current: nat, a: seq<Frame>, b: seq<Frame>)
    requires Caught(log, cursor, current, a) && |b| > 0 && b[..|b| - 1] == a && !b[|b| - 1].Discovery?
    ensures Caught(log, cursor, current, b)
  {
  }

  lemma CaughtExactly(log: Log, cursor: nat, current: nat, frames: seq<Frame>)
    requires Gapless(log) && Caught(log, cursor, current, frames)
    ensures cursor <= current && IsReplay(log.table, cursor, current, Delivered(frames))
  {
    WindowIsExact(log.table, cursor, current, 1);
  }

  lemma PendingAscends(log: Log, current: nat, pending: seq<Event>)
    requires Gapless(log) && Pending(log, current, pending) && pending != []
    ensures Ascending(pending) && current < pending[0].sequence
  {
    WindowIsExact(log.table, current, pending[|pending| - 1].sequence, 1);
    assert pending[0] in pending;
  }

  lemma {:induction false} TraceGrows(start: Log, trace: seq<Op>, a: seq<Op>, b: seq<Op>)
    ensures Exec(start, trace + a + b) == Exec(Exec(Exec(start, trace), a), b)
    ensures Exec(start, (trace + a + b)[..|trace| + |a|]) == Exec(Exec(start, trace), a)
  {
    ExecJoin(start, trace, a);
    ExecJoin(start, trace + a, b);
    assert (trace + a + b)[..|trace| + |a|] == trace + a;
  }

  // ---------- one event appended against other writers ----------

  // How the database takes an attempt, apart from the row being locked.
  datatype Taken = Works | Busy | Raises

  // gap(k) is what other writers do before the k-th attempt, during(k) while it is open.
  datatype Attempts = Attempts(gap: nat -> seq<Op>, during: nat -> seq<Op>, outcome: nat -> Taken)

  datatype AttemptResult = Committed | Again | Aborted

  /** An attempt waits in vain for a row that another transaction holds, and can be refused or fail for its own reasons. */
  function Attempt(l: Log, taken: Taken): AttemptResult {
    if taken.Raises? then Aborted else if l.lock.Some? || taken.Busy? then Again else Committed
  }

  /** What the other writers alone have made of the log when the k-th attempt takes its turn. */
  function LogAt(l: Log, w: Attempts, k: nat): Log
    decreases k
  {
    if k == 0 then Exec(l, w.gap(0)) else Exec(LogAt(l, w, k - 1), w.gap(k))
  }

  lemma LogAtStart(l: Log, w: Attempts)
    ensures LogAt(l, w, 0) == Exec(l, w.gap(0))
  {
  }

  lemma LogAtNext(l: Log, w: Attempts, k: nat)
    ensures LogAt(l, w, k + 1) == Exec(LogAt(l, w, k), w.gap(k + 1))
  {
  }

  ghost predicate OthersOnly(ops: seq<Op>, tx: nat) {
    forall i :: 0 <= i < |ops| ==> ops[i].tx != tx
  }

  ghost predicate ByOthers(w: Attempts, tx: nat) {
    forall k: nat :: OthersOnly(w.gap(k), tx) && OthersOnly(w.during(k), tx)
  }

  predicate NotOurs(l: Log, tx: nat) {
    l.lock.Some? ==> l.lock.value.id != tx
  }

  lemma {:induction false} OthersStayOut(l: Log, ops: seq<Op>, tx: nat)
    requires NotOurs(l, tx) && OthersOnly(ops, tx)
    ensures NotOurs(Exec(l, ops), tx)
    decreases |ops|
  {
    if ops != [] {
      OthersStayOut(Apply(l, ops[0]), ops[1..], tx);
    }
  }

  /** While the row is ours the others wait. */
  lemma {:induction false} OthersWait(l: Log, ops: seq<Op>, tx: nat)
    requires l.lock.Some? && l.lock.value.id == tx && OthersOnly(ops, tx)
    ensures Exec(l, ops) == l
    decreases |ops|
  {
    if ops != [] {
      OthersWait(Apply(l, ops[0]), ops[1..], tx);
    }
  }

  lemma AppendKeepsGapless(l: Log, tx: nat, isPublic: bool, body: string)
    requires Gapless(l)
    ensures Gapless(AppendEvent(l, tx, isPublic, body))
  {
    GaplessStep(l, OpAppend(tx, isPublic, body));
  }

  lemma CommitKeepsGapless(l: Log, isPublic: bool, body: string)
    requires Gapless(l)
    ensures Gapless(Log(l.counter + 1, l.status, l.table + [Event(l.counter + 1, isPublic, body)], None))
  {
  }

  class DiscoveryEvents {
    var log: Log

    constructor ()
      ensures log == FRESH
    {
      log := FRESH;
    }

    /** Writers run. */
    method Interfere(ops: seq<Op>)
      requires Gapless(log)
      modifies this
      ensures log == Exec(old(log), ops) && Gapless(log) && old(log.table) <= log.table
    {
      GaplessAlways(log, ops);
      log := Exec(log, ops);
    }

    /**
     * Append one event in a transaction of its own, tried again while the database is busy, at most twenty times. last is
     * the attempt that it ends with.
     */
    method Append(tx: nat, isPublic: bool, body: string, w: Attempts) returns (sequence: Option<nat>, last: nat)
      requires Gapless(log) && NotOurs(log, tx) && ByOthers(w, tx)
      modifies this
      ensures Gapless(log) && old(log.table) <= log.table
      ensures last < 20 && forall k: nat :: k < last ==> Attempt(LogAt(old(log), w, k), w.outcome(k)).Again?
      ensures Attempt(LogAt(old(log), w, last), w.outcome(last)).Again? ==> last == 19
      ensures sequence.Some? <==> Attempt(LogAt(old(log), w, last), w.outcome(last)).Committed?
      // the event gets the number after all that were committed by then, and nothing else changes
      ensures var l := LogAt(old(log), w, last);
              if sequence.None? then log == l
              else sequence.value == l.counter + 1
                   && log == Log(l.counter + 1, l.status, l.table + [Event(l.counter + 1, isPublic, body)], None)
    {
      hide Exec, Gapless, LogAt;
      LogAtStart(log, w);
      var attempt: nat := 0;
      while attempt < 20
        invariant attempt <= 20 && Gapless(log) && NotOurs(log, tx) && old(log.table) <= log.table
        invariant Exec(log, w.gap(attempt)) == LogAt(old(log), w, attempt)
        invariant attempt > 0 ==> log == LogAt(old(log), w, attempt - 1)
        invariant forall k: nat :: k < attempt ==> Attempt(LogAt(old(log), w, k), w.outcome(k)).Again?
      {
        OthersStayOut(log, w.gap(attempt), tx);
        Interfere(w.gap(attempt));
        ghost var before := log;
        var free := log.lock.None?;
        if free {
          log := AppendEvent(log, tx, isPublic, body);
          AppendKeepsGapless(before, tx, isPublic, body);
          OthersWait(log, w.during(attempt), tx);
          Interfere(w.during(attempt));
        }
        last := attempt;
        if w.outcome(attempt).Raises? {
          log := Rollback(log, tx);
          return None, last;
        }
        if free && w.outcome(attempt).Works? {
          sequence := Some(log.lock.value.counter);
          log := Commit(log, tx);
          assert [] + [Event(before.counter + 1, isPublic, body)] == [Event(before.counter + 1, isPublic, body)];
          CommitKeepsGapless(before, isPublic, body);
          return;
        }
        log := Rollback(log, tx);
        LogAtNext(old(log), w, attempt);
        attempt := attempt + 1;
      }
      sequence, last := None, 19;
    }

    /** Read the run's status, then, maybe later, one page of its public events. */
    method DiscoveryEventPage(after: nat, w: World, k: nat) returns (events: seq<Event>, status: RunStatus)
      requires Gapless(log)
      modifies this
      ensures Gapless(log) && old(log.table) <= log.table
      ensures log == Exec(Exec(old(log), w.gap(k, 0)), w.gap(k, 1))
      ensures Gapless(Exec(old(log), w.gap(k, 0))) && Exec(old(log), w.gap(k, 0)).table <= log.table
      ensures status == Exec(old(log), w.gap(k, 0)).status
      ensures events == Page(log.table, after) && Pending(log, after, events)
    {
      Interfere(w.gap(k, 0));
      status := log.status;
      Interfere(w.gap(k, 1));
      events := Page(log.table, after);
      PageIsWindow(log.table, after, 1);
    }

    /** Send one page; frames for rows at or before the cursor are skipped. */
    method SendPage(pending: seq<Event>, frames0: seq<Frame>, start: nat) returns (frames: seq<Frame>, current: nat)
      requires pending != [] && Ascending(pending) && start < pending[0].sequence
      ensures Delivered(frames) == Delivered(frames0) + pending
      ensures current == pending[|pending| - 1].sequence
      ensures NotEnded(frames0) ==> NotEnded(frames)
    {
      frames, current := frames0, start;
      for j := 0 to |pending|
        invariant Delivered(frames) == Delivered(frames0) + pending[..j]
        invariant current == if j == 0 then start else pending[j - 1].sequence
        invariant NotEnded(frames0) ==> NotEnded(frames)
      {
        var sequence := pending[j].sequence;
        if sequence <= current {
          continue;
        }
        DeliveredMore(frames, Discovery(pending[j]));
        frames := frames + [Discovery(pending[j])];
        current := sequence;
        assert pending[..j + 1] == pending[..j] + [pending[j]];
      }
      assert pending[..|pending|] == pending;
    }

    /**
     * The whole stream from a cursor. trace is what the writers committed; when the stream ends by itself, cut is the
     * moment the terminal status was read.
     */
    method EventStream(cursor: nat, w: World) returns (frames: seq<Frame>, current: nat, trace: seq<Op>, cut: nat)
      requires Gapless(log)
      modifies this
      ensures Gapless(log) && log == Exec(old(log), trace) && cursor <= current
      // exactly the committed public events of (cursor, current], once each and in order
      ensures IsReplay(log.table, cursor, current, Delivered(frames))
      // an end frame is last, and comes after everything committed when the terminal status was read
      ensures forall i :: 0 <= i < |frames| - 1 ==> !frames[i].End?
      ensures frames != [] && frames[|frames| - 1].End? ==>
                var end := frames[|frames| - 1];
                && end.cursor == current && IsTerminal(end.status) && cut <= |trace|
                && Exec(old(log), trace[..cut]).status == end.status
                && HasAll(Exec(old(log), trace[..cut]).table, cursor, frames)
      // with no writer left and a client that stays, the stream delivers everything, and ends iff the run is over
      ensures Quiet(w) && w.rounds > |old(log.table)| + 1 ==>
                && HasAll(old(log.table), cursor, frames)
                && (IsTerminal(old(log.status)) <==> frames != [] && frames[|frames| - 1].End?)
    {
      hide Exec, Window, Page, Gapless, Caught, Quiet, Delivered, IsTerminal, IsReplay, HasAll, Advanced;
      ghost var start := log;
      frames, current, cut := [], cursor, |w.gap(0, 0)|;
      WindowFromHere(log, cursor);
      ghost var before := log;
      var pending, status := DiscoveryEventPage(current, w, 0);
      CaughtLater(before, log, cursor, current, frames);
      AdvancedStart(w, start, log, cursor, pending);
      trace := w.gap(0, 0) + w.gap(0, 1);
      ExecJoin(start, w.gap(0, 0), w.gap(0, 1));
      var k: nat := 1;
      while k < w.rounds
        invariant Gapless(log) && log == Exec(start, trace) && NotEnded(frames)
        invariant Caught(log, cursor, current, frames) && Pending(log, current, pending)
        invariant Advanced(w, start, log, k, cursor, current, pending)
      {
        if pending == [] {
          before := log;
          pending, status := DiscoveryEventPage(current, w, k);
          CaughtLater(before, log, cursor, current, frames);
          AdvancedFetch(w, start, before, log, k, cursor, current, pending);
          TraceGrows(start, trace, w.gap(k, 0), w.gap(k, 1));
          cut := |trace| + |w.gap(k, 0)|;
          trace := trace + w.gap(k, 0) + w.gap(k, 1);
          if pending == [] && IsTerminal(status) {
            EmptyPageMeansComplete(log, Exec(start, trace[..cut]).table, cursor, current, frames, End(current, status));
            CaughtSame(log, cursor, current, frames, frames + [End(current, status)]);
            frames := frames + [End(current, status)];
            CaughtExactly(log, cursor, current, frames);
            return;
          }
        }
        if pending != [] {
          PendingAscends(log, current, pending);
          AdvancedSend(w, start, log, k, cursor, current, pending, pending[|pending| - 1].sequence);
          ghost var sent := frames;
          var reached;
          frames, reached := SendPage(pending, frames, current);
          CaughtAfterPage(log, cursor, current, pending, sent, frames);
          current, pending := reached, [];
        } else if w.beat(k) {
          CaughtSame(log, cursor, current, frames, frames + [Heartbeat]);
          frames := frames + [Heartbeat];
        }
        k := k + 1;
      }
      CaughtExactly(log, cursor, current, frames);
      if Quiet(w) && w.rounds > |start.table| + 1 {
        AdvancedDone(w, start, log, k, cursor, current, pending, frames);
      }
    }
  }

  /** A client that reconnects with the last id it saw receives, over both streams, one gap-free replay. */
  lemma ReconnectLosesNothing(first: Log, second: Log, cursor: nat, seen: nat, reached: nat)
    requires Gapless(first) && Gapless(second) && first.table <= second.table
    requires cursor <= seen <= reached && (seen == cursor || seen <= |first.table|)
    ensures ParseEventCursor(Number(seen), Some(cursor)) == Cursor(seen)
    ensures Window(first.table, cursor, seen) + Window(second.table, seen, reached) ==
            Window(second.table, cursor, reached)
  {
    WindowIsStable(first.table, second.table, cursor, seen, 1);
    WindowsJoin(second.table, cursor, seen, reached, 1);
  }
}
