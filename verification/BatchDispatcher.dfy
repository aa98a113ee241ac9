// The dispatcher as the class it is: its transactions change rows in place, and between
// any two of them the rest of the system may run. A World says what the rest does.
module BatchDispatcher {
  import opened Prelude
  import opened BatchQueue
  import opened BatchQueueSafety

  datatype StartOutcome = Started | NotStarted | CapacityExceeded | StartRaised

  // outcome(k) is how the k-th start goes; gap(k, g) is what the other actors commit in
  // the g-th gap of the k-th round.
  datatype World = World(outcome: nat -> StartOutcome, gap: (nat, nat) -> seq<Op>)

  /** Other actors that put nothing into the queued lane: routes, run ends, signals. */
  predicate Quiet(op: Op) {
    op.OpDelete? || op.OpStopAll? || op.OpDeliver? || op.OpEndRun?
  }

  /** Everybody but the dispatcher and a restart. */
  predicate Outside(op: Op) {
    Quiet(op) || op.OpEnqueue? || op.OpRequeue?
  }

  ghost predicate QuietWorld(w: World) {
    forall k: nat, g: nat, n: nat :: n < |w.gap(k, g)| ==> Quiet(w.gap(k, g)[n])
  }

  ghost predicate OpenWorld(w: World) {
    forall k: nat, g: nat, n: nat :: n < |w.gap(k, g)| ==> Outside(w.gap(k, g)[n])
  }

  /** The queued lane of t is part of that of s, with the same creation times. */
  ghost predicate LaneShrinks(s: State, t: State) {
    && QueuedIds(t) <= QueuedIds(s)
    && forall i :: i in QueuedIds(t) ==> t.rows[i].createdAt == s.rows[i].createdAt
  }

  lemma QuietStep(s: State, op: Op)
    requires Quiet(op)
    ensures LaneShrinks(s, Apply(s, op))
  {
  }

  lemma OutsideStep(s: State, op: Op)
    requires Outside(op)
    ensures Apply(s, op).pcs == s.pcs
  {
  }

  lemma {:induction false} OutsideRun(s: State, ops: seq<Op>)
    requires Safe(s) && forall n :: 0 <= n < |ops| ==> Outside(ops[n])
    ensures Safe(Exec(s, ops)) && Exec(s, ops).pcs == s.pcs
    decreases |ops|
  {
    if ops != [] {
      SafeStep(s, ops[0]);
      OutsideStep(s, ops[0]);
      OutsideRun(Apply(s, ops[0]), ops[1..]);
    }
  }

  lemma {:induction false} QuietRun(s: State, ops: seq<Op>)
    requires forall n :: 0 <= n < |ops| ==> Quiet(ops[n])
    ensures LaneShrinks(s, Exec(s, ops))
    decreases |ops|
  {
    if ops != [] {
      QuietStep(s, ops[0]);
      QuietRun(Apply(s, ops[0]), ops[1..]);
    }
  }

  lemma {:induction false} OutsideKeepsPcs(s: State, ops: seq<Op>)
    requires forall n :: 0 <= n < |ops| ==> Outside(ops[n])
    ensures Exec(s, ops).pcs == s.pcs
    decreases |ops|
  {
    if ops != [] {
      OutsideStep(s, ops[0]);
      OutsideKeepsPcs(Apply(s, ops[0]), ops[1..]);
    }
  }

  lemma PcsKept(s: State, w: World, k: nat, g: nat)
    requires OpenWorld(w)
    ensures Exec(s, w.gap(k, g)).pcs == s.pcs
  {
    OutsideKeepsPcs(s, w.gap(k, g));
  }

  lemma GapIsSafe(s: State, w: World, k: nat, g: nat)
    requires Safe(s) && OpenWorld(w)
    ensures Safe(Exec(s, w.gap(k, g))) && Exec(s, w.gap(k, g)).pcs == s.pcs
  {
    hide Safe;
    OutsideRun(s, w.gap(k, g));
  }

  lemma GapKeepsLane(s: State, w: World, k: nat, g: nat)
    requires QuietWorld(w)
    ensures LaneShrinks(s, Exec(s, w.gap(k, g)))
  {
    QuietRun(s, w.gap(k, g));
  }

  /** No transaction of the dispatcher but a returned claim adds to the lane. */
  lemma LaneKept(s: State)
    ensures LaneShrinks(s, CheckRequested(s, 0)) && LaneShrinks(s, FinishUnwanted(s, 0))
    ensures LaneShrinks(s, CreateRun(s, 0)) && LaneShrinks(s, Attach(s, 0)) && LaneShrinks(s, SignalStarted(s, 0))
    ensures LaneShrinks(s, RefuseStart(s, 0)) && LaneShrinks(s, FailClaim(s, 0))
  {
  }

  lemma ReconcileKeepsLane(s: State)
    ensures QueuedIds(Reconcile(s, 0)) == QueuedIds(s)
  {
  }

  // The transactions of one start, with what the others commit between them.

  function Launched(s: State, w: World, k: nat): State {
    var t := Attach(Exec(CreateRun(s, 0), w.gap(k, 2)), 0);
    if PcOf(t, 0).Signal? then SignalStarted(Exec(t, w.gap(k, 3)), 0) else t
  }

  function StartAttempt(s: State, w: World, k: nat): State {
    var t := Exec(CheckRequested(Exec(s, w.gap(k, 0)), 0), w.gap(k, 1));
    if PcOf(t, 0).Unwanted? then FinishUnwanted(t, 0)
    else match w.outcome(k)
         case Started => Launched(t, w, k)
         case CapacityExceeded => ReturnClaim(Exec(HitCapacity(t, 0), w.gap(k, 2)), 0)
         case _ => FailClaim(Exec(RefuseStart(t, 0), w.gap(k, 2)), 0)
  }

  /** The claim goes back to the lane and ends the pass. */
  function Postponed(s: State, w: World, k: nat): bool {
    !PcOf(Exec(CheckRequested(Exec(s, w.gap(k, 0)), 0), w.gap(k, 1)), 0).Unwanted? && w.outcome(k).CapacityExceeded?
  }

  lemma LaneTransitive(s: State, t: State, u: State)
    requires LaneShrinks(s, t) && LaneShrinks(t, u)
    ensures LaneShrinks(s, u)
  {
  }

  lemma LaunchedIsSafe(s: State, w: World, k: nat)
    requires Safe(s) && PcOf(s, 0).Requested? && OpenWorld(w)
    ensures Safe(Launched(s, w, k)) && PcOf(Launched(s, w, k), 0).Idle?
  {
    hide Safe, OpenWorld, Exec;
    var a := CreateRun(s, 0);
    SafeCreate(s);
    GapIsSafe(a, w, k, 2);
    var b := Exec(a, w.gap(k, 2));
    SafeAttach(b);
    var c := Attach(b, 0);
    if PcOf(c, 0).Signal? {
      GapIsSafe(c, w, k, 3);
      SafeSignal(Exec(c, w.gap(k, 3)));
    }
  }

  lemma AbandonedIsSafe(s: State, w: World, k: nat)
    requires Safe(s) && PcOf(s, 0).Requested? && OpenWorld(w)
    ensures var t := FailClaim(Exec(RefuseStart(s, 0), w.gap(k, 2)), 0); Safe(t) && PcOf(t, 0).Idle?
    ensures var t := ReturnClaim(Exec(HitCapacity(s, 0), w.gap(k, 2)), 0); Safe(t) && PcOf(t, 0).Idle?
  {
    hide Safe, OpenWorld, Exec;
    SafeDecide(s, RefuseStart(s, 0));
    GapIsSafe(RefuseStart(s, 0), w, k, 2);
    SafeFail(Exec(RefuseStart(s, 0), w.gap(k, 2)));
    SafeDecide(s, HitCapacity(s, 0));
    GapIsSafe(HitCapacity(s, 0), w, k, 2);
    SafeReturn(Exec(HitCapacity(s, 0), w.gap(k, 2)));
  }

  /**
   * Whatever the others commit meanwhile, enqueueing and requeueing included, one start attempt leaves the dispatcher idle
   * and the queue safe.
   */
  lemma StartAttemptIsSafe(s: State, w: World, k: nat)
    requires Safe(s) && PcOf(s, 0).Claimed? && OpenWorld(w)
    ensures Safe(StartAttempt(s, w, k)) && PcOf(StartAttempt(s, w, k), 0).Idle?
  {
    hide Safe, OpenWorld, Exec, Launched;
    GapIsSafe(s, w, k, 0);
    var a := Exec(s, w.gap(k, 0));
    var b := CheckRequested(a, 0);
    SafeDecide(a, b);
    GapIsSafe(b, w, k, 1);
    var c := Exec(b, w.gap(k, 1));
    if PcOf(c, 0).Unwanted? {
      SafeFinish(c);
    } else {
      LaunchedIsSafe(c, w, k);
      AbandonedIsSafe(c, w, k);
    }
  }

  lemma LaunchedKeepsLane(s: State, w: World, k: nat)
    requires QuietWorld(w)
    ensures LaneShrinks(s, Launched(s, w, k))
  {
    hide LaneShrinks, QuietWorld, Exec;
    var a := CreateRun(s, 0);
    LaneKept(s);
    GapKeepsLane(a, w, k, 2);
    var b := Exec(a, w.gap(k, 2));
    LaneTransitive(s, a, b);
    var c := Attach(b, 0);
    LaneKept(b);
    LaneTransitive(s, b, c);
    if PcOf(c, 0).Signal? {
      GapKeepsLane(c, w, k, 3);
      var d := Exec(c, w.gap(k, 3));
      LaneKept(d);
      LaneTransitive(s, c, d);
      LaneTransitive(s, d, SignalStarted(d, 0));
    }
  }

  lemma RefusedKeepsLane(s: State, w: World, k: nat)
    requires QuietWorld(w)
    ensures LaneShrinks(s, FailClaim(Exec(RefuseStart(s, 0), w.gap(k, 2)), 0))
  {
    hide LaneShrinks, QuietWorld, Exec;
    var a := RefuseStart(s, 0);
    LaneKept(s);
    GapKeepsLane(a, w, k, 2);
    var b := Exec(a, w.gap(k, 2));
    LaneTransitive(s, a, b);
    LaneKept(b);
    LaneTransitive(s, b, FailClaim(b, 0));
  }

  /** As long as the others add nothing to the lane, only an attempt refused for capacity does. */
  lemma StartAttemptKeepsLane(s: State, w: World, k: nat)
    requires QuietWorld(w) && !Postponed(s, w, k)
    ensures LaneShrinks(s, StartAttempt(s, w, k))
  {
    hide LaneShrinks, QuietWorld, Exec, Launched;
    GapKeepsLane(s, w, k, 0);
    var a := Exec(s, w.gap(k, 0));
    var b := CheckRequested(a, 0);
    LaneKept(a);
    LaneTransitive(s, a, b);
    GapKeepsLane(b, w, k, 1);
    var c := Exec(b, w.gap(k, 1));
    LaneTransitive(s, b, c);
    if PcOf(c, 0).Unwanted? {
      LaneKept(c);
      LaneTransitive(s, c, FinishUnwanted(c, 0));
    } else if w.outcome(k).Started? {
      LaunchedKeepsLane(c, w, k);
      LaneTransitive(s, c, Launched(c, w, k));
    } else {
      RefusedKeepsLane(c, w, k);
      LaneTransitive(s, c, StartAttempt(s, w, k));
    }
  }

  predicate Orphaned(row: Row, runs: map<nat, RunStatus>) {
    IsActive(row) && (!HasRun(row, runs) || RunEnded(row, runs))
  }

  function OrphanIds(rows: map<nat, Row>, runs: map<nat, RunStatus>, todo: set<nat>): set<nat> {
    set i | i in rows && i !in todo && Orphaned(rows[i], runs)
  }

  /** How many orphaned rows lie outside todo. */
  function OrphansOutside(rows: map<nat, Row>, runs: map<nat, RunStatus>, todo: set<nat>): nat {
    |OrphanIds(rows, runs, todo)|
  }

  lemma OrphansStart(s: State)
    ensures OrphansOutside(s.rows, s.runs, Active(s)) == 0
  {
    assert OrphanIds(s.rows, s.runs, Active(s)) == {};
  }

  lemma OrphansStep(rows: map<nat, Row>, runs: map<nat, RunStatus>, todo: set<nat>, i: nat)
    requires i in todo && i in rows
    ensures OrphansOutside(rows, runs, todo - {i}) ==
            OrphansOutside(rows, runs, todo) + if Orphaned(rows[i], runs) then 1 else 0
  {
    var before, after := OrphanIds(rows, runs, todo), OrphanIds(rows, runs, todo - {i});
    assert i !in before;
    if Orphaned(rows[i], runs) {
      assert after == before + {i};
    } else {
      assert after == before;
    }
  }

  /** rows has reached goal except on todo, where it is still was. */
  ghost predicate Halfway(was: map<nat, Row>, goal: map<nat, Row>, rows: map<nat, Row>, todo: set<nat>) {
    && (forall i :: i in rows <==> i in was && (i in todo || i in goal))
    && (forall i :: i in rows ==> rows[i] == if i in todo then was[i] else if i in goal then goal[i] else was[i])
  }

  function Moved(goal: map<nat, Row>, rows: map<nat, Row>, i: nat): map<nat, Row> {
    if i in goal then rows[i := goal[i]] else rows - {i}
  }

  lemma HalfwayStep(was: map<nat, Row>, goal: map<nat, Row>, rows: map<nat, Row>, todo: set<nat>, i: nat)
    requires i in todo && todo <= was.Keys && Halfway(was, goal, rows, todo)
    ensures Halfway(was, goal, Moved(goal, rows, i), todo - {i})
  {
  }

  lemma RowStillToDo(was: map<nat, Row>, goal: map<nat, Row>, rows: map<nat, Row>, todo: set<nat>, i: nat)
    requires i in todo && todo <= was.Keys && Halfway(was, goal, rows, todo)
    ensures i in rows && rows[i] == was[i]
  {
  }

  /** Both passes leave inactive rows alone, so only the active ones are still to do. */
  lemma HalfwayStart(s: State)
    ensures Halfway(s.rows, RecoverRows(s.rows, s.runs), s.rows, Active(s))
    ensures Halfway(s.rows, ReconcileRows(s.rows, s.runs), s.rows, Active(s))
  {
  }

  lemma HalfwayEnd(was: map<nat, Row>, goal: map<nat, Row>, rows: map<nat, Row>)
    requires goal.Keys <= was.Keys && Halfway(was, goal, rows, {})
    ensures rows == goal
  {
  }

  /** A claim recorded by the order it was made in. */
  datatype Ticket = Ticket(createdAt: int, item: nat)

  predicate Earlier(a: Ticket, b: Ticket) {
    a.createdAt < b.createdAt || (a.createdAt == b.createdAt && a.item < b.item)
  }

  ghost predicate InOrder(claims: seq<Ticket>) {
    forall m, n :: 0 <= m < n < |claims| ==> Earlier(claims[m], claims[n])
  }

  /** Every queued row comes after every claim already made. */
  ghost predicate LaneAfter(s: State, claims: seq<Ticket>) {
    forall i, m :: i in QueuedIds(s) && 0 <= m < |claims| ==> Earlier(claims[m], Ticket(s.rows[i].createdAt, i))
  }

  /** What a dispatch pass leaves behind: nothing starting, runs named by running rows, deletions only while cancelling. */
  ghost predicate Settled(rows: map<nat, Row>) {
    && (forall i :: i in rows ==> !rows[i].status.Starting?)
    && (forall i :: i in rows && rows[i].status.Running? ==> rows[i].runId.Some?)
    && (forall i :: i in rows && rows[i].deleteRequested ==> rows[i].status.Cancelling?)
  }

  lemma IdleIsSettled(s: State)
    requires Safe(s) && PcOf(s, 0).Idle?
    ensures Settled(s.rows)
  {
  }

  function TicketOf(s: State): Ticket
    requires CanClaim(s)
  {
    var i := Oldest(s.rows, QueuedIds(s));
    Ticket(s.rows[i].createdAt, i)
  }

  /** One round of the dispatch loop keeps the claims in order and uses up queued rows. */
  lemma RoundKeepsOrder(s: State, claims: seq<Ticket>, w: World)
    requires Safe(s) && PcOf(s, 0).Idle? && CanClaim(s) && QuietWorld(w)
    requires InOrder(claims) && LaneAfter(s, claims)
    ensures var t := StartAttempt(Claim(s, 0), w, |claims|);
            var next := claims + [TicketOf(s)];
            && Safe(t) && PcOf(t, 0).Idle? && InOrder(next)
            && (!Postponed(Claim(s, 0), w, |claims|) ==> LaneAfter(t, next) && |QueuedIds(t)| < |QueuedIds(s)|)
  {
    hide Safe, StartAttempt, Exec;
    var c := Claim(s, 0);
    SafeClaim(s);
    ClaimTakesOldest(s, 0);
    StartAttemptIsSafe(c, w, |claims|);
    if !Postponed(c, w, |claims|) {
      StartAttemptKeepsLane(c, w, |claims|);
      SubsetSize(QueuedIds(StartAttempt(c, w, |claims|)), QueuedIds(c));
    }
  }

  class DiscoveryBatchQueue {
    var rows: map<nat, Row>
    var nextRow: nat
    var runs: map<nat, RunStatus>
    var nextRun: nat
    var toSignal: set<nat>
    var signalled: set<nat>
    var pcs: map<nat, Pc>

    constructor ()
      ensures View() == EMPTY
    {
      rows, nextRow, runs, nextRun, toSignal, signalled, pcs := map[], 0, map[], 0, {}, {}, map[];
    }

    function View(): State
      reads this
    {
      State(rows, nextRow, runs, nextRun, toSignal, signalled, pcs)
    }

    /** Settle one orphaned row; anything else stays. */
    method RecoverOne(i: nat) returns (settled: bool)
      requires i in rows
      modifies this`rows
      ensures RecoverRow(old(rows)[i], runs).None? ==> rows == old(rows) - {i}
      ensures RecoverRow(old(rows)[i], runs).Some? ==> rows == old(rows)[i := RecoverRow(old(rows)[i], runs).value]
      ensures settled == Orphaned(old(rows)[i], runs)
    {
      var row := rows[i];
      settled := !HasRun(row, runs) || RunEnded(row, runs);
      settled := settled && IsActive(row);
      if settled {
        if row.deleteRequested {
          rows := rows - {i};
        } else {
          rows := rows[i := row.(status := Failed, error := Some(RestartError))];
        }
      } else {
        assert rows[i := row] == rows;
      }
    }

    /** Move orphaned active rows to the retry lane, or drop them when their deletion was requested. */
    method Recover() returns (recovered: nat)
      modifies this`rows
      ensures View() == BatchQueue.Recover(old(View()))
      ensures recovered == OrphansOutside(old(rows), runs, {})
    {
      hide Halfway, Orphaned, OrphansOutside, RecoverRow;
      ghost var was, goal := rows, RecoverRows(rows, runs);
      var todo := Active(View());
      HalfwayStart(View());
      OrphansStart(View());
      recovered := 0;
      while todo != {}
        invariant todo <= was.Keys && Halfway(was, goal, rows, todo)
        invariant recovered == OrphansOutside(was, runs, todo)
        decreases |todo|
      {
        var i :| i in todo;
        RowStillToDo(was, goal, rows, todo, i);
        HalfwayStep(was, goal, rows, todo, i);
        OrphansStep(was, runs, todo, i);
        var settled := RecoverOne(i);
        if settled {
          recovered := recovered + 1;
        }
        todo := todo - {i};
      }
      HalfwayEnd(was, goal, rows);
    }

    /** Settle one active row whose run ended, or a cancelling row that never got one. */
    method ReconcileOne(i: nat)
      requires i in rows && IsActive(rows[i])
      modifies this`rows
      ensures ReconcileRow(old(rows)[i], runs).None? ==> rows == old(rows) - {i}
      ensures ReconcileRow(old(rows)[i], runs).Some? ==> rows == old(rows)[i := ReconcileRow(old(rows)[i], runs).value]
    {
      var row := rows[i];
      assert rows[i := row] == rows;
      if !HasRun(row, runs) {
        if row.status != Cancelling {
          return;
        }
        if row.deleteRequested {
          rows := rows - {i};
        } else {
          rows := rows[i := row.(status := Failed, error := Some(CancelError))];
        }
        return;
      }
      var run := runs[row.runId.value];
      if run == Live {
        return;
      }
      if row.deleteRequested {
        rows := rows - {i};
      } else if run == RunCompleted {
        rows := rows[i := row.(status := Completed, error := None)];
      } else {
        rows := rows[i := row.(status := Failed, error := Some(if run == RunCancelled then CancelError else RunError))];
      }
    }

    /** Settle every active row whose run ended, and every cancelling row that never got one. */
    method ReconcileFinished()
      requires PcOf(View(), 0).Idle?
      modifies this`rows
      ensures View() == Reconcile(old(View()), 0)
    {
      hide Halfway;
      ghost var was, goal := rows, ReconcileRows(rows, runs);
      var todo := Active(View());
      HalfwayStart(View());
      while todo != {}
        invariant todo <= Active(old(View())) && Halfway(was, goal, rows, todo)
        decreases |todo|
      {
        var i :| i in todo;
        RowStillToDo(was, goal, rows, todo, i);
        HalfwayStep(was, goal, rows, todo, i);
        ReconcileOne(i);
        todo := todo - {i};
      }
      HalfwayEnd(was, goal, rows);
    }

    /** Reserve a slot and take the oldest queued row, when there are both. */
    method ClaimNextIfSlot() returns (item: Option<nat>)
      requires PcOf(View(), 0).Idle?
      modifies this
      ensures View() == Claim(old(View()), 0)
      ensures item.Some? <==> CanClaim(old(View()))
      ensures item.Some? ==> PcOf(View(), 0) == Claimed(item.value)
    {
      if |Active(View())| >= MAX_PARALLEL {
        return None;
      }
      var queued := QueuedIds(View());
      if queued == {} {
        return None;
      }
      var i := Oldest(rows, queued);
      rows := rows[i := rows[i].(status := Starting, error := None)];
      pcs := pcs[0 := Claimed(i)];
      item := Some(i);
    }

    /** Is the claim still wanted, now that other actors may have withdrawn it? */
    method StartIsRequested(item: nat) returns (wanted: bool)
      requires PcOf(View(), 0) == Claimed(item)
      modifies this
      ensures View() == CheckRequested(old(View()), 0)
      ensures wanted <==> item in rows && rows[item].status.Starting?
    {
      wanted := item in rows && rows[item].status == Starting;
      pcs := pcs[0 := if wanted then Requested(item) else Unwanted(item)];
    }

    method FinishUnstartedCancellation(item: nat)
      requires PcOf(View(), 0) == Unwanted(item)
      modifies this
      ensures View() == FinishUnwanted(old(View()), 0)
    {
      pcs := pcs[0 := Idle];
      if item !in rows || rows[item].status != Cancelling || rows[item].runId != None {
        return;
      }
      if rows[item].deleteRequested {
        rows := rows - {item};
      } else {
        rows := rows[item := rows[item].(status := Failed, error := Some(CancelError))];
      }
    }

    /** Record the created run on its row; true when the run must be signalled to stop. */
    method AttachRun(item: nat, run: nat) returns (cancel: bool)
      requires PcOf(View(), 0) == Created(item, run)
      modifies this
      ensures View() == Attach(old(View()), 0)
      ensures cancel <==> PcOf(View(), 0) == Signal(run)
      ensures !cancel ==> PcOf(View(), 0).Idle?
    {
      cancel := false;
      if item in rows && rows[item].status in {Starting, Cancelling} {
        cancel := rows[item].status == Cancelling;
        rows := rows[item := rows[item].(runId := Some(run))];
        if !cancel {
          rows := rows[item := rows[item].(status := Running)];
        }
      } else if item !in rows || rows[item].status == Cancelling {
        cancel := true;
      }
      pcs := pcs[0 := if cancel then Signal(run) else Idle];
    }

    method FailClaimed(item: nat)
      requires PcOf(View(), 0) == Refused(item)
      modifies this
      ensures View() == FailClaim(old(View()), 0)
    {
      pcs := pcs[0 := Idle];
      if item in rows && rows[item].status in {Starting, Cancelling} {
        if rows[item].deleteRequested {
          rows := rows - {item};
        } else {
          rows := rows[item := rows[item].(status := Failed, error := Some(StartError))];
        }
      }
    }

    method ReturnClaimToPending(item: nat)
      requires PcOf(View(), 0) == Full(item)
      modifies this
      ensures View() == ReturnClaim(old(View()), 0)
    {
      pcs := pcs[0 := Idle];
      if item in rows && rows[item].status == Starting {
        rows := rows[item := rows[item].(status := Queued, error := None)];
      }
    }

    /** The gap between two of our transactions. */
    method Interfere(w: World, k: nat, g: nat)
      modifies this
      ensures View() == Exec(old(View()), w.gap(k, g))
    {
      var s := Exec(View(), w.gap(k, g));
      rows, nextRow, runs, nextRun := s.rows, s.nextRow, s.runs, s.nextRun;
      toSignal, signalled, pcs := s.toSignal, s.signalled, s.pcs;
    }

    /** The start succeeded: attach the new run, and stop it if its row was withdrawn meanwhile. */
    method LaunchRun(item: nat, w: World, k: nat)
      requires PcOf(View(), 0) == Requested(item) && OpenWorld(w)
      modifies this
      ensures View() == Launched(old(View()), w, k)
    {
      hide Exec, OpenWorld;
      var run := nextRun;
      runs, nextRun, pcs := runs[run := Live], run + 1, pcs[0 := Created(item, run)];
      PcsKept(View(), w, k, 2);
      Interfere(w, k, 2);
      var cancel := AttachRun(item, run);
      if cancel {
        PcsKept(View(), w, k, 3);
        Interfere(w, k, 3);
        signalled, pcs := signalled + {run}, pcs[0 := Idle];
      }
    }

    /** Carry one claim to the end of its start; false when the system-wide capacity was taken. */
    method StartClaimed(item: nat, w: World, k: nat) returns (goOn: bool)
      requires PcOf(View(), 0) == Claimed(item) && OpenWorld(w)
      modifies this
      ensures View() == StartAttempt(old(View()), w, k)
      ensures goOn == !Postponed(old(View()), w, k)
    {
      hide Exec, OpenWorld, Launched;
      PcsKept(View(), w, k, 0);
      Interfere(w, k, 0);
      var wanted := StartIsRequested(item);
      PcsKept(View(), w, k, 1);
      Interfere(w, k, 1);
      if !wanted {
        FinishUnstartedCancellation(item);
        return true;
      }
      match w.outcome(k) {
        case Started =>
          LaunchRun(item, w, k);
          return true;
        case CapacityExceeded =>
          pcs := pcs[0 := Full(item)];
          PcsKept(View(), w, k, 2);
          Interfere(w, k, 2);
          ReturnClaimToPending(item);
          return false;
        case _ =>
          pcs := pcs[0 := Refused(item)];
          PcsKept(View(), w, k, 2);
          Interfere(w, k, 2);
          FailClaimed(item);
          return true;
      }
    }

    /** One dispatch pass: reconcile, then claim and start until no slot, no work or no capacity is left. */
    method DispatchOnce(w: World) returns (claims: seq<Ticket>, full: bool)
      requires Safe(View()) && PcOf(View(), 0).Idle? && QuietWorld(w)
      modifies this
      ensures Safe(View()) && PcOf(View(), 0).Idle?
      ensures Settled(rows)
      ensures InOrder(claims) && |claims| <= |old(QueuedIds(View()))|
      ensures full || !CanClaim(View())
      ensures full ==> claims != [] && w.outcome(|claims| - 1).CapacityExceeded?
    {
      hide Safe, Settled, StartAttempt;
      SafeReconcile(View());
      ReconcileKeepsLane(View());
      ReconcileFinished();
      claims, full := [], false;
      while true
        invariant Safe(View()) && PcOf(View(), 0).Idle?
        invariant InOrder(claims) && LaneAfter(View(), claims)
        invariant |claims| + |QueuedIds(View())| <= |old(QueuedIds(View()))|
        decreases |QueuedIds(View())|
      {
        ghost var before := View();
        var item := ClaimNextIfSlot();
        if item.None? {
          IdleIsSettled(View());
          return;
        }
        RoundKeepsOrder(before, claims, w);
        claims := claims + [Ticket(rows[item.value].createdAt, item.value)];
        var goOn := StartClaimed(item.value, w, |claims| - 1);
        if !goOn {
          IdleIsSettled(View());
          return claims, true;
        }
      }
    }
  }
}
