// Safety of the batch queue over every interleaving of its operations.
module BatchQueueSafety {
  import opened Prelude
  import opened BatchQueue

  // ---------- two slots, any number of dispatchers ----------

  lemma OnlyClaimsActivate(s: State, op: Op)
    ensures !op.OpClaim? ==> Active(Apply(s, op)) <= Active(s)
    ensures op.OpClaim? ==> exists i :: Active(Apply(s, op)) <= Active(s) + {i}
    ensures op.OpClaim? && |Active(s)| >= MAX_PARALLEL ==> Apply(s, op) == s
  {
    if op.OpClaim? && PcOf(s, op.d).Idle? && CanClaim(s) {
      assert Active(Apply(s, op)) <= Active(s) + {Oldest(s.rows, QueuedIds(s))};
    }
    if op.OpClaim? && !(PcOf(s, op.d).Idle? && CanClaim(s)) {
      assert Active(Apply(s, op)) <= Active(s) + {0};
    }
  }

  lemma SlotStep(s: State, op: Op)
    requires |Active(s)| <= MAX_PARALLEL
    ensures |Active(Apply(s, op))| <= MAX_PARALLEL
  {
    OnlyClaimsActivate(s, op);
    if op.OpClaim? && |Active(s)| < MAX_PARALLEL {
      var i :| Active(Apply(s, op)) <= Active(s) + {i};
      SubsetSize(Active(Apply(s, op)), Active(s) + {i});
    } else {
      SubsetSize(Active(Apply(s, op)), Active(s));
    }
  }

  /** At most two rows are ever starting, running or cancelling. */
  lemma {:induction false} AtMostTwoActive(s: State, ops: seq<Op>)
    requires |Active(s)| <= MAX_PARALLEL
    ensures |Active(Exec(s, ops))| <= MAX_PARALLEL
    decreases |ops|
  {
    if ops != [] {
      SlotStep(s, ops[0]);
      AtMostTwoActive(Apply(s, ops[0]), ops[1..]);
    }
  }

  // ---------- row shape, any number of dispatchers ----------

  ghost predicate RowShape(row: Row) {
    && (row.deleteRequested ==> row.status.Cancelling?)
    && (row.status.Running? || row.status.Completed? ==> row.runId.Some?)
    && (row.status.Queued? || row.status.Starting? ==> row.runId.None?)
  }

  ghost predicate Shape(s: State) {
    && (forall i :: i in s.rows ==> RowShape(s.rows[i]))
    && (forall i :: i in s.rows ==> i < s.nextRow)
    && (forall i :: i in s.rows && s.rows[i].runId.Some? ==> s.rows[i].runId.value in s.runs)
    && (forall r :: r in s.runs ==> r < s.nextRun)
    && (forall d :: d in s.pcs && s.pcs[d].Created? ==> s.pcs[d].run in s.runs)
  }

  lemma ShapeEnqueue(s: State, q: Request)
    requires Shape(s)
    ensures Shape(Enqueue(s, q))
  {
  }

  lemma ShapeRequeue(s: State, i: nat)
    requires Shape(s)
    ensures Shape(Requeue(s, i))
  {
  }

  lemma ShapeDelete(s: State, i: nat)
    requires Shape(s)
    ensures Shape(Delete(s, i))
  {
  }

  lemma ShapeStopAll(s: State)
    requires Shape(s)
    ensures Shape(StopAll(s))
  {
  }

  lemma ShapeRecover(s: State)
    requires Shape(s)
    ensures Shape(Recover(s))
  {
  }

  lemma ShapeRestart(s: State)
    requires Shape(s)
    ensures Shape(Restart(s))
  {
    var t := s.(runs := map r | r in s.runs :: if s.runs[r].Live? then RunInterrupted else s.runs[r],
                toSignal := {}, pcs := map[]);
    assert Shape(t);
    ShapeRecover(t);
  }

  lemma ShapeReconcile(s: State, d: nat)
    requires Shape(s)
    ensures Shape(Reconcile(s, d))
  {
  }

  lemma ShapeClaim(s: State, d: nat)
    requires Shape(s)
    ensures Shape(Claim(s, d))
  {
  }

  lemma ShapeCreate(s: State, d: nat)
    requires Shape(s)
    ensures Shape(CreateRun(s, d))
  {
  }

  lemma ShapeDecide(s: State, d: nat)
    requires Shape(s)
    ensures Shape(CheckRequested(s, d)) && Shape(RefuseStart(s, d)) && Shape(HitCapacity(s, d))
    ensures Shape(SignalStarted(s, d))
  {
  }

  lemma ShapeFinish(s: State, d: nat)
    requires Shape(s)
    ensures Shape(FinishUnwanted(s, d))
  {
  }

  lemma ShapeAttach(s: State, d: nat)
    requires Shape(s)
    ensures Shape(Attach(s, d))
  {
  }

  lemma ShapeFail(s: State, d: nat)
    requires Shape(s)
    ensures Shape(FailClaim(s, d))
  {
  }

  lemma ShapeReturn(s: State, d: nat)
    requires Shape(s)
    ensures Shape(ReturnClaim(s, d))
  {
  }

  lemma ShapeRuns(s: State, r: nat, outcome: RunStatus)
    requires Shape(s)
    ensures Shape(DeliverSignal(s, r)) && Shape(EndRun(s, r, outcome))
  {
  }

  lemma ShapeStep(s: State, op: Op)
    requires Shape(s)
    ensures Shape(Apply(s, op))
  {
    hide Shape;
    match op
    case OpEnqueue(q) => ShapeEnqueue(s, q);
    case OpRequeue(i) => ShapeRequeue(s, i);
    case OpDelete(i) => ShapeDelete(s, i);
    case OpStopAll => ShapeStopAll(s);
    case OpDeliver(r) => ShapeRuns(s, r, Live);
    case OpEndRun(r, o) => ShapeRuns(s, r, o);
    case OpRecover => ShapeRecover(s);
    case OpRestart => ShapeRestart(s);
    case OpReconcile(d) => ShapeReconcile(s, d);
    case OpClaim(d) => ShapeClaim(s, d);
    case OpCreate(d) => ShapeCreate(s, d);
    case OpFinishUnwanted(d) => ShapeFinish(s, d);
    case OpAttach(d) => ShapeAttach(s, d);
    case OpFail(d) => ShapeFail(s, d);
    case OpReturn(d) => ShapeReturn(s, d);
    case _ => ShapeDecide(s, op.d);
  }

  /** Whatever the interleaving: delete_requested only on cancelling rows, a run id on every running row. */
  lemma {:induction false} ShapeAlways(s: State, ops: seq<Op>)
    requires Shape(s)
    ensures Shape(Exec(s, ops))
    decreases |ops|
  {
    if ops != [] {
      ShapeStep(s, ops[0]);
      ShapeAlways(Apply(s, ops[0]), ops[1..]);
    }
  }

  // ---------- one dispatcher owns every run it creates ----------

  /** The item a dispatcher holds between its claim and the transaction that settles it. */
  function Held(pc: Pc): Option<nat> {
    match pc
    case Claimed(i) => Some(i)
    case Requested(i) => Some(i)
    case Unwanted(i) => Some(i)
    case Created(i, _) => Some(i)
    case Refused(i) => Some(i)
    case Full(i) => Some(i)
    case _ => None
  }

  /** One process, one dispatcher: recovery runs only inside a restart. */
  predicate Solo(op: Op) {
    match op
    case OpRecover => false
    case OpReconcile(d) => d == 0
    case OpClaim(d) => d == 0
    case OpCheck(d) => d == 0
    case OpFinishUnwanted(d) => d == 0
    case OpCreate(d) => d == 0
    case OpRefuse(d) => d == 0
    case OpCapacity(d) => d == 0
    case OpAttach(d) => d == 0
    case OpSignal(d) => d == 0
    case OpFail(d) => d == 0
    case OpReturn(d) => d == 0
    case _ => true
  }

  ghost predicate Attached(s: State, r: nat) {
    exists i :: i in s.rows && IsActive(s.rows[i]) && s.rows[i].runId == Some(r)
  }

  ghost predicate Owned(s: State) {
    var pc := PcOf(s, 0);
    // the held item is an unstarted active row, and no other row is starting
    && (Held(pc).Some? ==>
          var i := Held(pc).value;
          i in s.rows && s.rows[i].status in {Starting, Cancelling} && s.rows[i].runId.None?)
    && (pc.Unwanted? ==> s.rows[pc.item].status.Cancelling?)
    && (forall i :: i in s.rows && s.rows[i].status.Starting? ==> Held(pc) == Some(i))
    // every live run is named by an active row, or is about to be
    && (forall r :: r in s.runs && s.runs[r].Live? ==>
          Attached(s, r) || (pc.Created? && pc.run == r))
    && (pc.Created? ==> !exists i :: i in s.rows && s.rows[i].runId == Some(pc.run))
  }

  /** Every live run of a cancelling row is signalled, or somebody is about to signal it. */
  ghost predicate Signalled(s: State) {
    forall i :: i in s.rows && s.rows[i].status.Cancelling? && s.rows[i].runId.Some? ==>
      var r := s.rows[i].runId.value;
      r in s.runs && s.runs[r].Live? ==> r in s.signalled || r in s.toSignal || PcOf(s, 0) == Signal(r)
  }

  ghost predicate Safe(s: State) {
    Shape(s) && Owned(s) && Signalled(s)
  }

  predicate RunLive(row: Row, runs: map<nat, RunStatus>) {
    HasRun(row, runs) && runs[row.runId.value].Live?
  }

  /** A step that leaves the active rows that name live runs alone keeps those runs attached. */
  lemma KeepsAttached(s: State, t: State)
    requires forall i :: i in s.rows && IsActive(s.rows[i]) && RunLive(s.rows[i], t.runs) ==>
                           i in t.rows && IsActive(t.rows[i]) && t.rows[i].runId == s.rows[i].runId
    ensures forall r :: r in t.runs && t.runs[r].Live? && Attached(s, r) ==> Attached(t, r)
  {
    forall r | r in t.runs && t.runs[r].Live? && Attached(s, r) ensures Attached(t, r) {
      var i :| i in s.rows && IsActive(s.rows[i]) && s.rows[i].runId == Some(r);
      assert i in t.rows && IsActive(t.rows[i]) && t.rows[i].runId == Some(r);
    }
  }

  lemma SafeEnqueue(s: State, q: Request)
    requires Safe(s)
    ensures Safe(Enqueue(s, q))
  {
    ShapeEnqueue(s, q);
    KeepsAttached(s, Enqueue(s, q));
  }

  lemma SafeRequeue(s: State, i: nat)
    requires Safe(s)
    ensures Safe(Requeue(s, i))
  {
    ShapeRequeue(s, i);
    KeepsAttached(s, Requeue(s, i));
  }

  lemma SafeDeleteActive(s: State, i: nat)
    requires Safe(s) && i in s.rows && IsActive(s.rows[i])
    ensures Safe(Delete(s, i))
  {
    ShapeDelete(s, i);
    KeepsAttached(s, Delete(s, i));
  }

  lemma SafeDelete(s: State, i: nat)
    requires Safe(s)
    ensures Safe(Delete(s, i))
  {
    if i in s.rows && IsActive(s.rows[i]) {
      SafeDeleteActive(s, i);
    } else {
      ShapeDelete(s, i);
      KeepsAttached(s, Delete(s, i));
    }
  }

  lemma SafeRuns(s: State, op: Op)
    requires Safe(s) && Solo(op)
    requires op.OpDeliver? || op.OpEndRun?
    ensures Safe(Apply(s, op))
  {
    ShapeStep(s, op);
    KeepsAttached(s, Apply(s, op));
  }

  lemma SafeStopAll(s: State)
    requires Safe(s)
    ensures Safe(StopAll(s))
  {
    ShapeStopAll(s);
    var t := StopAll(s);
    KeepsAttached(s, t);
    forall i | i in t.rows && t.rows[i].status.Cancelling? && t.rows[i].runId.Some?
      ensures t.rows[i].runId.value in t.toSignal
    {
      assert i in Active(s) && s.rows[i].runId.Some?;
    }
  }

  lemma SafeRestart(s: State)
    requires Safe(s)
    ensures Safe(Restart(s))
  {
    ShapeRestart(s);
    var t := Restart(s);
    assert forall r :: r in t.runs ==> !t.runs[r].Live?;
    assert forall i :: i in t.rows ==> !IsActive(t.rows[i]);
  }

  /** Reconciling touches an active row only to settle it, and never one whose run is live. */
  lemma ReconcileSettles(rows: map<nat, Row>, runs: map<nat, RunStatus>)
    ensures forall i :: i in ReconcileRows(rows, runs) ==>
                          i in rows && (ReconcileRows(rows, runs)[i] == rows[i] || !IsActive(ReconcileRows(rows, runs)[i]))
    ensures forall i :: i in rows && IsActive(rows[i]) && RunLive(rows[i], runs) ==>
                          i in ReconcileRows(rows, runs) && ReconcileRows(rows, runs)[i] == rows[i]
  {
  }

  lemma SafeSettled(s: State, rows: map<nat, Row>)
    requires Safe(s) && PcOf(s, 0).Idle? && Shape(s.(rows := rows))
    requires forall i :: i in rows ==> i in s.rows && (rows[i] == s.rows[i] || !IsActive(rows[i]))
    requires forall i :: i in s.rows && IsActive(s.rows[i]) && RunLive(s.rows[i], s.runs) ==>
                           i in rows && rows[i] == s.rows[i]
    ensures Safe(s.(rows := rows))
  {
    KeepsAttached(s, s.(rows := rows));
  }

  lemma SafeReconcile(s: State)
    requires Safe(s)
    ensures Safe(Reconcile(s, 0))
  {
    ShapeReconcile(s, 0);
    if PcOf(s, 0).Idle? {
      ReconcileSettles(s.rows, s.runs);
      SafeSettled(s, ReconcileRows(s.rows, s.runs));
    }
  }

  lemma SafeClaim(s: State)
    requires Safe(s)
    ensures Safe(Claim(s, 0))
  {
    ShapeClaim(s, 0);
    KeepsAttached(s, Claim(s, 0));
  }

  lemma SafeDecide(s: State, t: State)
    requires Safe(s)
    requires t == CheckRequested(s, 0) || t == RefuseStart(s, 0) || t == HitCapacity(s, 0)
    ensures Safe(t)
  {
    ShapeDecide(s, 0);
    KeepsAttached(s, t);
  }

  lemma SafeSignal(s: State)
    requires Safe(s)
    ensures Safe(SignalStarted(s, 0))
  {
    ShapeDecide(s, 0);
    KeepsAttached(s, SignalStarted(s, 0));
  }

  lemma SafeCreate(s: State)
    requires Safe(s)
    ensures Safe(CreateRun(s, 0))
  {
    ShapeCreate(s, 0);
    KeepsAttached(s, CreateRun(s, 0));
  }

  lemma SafeFinish(s: State)
    requires Safe(s)
    ensures Safe(FinishUnwanted(s, 0))
  {
    ShapeFinish(s, 0);
    KeepsAttached(s, FinishUnwanted(s, 0));
  }

  lemma SafeFail(s: State)
    requires Safe(s)
    ensures Safe(FailClaim(s, 0))
  {
    ShapeFail(s, 0);
    KeepsAttached(s, FailClaim(s, 0));
  }

  lemma SafeReturn(s: State)
    requires Safe(s)
    ensures Safe(ReturnClaim(s, 0))
  {
    ShapeReturn(s, 0);
    KeepsAttached(s, ReturnClaim(s, 0));
  }

  lemma SafeAttach(s: State)
    requires Safe(s)
    ensures Safe(Attach(s, 0))
  {
    ShapeAttach(s, 0);
    var t := Attach(s, 0);
    var pc := PcOf(s, 0);
    if pc.Created? {
      assert pc.item in t.rows && IsActive(t.rows[pc.item]) && t.rows[pc.item].runId == Some(pc.run);
      forall r | r in t.runs && t.runs[r].Live? ensures Attached(t, r) {
        if r != pc.run {
          var i :| i in s.rows && IsActive(s.rows[i]) && s.rows[i].runId == Some(r);
          assert i in t.rows && IsActive(t.rows[i]) && t.rows[i].runId == Some(r);
        }
      }
    }
  }

  lemma SafeStep(s: State, op: Op)
    requires Safe(s) && Solo(op)
    ensures Safe(Apply(s, op))
  {
    match op
    case OpEnqueue(q) => SafeEnqueue(s, q);
    case OpRequeue(i) => SafeRequeue(s, i);
    case OpDelete(i) => SafeDelete(s, i);
    case OpDeliver(_) => SafeRuns(s, op);
    case OpEndRun(_, _) => SafeRuns(s, op);
    case OpStopAll => SafeStopAll(s);
    case OpRecover => assert false;
    case OpRestart => SafeRestart(s);
    case OpReconcile(_) => SafeReconcile(s);
    case OpClaim(_) => SafeClaim(s);
    case OpCheck(_) => SafeDecide(s, CheckRequested(s, 0));
    case OpRefuse(_) => SafeDecide(s, RefuseStart(s, 0));
    case OpCapacity(_) => SafeDecide(s, HitCapacity(s, 0));
    case OpSignal(_) => SafeSignal(s);
    case OpCreate(_) => SafeCreate(s);
    case OpAttach(_) => SafeAttach(s);
    case OpFinishUnwanted(_) => SafeFinish(s);
    case OpFail(_) => SafeFail(s);
    case OpReturn(_) => SafeReturn(s);
  }

  predicate AllSolo(ops: seq<Op>) {
    forall k :: 0 <= k < |ops| ==> Solo(ops[k])
  }

  lemma {:induction false} SafeAlways(s: State, ops: seq<Op>)
    requires Safe(s) && AllSolo(ops)
    ensures Safe(Exec(s, ops))
    decreases |ops|
  {
    if ops != [] {
      SafeStep(s, ops[0]);
      SafeAlways(Apply(s, ops[0]), ops[1..]);
    }
  }

  /** The empty queue satisfies every invariant of this module. */
  lemma EmptyIsSafe()
    ensures Safe(EMPTY) && UniqueSites(EMPTY) && Active(EMPTY) == {}
  {
  }

  // ---------- consequences for one dispatcher ----------

  /** The row that answers for a live run: the one naming it, or the one it was created for. */
  ghost function Owner(s: State, r: nat): nat
    requires Owned(s) && r in s.runs && s.runs[r].Live?
    ensures Owner(s, r) in Active(s)
  {
    if Attached(s, r) then
      var i :| i in s.rows && IsActive(s.rows[i]) && s.rows[i].runId == Some(r); i
    else PcOf(s, 0).item
  }

  /** At most two runs of the queue are ever live, counting a run not yet attached to its row. */
  lemma AtMostTwoLive(ops: seq<Op>)
    requires AllSolo(ops)
    ensures |LiveRuns(Exec(EMPTY, ops))| <= MAX_PARALLEL
  {
    var s := Exec(EMPTY, ops);
    EmptyIsSafe();
    SafeAlways(EMPTY, ops);
    AtMostTwoActive(EMPTY, ops);
    var owner := r => if r in LiveRuns(s) then Owner(s, r) else 0;
    forall r, q | r in LiveRuns(s) && q in LiveRuns(s) && owner(r) == owner(q) ensures r == q {
      var i := owner(r);
      assert s.rows[i].runId == Some(r) || (PcOf(s, 0).Created? && PcOf(s, 0).run == r && s.rows[i].runId.None?);
    }
    InjectionSize(LiveRuns(s), Active(s), owner);
  }

  /** Once nothing is in flight, each live run is named by an active row, and signalled if that row is cancelling. */
  lemma LiveRunsAccountedFor(ops: seq<Op>)
    requires AllSolo(ops)
    ensures var s := Exec(EMPTY, ops);
            PcOf(s, 0).Idle? && s.toSignal == {} ==>
              forall r :: r in LiveRuns(s) ==>
                            exists i :: i in s.rows && IsActive(s.rows[i]) && s.rows[i].runId == Some(r)
                                        && (s.rows[i].status.Cancelling? ==> r in s.signalled)
  {
    var s := Exec(EMPTY, ops);
    EmptyIsSafe();
    SafeAlways(EMPTY, ops);
    if PcOf(s, 0).Idle? && s.toSignal == {} {
      forall r | r in LiveRuns(s)
        ensures exists i :: i in s.rows && IsActive(s.rows[i]) && s.rows[i].runId == Some(r)
                            && (s.rows[i].status.Cancelling? ==> r in s.signalled)
      {
        assert Attached(s, r);
        var i :| i in s.rows && IsActive(s.rows[i]) && s.rows[i].runId == Some(r);
      }
    }
  }

  /** The only dispatcher always attaches the run it created: running, or withdrawn and about to be signalled. */
  lemma CreatedRunIsAttached(ops: seq<Op>)
    requires AllSolo(ops) && PcOf(Exec(EMPTY, ops), 0).Created?
    ensures var s := Exec(EMPTY, ops);
            var i, r := PcOf(s, 0).item, PcOf(s, 0).run;
            var t := Attach(s, 0);
            && i in t.rows && t.rows[i].runId == Some(r)
            && ((t.rows[i].status.Running? && PcOf(t, 0).Idle?) || (t.rows[i].status.Cancelling? && PcOf(t, 0) == Signal(r)))
  {
    EmptyIsSafe();
    SafeAlways(EMPTY, ops);
  }

  // ---------- several dispatchers ----------

  ghost predicate Named(s: State, r: nat) {
    exists i :: i in s.rows && s.rows[i].runId == Some(r)
  }

  /** Attaching loses a run exactly when its row has meanwhile left the starting and cancelling states. */
  lemma AttachKeepsRunIff(s: State, d: nat)
    requires PcOf(s, d).Created? && !Named(s, PcOf(s, d).run)
    ensures var i, r := PcOf(s, d).item, PcOf(s, d).run;
            var t := Attach(s, d);
            (Named(t, r) || PcOf(t, d) == Signal(r)) <==>
            (i !in s.rows || s.rows[i].status.Starting? || s.rows[i].status.Cancelling?)
  {
    var i, r := PcOf(s, d).item, PcOf(s, d).run;
    var t := Attach(s, d);
    if i in s.rows && s.rows[i].status in {Starting, Cancelling} {
      assert t.rows[i].runId == Some(r);
    } else {
      assert t.rows == s.rows;
    }
  }

  const ORPHANING := [OpClaim(0), OpCheck(0), OpStopAll, OpReconcile(1), OpCreate(0), OpAttach(0)]

  lemma OrphaningTrace(s: State)
    ensures Exec(s, ORPHANING) == Attach(CreateRun(Reconcile(StopAll(CheckRequested(Claim(s, 0), 0)), 1), 0), 0)
  {
    hide Claim, CheckRequested, StopAll, Reconcile, CreateRun, Attach;
    var t := StopAll(CheckRequested(Claim(s, 0), 0));
    var rest := [OpReconcile(1), OpCreate(0), OpAttach(0)];
    assert ORPHANING[1..][1..][1..] == rest;
    assert Exec(s, ORPHANING) == Exec(t, rest);
    assert rest[1..][1..][1..] == [];
    assert Exec(t, rest) == Attach(CreateRun(Reconcile(t, 1), 0), 0);
  }

  /** The claimed row is withdrawn and failed by the other dispatcher before its run exists. */
  lemma WithdrawnUnderTheClaim(q: Request)
    requires q.force && q.entryKey.None?
    ensures var s := Reconcile(StopAll(CheckRequested(Claim(Enqueue(EMPTY, q), 0), 0)), 1);
            && s.rows.Keys == {0} && s.rows[0].status.Failed? && s.rows[0].runId.None?
            && s.runs == map[] && s.nextRun == 0 && s.toSignal == {} && s.signalled == {}
            && s.pcs == map[0 := Requested(0)]
  {
    var s1 := Enqueue(EMPTY, q);
    assert s1.rows.Keys == {0} && Active(s1) == {} && QueuedIds(s1) == {0};
    var s4 := StopAll(CheckRequested(Claim(s1, 0), 0));
    assert s4.rows.Keys == {0} && s4.rows[0].status.Cancelling? && s4.rows[0].runId.None? && s4.toSignal == {};
    assert s4.pcs == map[0 := Requested(0)];
  }

  /** A stop-all and a second dispatcher's reconcile between check and attach leave a live run nobody answers for. */
  lemma TwoDispatchersOrphanARun(q: Request)
    requires q.force && q.entryKey.None?
    ensures var s := Exec(Exec(EMPTY, [OpEnqueue(q)]), ORPHANING);
            && LiveRuns(s) == {0} && !Named(s, 0) && 0 !in s.signalled && s.toSignal == {}
            && PcOf(s, 0).Idle? && PcOf(s, 1).Idle?
  {
    hide Claim, CheckRequested, StopAll, Reconcile;
    OrphaningTrace(Enqueue(EMPTY, q));
    WithdrawnUnderTheClaim(q);
  }

  // ---------- reconciling ----------

  /** After one pass no active row has an ended run, and no cancelling row lacks a run. */
  lemma ReconcileSettlesEverything(s: State, d: nat)
    requires PcOf(s, d).Idle?
    ensures forall i :: i in Reconcile(s, d).rows && IsActive(Reconcile(s, d).rows[i]) ==>
                          !RunEnded(Reconcile(s, d).rows[i], s.runs)
                          && (Reconcile(s, d).rows[i].status.Cancelling? ==> HasRun(Reconcile(s, d).rows[i], s.runs))
  {
    var t := Reconcile(s, d);
    forall i | i in t.rows && IsActive(t.rows[i])
      ensures !RunEnded(t.rows[i], s.runs) && (t.rows[i].status.Cancelling? ==> HasRun(t.rows[i], s.runs))
    {
      assert t.rows[i] == s.rows[i];
    }
  }

  /** What becomes of each row: removed, completed, failed with its reason, or untouched. */
  lemma ReconcileOutcome(rows: map<nat, Row>, runs: map<nat, RunStatus>, i: nat)
    requires i in rows
    ensures var row := rows[i];
            var after := ReconcileRows(rows, runs);
            var settled := IsActive(row) && (RunEnded(row, runs) || (row.status.Cancelling? && !HasRun(row, runs)));
            && (i !in after <==> settled && row.deleteRequested)
            && (i in after ==> (after[i] == row || settled))
            && (settled && !row.deleteRequested ==>
                  (after[i].status.Completed? <==> HasRun(row, runs) && runs[row.runId.value].RunCompleted?)
                  && (after[i].status.Completed? || after[i].status.Failed?)
                  && (after[i].error == Some(CancelError) <==>
                      !HasRun(row, runs) || runs[row.runId.value].RunCancelled?)
                  && after[i].runId == row.runId && !after[i].deleteRequested)
  {
  }

  // ---------- claim order ----------

  /** A claim takes the first queued row by creation time and id, and nothing else changes. */
  lemma ClaimTakesOldest(s: State, d: nat)
    requires PcOf(s, d).Idle? && CanClaim(s)
    ensures var t := Claim(s, d);
            PcOf(t, d).Claimed? &&
            var i := PcOf(t, d).item;
            && i in QueuedIds(s) && QueuedIds(t) == QueuedIds(s) - {i} && Active(t) == Active(s) + {i}
            && (forall j :: j in QueuedIds(s) ==> Before(s.rows, i, j))
            && t.rows[i].status.Starting? && (forall j :: j in s.rows && j != i ==> j in t.rows && t.rows[j] == s.rows[j])
  {
  }

  // ---------- duplicates ----------

  predicate SameSite(a: Row, b: Row) {
    a.resolved == Some(Website) && b.resolved == Some(Website) && a.entryKey.Some? && a.entryKey == b.entryKey
  }

  ghost predicate UniqueSites(s: State) {
    && (forall i :: i in s.rows ==> i < s.nextRow)
    && (forall i, j :: i in s.rows && j in s.rows && i != j && IsOccupied(s.rows[i]) && IsOccupied(s.rows[j]) ==>
          !SameSite(s.rows[i], s.rows[j]))
  }

  /** No operation but enqueue makes a row occupied, and none changes what a row is for. */
  lemma OccupationShrinks(s: State, op: Op, i: nat)
    requires !op.OpEnqueue? && i in Apply(s, op).rows
    ensures i in s.rows && Apply(s, op).rows[i].resolved == s.rows[i].resolved
    ensures Apply(s, op).rows[i].entryKey == s.rows[i].entryKey
    ensures IsOccupied(Apply(s, op).rows[i]) ==> IsOccupied(s.rows[i])
  {
  }

  lemma UniqueSitesEnqueue(s: State, q: Request)
    requires UniqueSites(s)
    ensures UniqueSites(Enqueue(s, q))
  {
    var t := Enqueue(s, q);
    if EnqueueOutcome(s, q).Enqueued? {
      forall i | i in s.rows && IsOccupied(s.rows[i]) ensures !SameSite(s.rows[i], t.rows[s.nextRow]) {
        assert i !in Duplicates(s, q);
      }
    }
  }

  lemma UniqueSitesStep(s: State, op: Op)
    requires UniqueSites(s)
    ensures UniqueSites(Apply(s, op))
  {
    if op.OpEnqueue? {
      UniqueSitesEnqueue(s, op.request);
    } else {
      UniqueSitesShrink(s, op);
    }
  }

  lemma UniqueSitesShrink(s: State, op: Op)
    requires UniqueSites(s) && !op.OpEnqueue?
    ensures UniqueSites(Apply(s, op))
  {
    var t := Apply(s, op);
    assert t.nextRow == s.nextRow;
    forall i | i in t.rows
      ensures i in s.rows && t.rows[i].resolved == s.rows[i].resolved && t.rows[i].entryKey == s.rows[i].entryKey
      ensures IsOccupied(t.rows[i]) ==> IsOccupied(s.rows[i])
    {
      OccupationShrinks(s, op, i);
    }
    hide Apply, IsOccupied;
  }

  /** Over whole runs, no two queued, active or failed website rows share a normalized entry URL. */
  lemma {:induction false} UniqueSitesAlways(s: State, ops: seq<Op>)
    requires UniqueSites(s)
    ensures UniqueSites(Exec(s, ops))
    decreases |ops|
  {
    if ops != [] {
      UniqueSitesStep(s, ops[0]);
      UniqueSitesAlways(Apply(s, ops[0]), ops[1..]);
    }
  }

  /** Enqueue accepts exactly the requests with no occupied website twin that are forced or have no method yet. */
  lemma EnqueueAcceptsIff(s: State, q: Request)
    ensures EnqueueOutcome(s, q).Enqueued? <==>
            (q.force || !q.methodExists)
            && (q.resolved == Some(Website) && q.entryKey.Some? ==>
                  forall i :: i in s.rows && IsOccupied(s.rows[i]) && s.rows[i].entryKey == q.entryKey ==>
                                s.rows[i].resolved != Some(Website) && s.rows[i].selected != Some(Website))
  {
    if q.resolved == Some(Website) && q.entryKey.Some? && Duplicates(s, q) != {} {
      var i :| i in Duplicates(s, q);
      assert i in s.rows && IsOccupied(s.rows[i]) && s.rows[i].entryKey == q.entryKey;
    }
    if q.resolved == Some(Website) && q.entryKey.Some? && Duplicates(s, q) == {} {
      forall i | i in s.rows && IsOccupied(s.rows[i]) && s.rows[i].entryKey == q.entryKey
        ensures s.rows[i].resolved != Some(Website) && s.rows[i].selected != Some(Website)
      {
        assert i !in Duplicates(s, q);
      }
    }
  }

  // ---------- deletion and stop-all ----------

  /** Row i is gone, or is on its way out: cancelling with its deletion requested. */
  ghost predicate Gone(s: State, i: nat) {
    i < s.nextRow && (i in s.rows ==> s.rows[i].status.Cancelling? && s.rows[i].deleteRequested)
  }

  lemma GoneStep(s: State, i: nat, op: Op)
    requires Gone(s, i)
    ensures Gone(Apply(s, op), i)
  {
  }

  /** A deleted item never comes back to any lane, whatever its run, the dispatchers and the other routes do. */
  lemma DeletedForGood(s: State, i: nat, ops: seq<Op>)
    requires Shape(s) && i in s.rows
    ensures Gone(Exec(Delete(s, i), ops), i)
  {
    GoneAlways(Delete(s, i), i, ops);
  }

  lemma {:induction false} GoneAlways(s: State, i: nat, ops: seq<Op>)
    requires Gone(s, i)
    ensures Gone(Exec(s, ops), i)
    decreases |ops|
  {
    if ops != [] {
      GoneStep(s, i, ops[0]);
      GoneAlways(Apply(s, ops[0]), i, ops[1..]);
    }
  }

  /** Stop-all withdraws every active row, arranges a signal for each run they name, and touches nothing else. */
  lemma StopAllWithdraws(s: State, i: nat)
    requires i in s.rows
    ensures i in StopAll(s).rows
    ensures !IsActive(s.rows[i]) ==> StopAll(s).rows[i] == s.rows[i]
    ensures IsActive(s.rows[i]) ==>
              StopAll(s).rows[i].status.Cancelling? && StopAll(s).rows[i].runId == s.rows[i].runId
              && RunIdSet(s.rows[i]) <= StopAll(s).toSignal
    ensures QueuedIds(StopAll(s)) == QueuedIds(s) && Active(StopAll(s)) == Active(s)
  {
    if IsActive(s.rows[i]) {
      assert i in Active(s);
    }
  }
}
