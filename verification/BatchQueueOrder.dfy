// When a queued row is claimed: after exactly the rows that come before it in claim order,
// whatever else happens meanwhile; and what that means for a row that is requeued.
module BatchQueueOrder {
  import opened Prelude
  import opened BatchQueue
  import opened BatchQueueSafety

  /** The queued rows that are claimed before row i. */
  function Ahead(s: State, i: nat): set<nat>
    requires i in s.rows
  {
    set j | j in QueuedIds(s) && j != i && Before(s.rows, j, i)
  }

  // Nothing is added to the lane, and none of its rows is deleted.
  predicate IsSteady(op: Op, lane: set<nat>) {
    !op.OpEnqueue? && !op.OpRequeue? && !op.OpReturn? && (op.OpDelete? ==> op.item !in lane)
  }

  predicate AllSteady(ops: seq<Op>, lane: set<nat>) {
    forall k :: 0 <= k < |ops| ==> IsSteady(ops[k], lane)
  }

  predicate Claims(s: State, op: Op) {
    op.OpClaim? && PcOf(s, op.d).Idle? && CanClaim(s)
  }

  /** How many rows are claimed in a run. */
  function ClaimCount(s: State, ops: seq<Op>): nat
    decreases |ops|
  {
    if ops == [] then 0 else (if Claims(s, ops[0]) then 1 else 0) + ClaimCount(Apply(s, ops[0]), ops[1..])
  }

  // What one operation does to the lane: a claim takes the first row, nothing else touches it.
  ghost predicate LaneStep(s: State, op: Op) {
    var t := Apply(s, op);
    && QueuedIds(t) == (if Claims(s, op) then QueuedIds(s) - {Oldest(s.rows, QueuedIds(s))} else QueuedIds(s))
    && forall j :: j in QueuedIds(t) ==> j in s.rows && t.rows[j].createdAt == s.rows[j].createdAt
  }

  lemma DispatchStep(s: State, op: Op)
    requires op.OpRecover? || op.OpRestart? || op.OpReconcile? || op.OpFinishUnwanted? || op.OpFail?
    ensures LaneStep(s, op)
  {
  }

  lemma ClaimStep(s: State, op: Op)
    requires op.OpClaim?
    ensures LaneStep(s, op)
  {
  }

  lemma OtherStep(s: State, op: Op, lane: set<nat>)
    requires IsSteady(op, lane) && QueuedIds(s) <= lane
    requires !(op.OpRecover? || op.OpRestart? || op.OpReconcile? || op.OpClaim? || op.OpFinishUnwanted? || op.OpFail?)
    ensures LaneStep(s, op)
  {
  }

  lemma SteadyStep(s: State, op: Op, lane: set<nat>)
    requires IsSteady(op, lane) && QueuedIds(s) <= lane
    ensures LaneStep(s, op)
  {
    hide LaneStep;
    if op.OpClaim? {
      ClaimStep(s, op);
    } else if op.OpRecover? || op.OpRestart? || op.OpReconcile? || op.OpFinishUnwanted? || op.OpFail? {
      DispatchStep(s, op);
    } else {
      OtherStep(s, op, lane);
    }
  }

  lemma {:induction false} StaysOut(s: State, ops: seq<Op>, lane: set<nat>, i: nat)
    requires AllSteady(ops, lane) && QueuedIds(s) <= lane && i !in QueuedIds(s)
    ensures i !in QueuedIds(Exec(s, ops))
    decreases |ops|
  {
    if ops != [] {
      SteadyStep(s, ops[0], lane);
      StaysOut(Apply(s, ops[0]), ops[1..], lane, i);
    }
  }

  /** A claim takes the row itself if nothing is ahead of it, and otherwise one of those ahead. */
  lemma ClaimShortensAhead(s: State, op: Op, lane: set<nat>, i: nat)
    requires IsSteady(op, lane) && QueuedIds(s) <= lane && i in QueuedIds(s)
    ensures var t := Apply(s, op);
            if !Claims(s, op) then i in QueuedIds(t) && Ahead(t, i) == Ahead(s, i)
            else if Ahead(s, i) == {} then i !in QueuedIds(t)
            else i in QueuedIds(t) && |Ahead(t, i)| == |Ahead(s, i)| - 1
  {
    SteadyStep(s, op, lane);
    hide Apply;
    var t := Apply(s, op);
    if Claims(s, op) {
      var o := Oldest(s.rows, QueuedIds(s));
      assert Before(s.rows, o, i);
      if o == i {
        forall j | j in QueuedIds(s) && j != i ensures !Before(s.rows, j, i) {
          assert Before(s.rows, i, j);
        }
        assert Ahead(s, i) == {};
      } else {
        assert o in Ahead(s, i);
        assert Ahead(t, i) == Ahead(s, i) - {o};
      }
    }
  }

  /**
   * As long as nothing is added to the lane and nothing in it is deleted, a queued row is claimed by exactly the claim
   * that follows as many claims as there are rows ahead of it, whatever the dispatchers, routes and runs do meanwhile.
   */
  lemma {:induction false} ClaimedAfterAhead(s: State, ops: seq<Op>, lane: set<nat>, i: nat)
    requires AllSteady(ops, lane) && QueuedIds(s) <= lane && i in QueuedIds(s)
    ensures i in QueuedIds(Exec(s, ops)) <==> ClaimCount(s, ops) <= |Ahead(s, i)|
    decreases |ops|
  {
    if ops != [] {
      var t := Apply(s, ops[0]);
      ClaimShortensAhead(s, ops[0], lane, i);
      SteadyStep(s, ops[0], lane);
      hide Apply;
      if i in QueuedIds(t) {
        ClaimedAfterAhead(t, ops[1..], lane, i);
      } else {
        StaysOut(t, ops[1..], lane, i);
      }
    }
  }

  // ---------- requeueing ----------

  /** The queued rows older than a failed one. */
  function Older(s: State, i: nat): set<nat>
    requires i in s.rows
  {
    set j | j in QueuedIds(s) && Before(s.rows, j, i)
  }

  lemma RequeuedLane(s: State, i: nat)
    requires i in s.rows && s.rows[i].status.Failed?
    ensures var t := Requeue(s, i);
            i in t.rows && QueuedIds(t) == QueuedIds(s) + {i} && Active(t) == Active(s) && Ahead(t, i) == Older(s, i)
  {
  }

  /** A requeued row is claimed after exactly the queued rows that come before it by creation time and id. */
  lemma RequeuedIsClaimedAfter(s: State, i: nat, ops: seq<Op>)
    requires i in s.rows && s.rows[i].status.Failed?
    requires AllSteady(ops, QueuedIds(s) + {i})
    ensures var t := Requeue(s, i);
            i in QueuedIds(Exec(t, ops)) <==> ClaimCount(t, ops) <= |Older(s, i)|
  {
    RequeuedLane(s, i);
    ClaimedAfterAhead(Requeue(s, i), ops, QueuedIds(s) + {i}, i);
  }

  /**
   * It goes to the tail, behind all that are queued, exactly if no queued row is later in claim order, and to the head
   * exactly if none is earlier: the time of requeueing plays no part.
   */
  lemma RequeuedPlace(s: State, i: nat)
    requires i in s.rows && s.rows[i].status.Failed?
    ensures |Older(s, i)| == |QueuedIds(s)| <==> forall j :: j in QueuedIds(s) ==> Before(s.rows, j, i)
    ensures |Older(s, i)| == 0 <==> forall j :: j in QueuedIds(s) ==> Before(s.rows, i, j)
  {
    if j :| j in QueuedIds(s) && !Before(s.rows, j, i) {
      assert Older(s, i) <= QueuedIds(s) - {j};
      SubsetSize(Older(s, i), QueuedIds(s) - {j});
    } else {
      assert Older(s, i) == QueuedIds(s);
    }
    if Older(s, i) == {} {
      forall j | j in QueuedIds(s) ensures Before(s.rows, i, j) {
        assert j !in Older(s, i);
      }
    } else {
      var j :| j in Older(s, i);
    }
  }

  /** At the tail means: when it is claimed nothing else is queued any more. */
  lemma RequeuedAtTailGoesLast(s: State, i: nat, ops: seq<Op>)
    requires i in s.rows && s.rows[i].status.Failed? && |Older(s, i)| == |QueuedIds(s)|
    requires AllSteady(ops, QueuedIds(s) + {i}) && i !in QueuedIds(Exec(Requeue(s, i), ops))
    ensures QueuedIds(Exec(Requeue(s, i), ops)) == {}
  {
    var t, lane := Requeue(s, i), QueuedIds(s) + {i};
    RequeuedPlace(s, i);
    RequeuedLane(s, i);
    RequeuedIsClaimedAfter(s, i, ops);
    forall j ensures j !in QueuedIds(Exec(t, ops)) {
      if j in QueuedIds(s) && j != i {
        ClaimedAfterAhead(t, ops, lane, j);
        assert Ahead(t, j) <= QueuedIds(s) - {j};
        SubsetSize(Ahead(t, j), QueuedIds(s) - {j});
      } else if j != i {
        StaysOut(t, ops, lane, j);
      }
    }
  }

  /** A failed row older than the whole lane goes back to its head: the next claim takes it. */
  lemma RequeuedAtHeadGoesFirst(s: State, i: nat, d: nat)
    requires i in s.rows && s.rows[i].status.Failed? && |Older(s, i)| == 0
    requires PcOf(s, d).Idle? && |Active(s)| < MAX_PARALLEL
    ensures PcOf(Claim(Requeue(s, i), d), d) == Claimed(i)
  {
    var t := Requeue(s, i);
    RequeuedLane(s, i);
    ClaimTakesOldest(t, d);
    ClaimShortensAhead(t, OpClaim(d), QueuedIds(t), i);
  }

  const RETRIED := [OpClaim(0), OpCheck(0), OpRefuse(0), OpFail(0), OpRequeue(0), OpClaim(0)]

  /** Two targets are enqueued, the first fails to start and is requeued: it is claimed before the second, not after it. */
  lemma RequeuedOvertakes(first: Request, second: Request)
    requires first.force && second.force && first.resolved.None? && second.resolved.None?
    requires first.createdAt < second.createdAt
    ensures var s := Exec(Enqueue(Enqueue(EMPTY, first), second), RETRIED);
            PcOf(s, 0) == Claimed(0) && QueuedIds(s) == {1}
  {
    var s := Enqueue(Enqueue(EMPTY, first), second);
    TwoQueued(first, second);
    var failed := SetRow(Goto(s, 0, Idle), 0, s.rows[0].(status := Failed, error := Some(StartError)));
    RetryTrace(s);
    RetryFails(s, failed);
    FailedAlone(s, failed);
    hide *;
    RequeuedAtHeadGoesFirst(failed, 0, 0);
    RequeuedLane(failed, 0);
    RequeuedClaim(failed);
  }

  lemma RequeuedClaim(failed: State)
    requires 0 in failed.rows && failed.rows[0].status.Failed? && QueuedIds(failed) == {1} && Active(failed) == {}
    requires PcOf(failed, 0).Idle? && PcOf(Claim(Requeue(failed, 0), 0), 0) == Claimed(0)
    ensures QueuedIds(Claim(Requeue(failed, 0), 0)) == {1}
  {
    RequeuedLane(failed, 0);
    var t := Requeue(failed, 0);
    assert PcOf(t, 0).Idle? && CanClaim(t);
    ClaimTakesOldest(t, 0);
    hide *;
    assert {1} + {0} - {0} == {1};
  }

  lemma FailedAlone(s: State, failed: State)
    requires s.rows.Keys == QueuedIds(s) == {0, 1} && Active(s) == {} && s.rows[0].createdAt < s.rows[1].createdAt
    requires failed == SetRow(Goto(s, 0, Idle), 0, s.rows[0].(status := Failed, error := Some(StartError)))
    ensures failed.rows.Keys == {0, 1} && failed.rows[0].status.Failed? && PcOf(failed, 0).Idle?
    ensures QueuedIds(failed) == {1} && Active(failed) == {} && |Active(failed)| < MAX_PARALLEL && |Older(failed, 0)| == 0
  {
    assert Older(failed, 0) == {};
  }

  lemma TwoQueued(first: Request, second: Request)
    requires first.force && second.force && first.resolved.None? && second.resolved.None?
    requires first.createdAt < second.createdAt
    ensures var s := Enqueue(Enqueue(EMPTY, first), second);
            && s.rows.Keys == QueuedIds(s) == {0, 1} && Active(s) == {} && PcOf(s, 0).Idle?
            && s.rows[0].createdAt < s.rows[1].createdAt && !s.rows[0].deleteRequested
            && Oldest(s.rows, {0, 1}) == 0
  {
    var s := Enqueue(Enqueue(EMPTY, first), second);
    assert s.rows.Keys == {0, 1};
    assert Before(s.rows, Oldest(s.rows, {0, 1}), 0);
  }

  lemma RetryTrace(s: State)
    ensures Exec(s, RETRIED) == Claim(Requeue(FailClaim(RefuseStart(CheckRequested(Claim(s, 0), 0), 0), 0), 0), 0)
  {
    hide Claim, CheckRequested, RefuseStart, FailClaim, Requeue;
    var t := RefuseStart(CheckRequested(Claim(s, 0), 0), 0);
    var rest := [OpFail(0), OpRequeue(0), OpClaim(0)];
    assert RETRIED[1..][1..][1..] == rest;
    assert Exec(s, RETRIED) == Exec(t, rest);
    assert rest[1..][1..][1..] == [];
    assert Exec(t, rest) == Claim(Requeue(FailClaim(t, 0), 0), 0);
  }

  lemma RetryFails(s: State, failed: State)
    requires QueuedIds(s) == {0, 1} && Oldest(s.rows, {0, 1}) == 0 && Active(s) == {} && PcOf(s, 0).Idle?
    requires !s.rows[0].deleteRequested
    requires failed == SetRow(Goto(s, 0, Idle), 0, s.rows[0].(status := Failed, error := Some(StartError)))
    ensures FailClaim(RefuseStart(CheckRequested(Claim(s, 0), 0), 0), 0) == failed
  {
    var claimed := Claim(s, 0);
    assert claimed == Goto(SetRow(s, 0, s.rows[0].(status := Starting, error := None)), 0, Claimed(0));
    var refused := RefuseStart(CheckRequested(claimed, 0), 0);
    hide Claim;
    assert refused == Goto(claimed, 0, Refused(0));
  }
}
