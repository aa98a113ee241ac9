// The durable two-slot batch queue. Every database transaction of the dispatcher, of
// the queue routes and of restart recovery is one atomic operation on a State; a run of
// the system, with any number of dispatchers, is any sequence of operations.
module BatchQueue {
  import opened Prelude

  const MAX_PARALLEL: nat := 2

  datatype Route = Website | WechatSearch | WechatHistory | InternalForum

  datatype Status = Queued | Starting | Running | Cancelling | Failed | Completed

  datatype QueueError = RestartError | CancelError | RunError | StartError

  datatype RunStatus = Live | RunCompleted | RunFailed | RunCancelled | RunInterrupted

  // entryKey is the normalized entry URL of the input, None when it has no scheme or host.
  datatype Row = Row(
    createdAt: int,
    entryKey: Option<string>,
    selected: Option<Route>,
    resolved: Option<Route>,
    status: Status,
    runId: Option<nat>,
    deleteRequested: bool,
    error: Option<QueueError>)

  // Where a dispatcher stands between two of its transactions.
  datatype Pc =
    | Idle
    | Claimed(item: nat)            // the claim is committed, the start not yet requested
    | Requested(item: nat)          // the claim was seen to be still wanted
    | Unwanted(item: nat)           // the claim was seen to be withdrawn
    | Created(item: nat, run: nat)  // the run exists, its row does not name it yet
    | Refused(item: nat)            // the start failed or was not accepted
    | Full(item: nat)               // the system-wide capacity was taken
    | Signal(run: nat)              // the run was attached to a withdrawn row

  // runs holds the discovery runs this queue created. toSignal holds runs a route has
  // committed to cancel but not signalled yet.
  datatype State = State(
    rows: map<nat, Row>,
    nextRow: nat,
    runs: map<nat, RunStatus>,
    nextRun: nat,
    toSignal: set<nat>,
    signalled: set<nat>,
    pcs: map<nat, Pc>)

  const EMPTY := State(map[], 0, map[], 0, {}, {}, map[])

  // ---------- row predicates ----------

  predicate IsActive(row: Row) {
    row.status in {Starting, Running, Cancelling}
  }

  predicate IsOccupied(row: Row) {
    row.status.Queued? || IsActive(row) || row.status.Failed?
  }

  function Active(s: State): set<nat> {
    set i | i in s.rows && IsActive(s.rows[i])
  }

  function QueuedIds(s: State): set<nat> {
    set i | i in s.rows && s.rows[i].status.Queued?
  }

  function LiveRuns(s: State): set<nat> {
    set r | r in s.runs && s.runs[r].Live?
  }

  predicate HasRun(row: Row, runs: map<nat, RunStatus>) {
    row.runId.Some? && row.runId.value in runs
  }

  predicate RunEnded(row: Row, runs: map<nat, RunStatus>) {
    HasRun(row, runs) && !runs[row.runId.value].Live?
  }

  function PcOf(s: State, d: nat): Pc {
    if d in s.pcs then s.pcs[d] else Idle
  }

  function Goto(s: State, d: nat, pc: Pc): State {
    s.(pcs := s.pcs[d := pc])
  }

  function SetRow(s: State, i: nat, row: Row): State {
    s.(rows := s.rows[i := row])
  }

  function DropRow(s: State, i: nat): State {
    s.(rows := s.rows - {i})
  }

  // ---------- claim order ----------

  /** The claim order of the queue: creation time first, then row id. */
  predicate Before(rows: map<nat, Row>, i: nat, j: nat)
    requires i in rows && j in rows
  {
    rows[i].createdAt < rows[j].createdAt || (rows[i].createdAt == rows[j].createdAt && i <= j)
  }

  predicate IsOldest(rows: map<nat, Row>, ids: set<nat>, i: nat)
    requires ids <= rows.Keys
  {
    i in ids && forall j :: j in ids ==> Before(rows, i, j)
  }

  lemma {:induction false} OldestExists(rows: map<nat, Row>, ids: set<nat>)
    requires ids != {} && ids <= rows.Keys
    ensures exists i :: IsOldest(rows, ids, i)
    decreases |ids|
  {
    var x :| x in ids;
    if ids == {x} {
      assert IsOldest(rows, ids, x);
    } else {
      OldestExists(rows, ids - {x});
      var y :| IsOldest(rows, ids - {x}, y);
      var m := if Before(rows, x, y) then x else y;
      forall j | j in ids ensures Before(rows, m, j) {
        assert j == x || j in ids - {x};
      }
      assert IsOldest(rows, ids, m);
    }
  }

  function Oldest(rows: map<nat, Row>, ids: set<nat>): (i: nat)
    requires ids != {} && ids <= rows.Keys
    ensures IsOldest(rows, ids, i)
  {
    OldestExists(rows, ids);
    var i :| i in ids && IsOldest(rows, ids, i);
    i
  }

  // ---------- enqueue ----------

  datatype Request = Request(
    createdAt: int,
    entryKey: Option<string>,
    selected: Option<Route>,
    resolved: Option<Route>,
    force: bool,
    methodExists: bool)

  datatype EnqueueResult = QueueDuplicate(item: nat, status: Status) | MethodDuplicate | Enqueued(item: nat)

  function Duplicates(s: State, q: Request): set<nat> {
    if q.resolved == Some(Website) && q.entryKey.Some? then
      set i | i in s.rows && IsOccupied(s.rows[i]) && s.rows[i].entryKey == q.entryKey
              && (s.rows[i].resolved == Some(Website) || s.rows[i].selected == Some(Website))
    else {}
  }

  function EnqueueOutcome(s: State, q: Request): EnqueueResult {
    var twins := Duplicates(s, q);
    if twins != {} then
      var i := Oldest(s.rows, twins);
      QueueDuplicate(i, s.rows[i].status)
    else if !q.force && q.methodExists then MethodDuplicate
    else Enqueued(s.nextRow)
  }

  function Enqueue(s: State, q: Request): State {
    match EnqueueOutcome(s, q)
    case Enqueued(i) =>
      SetRow(s, i, Row(q.createdAt, q.entryKey, q.selected, q.resolved, Queued, None, false, None)).(nextRow := i + 1)
    case _ => s
  }

  // ---------- routes ----------

  function Requeue(s: State, i: nat): State {
    if i in s.rows && s.rows[i].status.Failed? then
      SetRow(s, i, s.rows[i].(status := Queued, runId := None, error := None))
    else s
  }

  function RunIdSet(row: Row): set<nat> {
    if row.runId.Some? then {row.runId.value} else {}
  }

  function Delete(s: State, i: nat): State {
    if i !in s.rows then s
    else
      var marked := s.(toSignal := s.toSignal + RunIdSet(s.rows[i]));
      if IsActive(s.rows[i]) then
        SetRow(marked, i, s.rows[i].(status := Cancelling, deleteRequested := true))
      else DropRow(marked, i)
  }

  function StopRow(row: Row): Row {
    if IsActive(row) then row.(status := Cancelling, error := None) else row
  }

  function StopAll(s: State): State {
    s.(rows := map i | i in s.rows :: StopRow(s.rows[i]),
       toSignal := s.toSignal + set i | i in Active(s) && s.rows[i].runId.Some? :: s.rows[i].runId.value)
  }

  function DeliverSignal(s: State, r: nat): State {
    if r in s.toSignal then s.(toSignal := s.toSignal - {r}, signalled := s.signalled + {r}) else s
  }

  // ---------- runs and restarts ----------

  function EndRun(s: State, r: nat, outcome: RunStatus): State {
    if r in s.runs && s.runs[r].Live? && !outcome.Live? then s.(runs := s.runs[r := outcome]) else s
  }

  function RecoverRow(row: Row, runs: map<nat, RunStatus>): Option<Row> {
    if IsActive(row) && (!HasRun(row, runs) || RunEnded(row, runs)) then
      if row.deleteRequested then None else Some(row.(status := Failed, error := Some(RestartError)))
    else Some(row)
  }

  function RecoverRows(rows: map<nat, Row>, runs: map<nat, RunStatus>): map<nat, Row> {
    map i | i in rows && RecoverRow(rows[i], runs).Some? :: RecoverRow(rows[i], runs).value
  }

  function Recover(s: State): State {
    s.(rows := RecoverRows(s.rows, s.runs))
  }

  /** The process dies with its runs and comes back: runs are marked interrupted, then rows are recovered. */
  function Restart(s: State): State {
    Recover(s.(runs := map r | r in s.runs :: if s.runs[r].Live? then RunInterrupted else s.runs[r],
               toSignal := {}, pcs := map[]))
  }

  // ---------- dispatcher ----------

  function ReconcileRow(row: Row, runs: map<nat, RunStatus>): Option<Row> {
    if !IsActive(row) then Some(row)
    else if !HasRun(row, runs) then
      if !row.status.Cancelling? then Some(row)
      else if row.deleteRequested then None
      else Some(row.(status := Failed, error := Some(CancelError)))
    else if !RunEnded(row, runs) then Some(row)
    else if row.deleteRequested then None
    else if runs[row.runId.value].RunCompleted? then Some(row.(status := Completed, error := None))
    else Some(row.(status := Failed,
                   error := Some(if runs[row.runId.value].RunCancelled? then CancelError else RunError)))
  }

  function ReconcileRows(rows: map<nat, Row>, runs: map<nat, RunStatus>): map<nat, Row> {
    map i | i in rows && ReconcileRow(rows[i], runs).Some? :: ReconcileRow(rows[i], runs).value
  }

  function Reconcile(s: State, d: nat): State {
    if PcOf(s, d).Idle? then s.(rows := ReconcileRows(s.rows, s.runs)) else s
  }

  predicate CanClaim(s: State) {
    |Active(s)| < MAX_PARALLEL && QueuedIds(s) != {}
  }

  function Claim(s: State, d: nat): State {
    if PcOf(s, d).Idle? && CanClaim(s) then
      var i := Oldest(s.rows, QueuedIds(s));
      Goto(SetRow(s, i, s.rows[i].(status := Starting, error := None)), d, Claimed(i))
    else s
  }

  function CheckRequested(s: State, d: nat): State {
    match PcOf(s, d)
    case Claimed(i) =>
      Goto(s, d, if i in s.rows && s.rows[i].status.Starting? then Requested(i) else Unwanted(i))
    case _ => s
  }

  function FinishUnwanted(s: State, d: nat): State {
    match PcOf(s, d)
    case Unwanted(i) =>
      if i in s.rows && s.rows[i].status.Cancelling? && s.rows[i].runId.None? then
        if s.rows[i].deleteRequested then Goto(DropRow(s, i), d, Idle)
        else Goto(SetRow(s, i, s.rows[i].(status := Failed, error := Some(CancelError))), d, Idle)
      else Goto(s, d, Idle)
    case _ => s
  }

  function CreateRun(s: State, d: nat): State {
    match PcOf(s, d)
    case Requested(i) =>
      Goto(s.(runs := s.runs[s.nextRun := Live], nextRun := s.nextRun + 1), d, Created(i, s.nextRun))
    case _ => s
  }

  function RefuseStart(s: State, d: nat): State {
    match PcOf(s, d)
    case Requested(i) => Goto(s, d, Refused(i))
    case _ => s
  }

  function HitCapacity(s: State, d: nat): State {
    match PcOf(s, d)
    case Requested(i) => Goto(s, d, Full(i))
    case _ => s
  }

  function Attach(s: State, d: nat): State {
    match PcOf(s, d)
    case Created(i, r) =>
      if i !in s.rows then Goto(s, d, Signal(r))
      else if s.rows[i].status.Starting? then
        Goto(SetRow(s, i, s.rows[i].(status := Running, runId := Some(r))), d, Idle)
      else if s.rows[i].status.Cancelling? then
        Goto(SetRow(s, i, s.rows[i].(runId := Some(r))), d, Signal(r))
      else Goto(s, d, Idle)
    case _ => s
  }

  function SignalStarted(s: State, d: nat): State {
    match PcOf(s, d)
    case Signal(r) => Goto(s.(signalled := s.signalled + {r}), d, Idle)
    case _ => s
  }

  function FailClaim(s: State, d: nat): State {
    match PcOf(s, d)
    case Refused(i) =>
      if i in s.rows && s.rows[i].status in {Starting, Cancelling} then
        if s.rows[i].deleteRequested then Goto(DropRow(s, i), d, Idle)
        else Goto(SetRow(s, i, s.rows[i].(status := Failed, error := Some(StartError))), d, Idle)
      else Goto(s, d, Idle)
    case _ => s
  }

  function ReturnClaim(s: State, d: nat): State {
    match PcOf(s, d)
    case Full(i) =>
      if i in s.rows && s.rows[i].status.Starting? then
        Goto(SetRow(s, i, s.rows[i].(status := Queued, error := None)), d, Idle)
      else Goto(s, d, Idle)
    case _ => s
  }

  // ---------- runs of the system ----------

  datatype Op =
    | OpEnqueue(request: Request)
    | OpRequeue(item: nat)
    | OpDelete(item: nat)
    | OpStopAll
    | OpDeliver(run: nat)
    | OpEndRun(run: nat, outcome: RunStatus)
    | OpRecover
    | OpRestart
    | OpReconcile(d: nat)
    | OpClaim(d: nat)
    | OpCheck(d: nat)
    | OpFinishUnwanted(d: nat)
    | OpCreate(d: nat)
    | OpRefuse(d: nat)
    | OpCapacity(d: nat)
    | OpAttach(d: nat)
    | OpSignal(d: nat)
    | OpFail(d: nat)
    | OpReturn(d: nat)

  /** One atomic transaction; an operation that is not enabled changes nothing. */
  function Apply(s: State, op: Op): State {
    match op
    case OpEnqueue(q) => Enqueue(s, q)
    case OpRequeue(i) => Requeue(s, i)
    case OpDelete(i) => Delete(s, i)
    case OpStopAll => StopAll(s)
    case OpDeliver(r) => DeliverSignal(s, r)
    case OpEndRun(r, o) => EndRun(s, r, o)
    case OpRecover => Recover(s)
    case OpRestart => Restart(s)
    case OpReconcile(d) => Reconcile(s, d)
    case OpClaim(d) => Claim(s, d)
    case OpCheck(d) => CheckRequested(s, d)
    case OpFinishUnwanted(d) => FinishUnwanted(s, d)
    case OpCreate(d) => CreateRun(s, d)
    case OpRefuse(d) => RefuseStart(s, d)
    case OpCapacity(d) => HitCapacity(s, d)
    case OpAttach(d) => Attach(s, d)
    case OpSignal(d) => SignalStarted(s, d)
    case OpFail(d) => FailClaim(s, d)
    case OpReturn(d) => ReturnClaim(s, d)
  }

  function Exec(s: State, ops: seq<Op>): State
    decreases |ops|
  {
    if ops == [] then s else Exec(Apply(s, ops[0]), ops[1..])
  }
}
