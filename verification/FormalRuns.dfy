// Formal fetch runs: creation, leases, cancellation, finishing and dead-owner recovery.
// Each compare-and-set statement with the accounting committed beside it is one atomic
// operation, and a run of the system is any sequence of operations of any processes.
module FormalRuns {
  import opened Prelude

  datatype Status = Running | Ok | Empty | Partial | Failed | Cancelled

  // The process that owns a run: its identity, pid and start token.
  datatype Owner = Owner(id: string, pid: int, token: string)

  // Times are in seconds. recorded is when the run was accounted to the migration ledger.
  datatype Run = Run(
    methodId: nat,
    status: Status,
    owner: Option<Owner>,
    heartbeat: Option<int>,
    sandboxJob: Option<string>,
    cancelRequested: Option<int>,
    cancelAcknowledged: Option<int>,
    completed: Option<int>,
    recorded: Option<int>,
    discovered: nat,
    stored: nat,
    error: Option<string>)

  datatype Entry = Entry(run: nat, status: Status)

  datatype Store = Store(methods: set<nat>, runs: map<nat, Run>, nextRun: nat, ledger: seq<Entry>)

  // What a finishing caller reports.
  datatype Report = Report(status: Status, discovered: nat, stored: nat, error: Option<string>)

  predicate Owns(run: Run, id: string) {
    run.owner.Some? && run.owner.value.id == id
  }

  function ActiveRuns(s: Store, methodId: nat): set<nat> {
    set r | r in s.runs && s.runs[r].methodId == methodId && s.runs[r].status.Running?
  }

  // ---------- creation ----------

  datatype StartResult = Started(run: nat) | MethodNotFound | NotCurrent | AlreadyActive

  function StartOutcome(s: Store, methodId: nat, isCurrent: bool): StartResult {
    if methodId !in s.methods then MethodNotFound
    else if !isCurrent then NotCurrent
    else if ActiveRuns(s, methodId) != {} then AlreadyActive
    else Started(s.nextRun)
  }

  function Start(s: Store, methodId: nat, isCurrent: bool, owner: Option<Owner>, job: Option<string>, now: int): Store {
    match StartOutcome(s, methodId, isCurrent)
    case Started(r) =>
      s.(runs := s.runs[r := Run(methodId, Running, owner, if owner.Some? then Some(now) else None, job,
                                 None, None, None, None, 0, 0, None)],
         nextRun := r + 1)
    case _ => s
  }

  // ---------- terminal compare-and-set ----------

  /** Account a run that has just become terminal, unless it already was. */
  function RecordTerminal(s: Store, r: nat, status: Status, now: int): Store {
    if r in s.runs && s.runs[r].status == status && s.runs[r].completed.Some? && s.runs[r].recorded.None? then
      s.(runs := s.runs[r := s.runs[r].(recorded := Some(now))], ledger := s.ledger + [Entry(r, status)])
    else s
  }

  predicate MayFinish(s: Store, r: nat, status: Status, ownerId: Option<string>) {
    && r in s.runs && s.runs[r].status.Running?
    && (ownerId.Some? ==> Owns(s.runs[r], ownerId.value))
    && (status != Cancelled ==> s.runs[r].cancelRequested.None?)
  }

  /** The caller's status, unless the row was finished, is owned by another, or has a cancel request. */
  function FinishAs(s: Store, r: nat, report: Report, ownerId: Option<string>, now: int): Store {
    if MayFinish(s, r, report.status, ownerId) then
      RecordTerminal(
        s.(runs := s.runs[r := s.runs[r].(status := report.status, discovered := report.discovered,
                                          stored := report.stored, error := report.error, completed := Some(now),
                                          cancelAcknowledged := if report.status == Cancelled then Some(now) else None)]),
        r, report.status, now)
    else s
  }

  predicate MustAcknowledge(s: Store, r: nat, ownerId: string) {
    r in s.runs && s.runs[r].status.Running? && Owns(s.runs[r], ownerId) && s.runs[r].cancelRequested.Some?
  }

  /** A persisted cancel request wins over the owner's success or error. */
  function Acknowledge(s: Store, r: nat, report: Report, ownerId: string, now: int): Store {
    if MustAcknowledge(s, r, ownerId) then
      RecordTerminal(
        s.(runs := s.runs[r := s.runs[r].(status := Cancelled, discovered := report.discovered,
                                          stored := report.stored, error := Some("fetch cancelled"),
                                          completed := Some(now), cancelAcknowledged := Some(now))]),
        r, Cancelled, now)
    else s
  }

  // ---------- requests and leases ----------

  function RequestCancel(s: Store, r: nat, now: int): Store {
    if r in s.runs && s.runs[r].status.Running? then
      s.(runs := s.runs[r := s.runs[r].(cancelRequested := Some(now))])
    else s
  }

  function Heartbeat(s: Store, r: nat, ownerId: string, now: int): Store {
    if r in s.runs && s.runs[r].status.Running? && Owns(s.runs[r], ownerId) then
      s.(runs := s.runs[r := s.runs[r].(heartbeat := Some(now))])
    else s
  }

  const LEASE_SECONDS := 30

  /** The owner holds its lease: a recent heartbeat, and a live process with the recorded start token. */
  predicate OwnerIsAlive(run: Run, now: int, processes: map<int, string>) {
    && run.owner.Some? && run.owner.value.token != ""
    && run.heartbeat.Some? && now - run.heartbeat.value <= LEASE_SECONDS
    && run.owner.value.pid in processes && processes[run.owner.value.pid] == run.owner.value.token
  }

  predicate MustRecover(s: Store, r: nat, now: int, processes: map<int, string>, cleaned: bool) {
    && r in s.runs && s.runs[r].methodId in s.methods && s.runs[r].status.Running? && s.runs[r].owner.Some?
    && !OwnerIsAlive(s.runs[r], now, processes) && (s.runs[r].sandboxJob.Some? ==> cleaned)
  }

  function RecoverRun(s: Store, r: nat, now: int, processes: map<int, string>, cleaned: bool): Store {
    if MustRecover(s, r, now, processes, cleaned) then
      var requested := s.runs[r].cancelRequested.Some?;
      var status := if requested then Cancelled else Failed;
      RecordTerminal(
        s.(runs := s.runs[r := s.runs[r].(
          status := status,
          error := Some(if requested then "fetch cancelled after owner process exited"
                        else "formal fetch owner process exited before completion"),
          completed := Some(now),
          cancelAcknowledged := if requested then Some(now) else None)]),
        r, status, now)
    else s
  }

  // ---------- runs of the system ----------

  datatype Op =
    | OpStart(methodId: nat, isCurrent: bool, owner: Option<Owner>, job: Option<string>, now: int)
    | OpFinish(run: nat, report: Report, ownerId: Option<string>, now: int)
    | OpAcknowledge(run: nat, report: Report, caller: string, now: int)
    | OpRequestCancel(run: nat, now: int)
    | OpHeartbeat(run: nat, caller: string, now: int)
    | OpRecover(run: nat, now: int, processes: map<int, string>, cleaned: bool)

  function Apply(s: Store, op: Op): Store {
    match op
    case OpStart(m, c, o, j, now) => Start(s, m, c, o, j, now)
    case OpFinish(r, rep, o, now) => FinishAs(s, r, rep, o, now)
    case OpAcknowledge(r, rep, o, now) => Acknowledge(s, r, rep, o, now)
    case OpRequestCancel(r, now) => RequestCancel(s, r, now)
    case OpHeartbeat(r, o, now) => Heartbeat(s, r, o, now)
    case OpRecover(r, now, p, c) => RecoverRun(s, r, now, p, c)
  }

  function Exec(s: Store, ops: seq<Op>): Store
    decreases |ops|
  {
    if ops == [] then s else Exec(Apply(s, ops[0]), ops[1..])
  }

  lemma {:induction false} ExecSnoc(s: Store, ops: seq<Op>, op: Op)
    ensures Exec(s, ops + [op]) == Apply(Exec(s, ops), op)
    decreases |ops|
  {
    if ops == [] {
      assert ops + [op] == [op] && [op][1..] == [];
    } else {
      assert (ops + [op])[1..] == ops[1..] + [op];
      ExecSnoc(Apply(s, ops[0]), ops[1..], op);
    }
  }

  lemma {:induction false} ExecSplits(s: Store, ops: seq<Op>, n: nat)
    requires n <= |ops|
    ensures Exec(s, ops) == Exec(Exec(s, ops[..n]), ops[n..])
    decreases n
  {
    if n > 0 {
      ExecSplits(Apply(s, ops[0]), ops[1..], n - 1);
      assert ops[..n][1..] == ops[1..][..n - 1] && ops[1..][n - 1..] == ops[n..];
    } else {
      assert ops[..0] == [] && ops[0..] == ops;
    }
  }

  /** Callers finish runs with terminal statuses. */
  predicate Proper(op: Op) {
    op.OpFinish? ==> !op.report.status.Running?
  }

  predicate AllProper(ops: seq<Op>) {
    forall k :: 0 <= k < |ops| ==> Proper(ops[k])
  }

  // ---------- invariants ----------

  ghost predicate RunOk(run: Run) {
    && (run.status.Running? <==> run.completed.None?)
    && (run.status.Running? <==> run.recorded.None?)
    && (run.status == Cancelled <==> run.cancelAcknowledged.Some?)
    && (run.cancelRequested.Some? ==> run.status in {Running, Cancelled})
  }

  ghost predicate Rows(s: Store) {
    forall r :: r in s.runs ==> RunOk(s.runs[r]) && r < s.nextRun
  }

  predicate Rivals(a: Run, b: Run) {
    a.methodId == b.methodId && a.status.Running? && b.status.Running?
  }

  ghost predicate OneActive(s: Store) {
    forall r, q :: r in s.runs && q in s.runs && Rivals(s.runs[r], s.runs[q]) ==> r == q
  }

  /** Every terminal run has exactly one ledger entry, with its status, and no other run has any. */
  ghost predicate Accounted(s: Store) {
    && (forall k :: 0 <= k < |s.ledger| ==> s.ledger[k].run in s.runs && !s.runs[s.ledger[k].run].status.Running?
                                            && s.ledger[k].status == s.runs[s.ledger[k].run].status)
    && (forall j, k :: 0 <= j < k < |s.ledger| ==> s.ledger[j].run != s.ledger[k].run)
    && (forall r :: r in s.runs && !s.runs[r].status.Running? ==> exists k :: 0 <= k < |s.ledger| && s.ledger[k].run == r)
  }

  ghost predicate Inv(s: Store) {
    Rows(s) && OneActive(s) && Accounted(s)
  }

  /** What no step may do: move a terminal row, forget a request, change an identity, or lose a row. */
  ghost predicate Kept(a: Run, b: Run) {
    && b.methodId == a.methodId && b.owner == a.owner
    && (!a.status.Running? ==> b == a)
    && (a.cancelRequested.Some? ==> b.cancelRequested.Some?)
  }

  ghost predicate Preserves(s: Store, t: Store) {
    && s.runs.Keys <= t.runs.Keys && s.ledger <= t.ledger && s.methods == t.methods
    && forall r :: r in s.runs ==> r in t.runs && Kept(s.runs[r], t.runs[r])
  }

  // ---------- the three things a step can do ----------

  ghost predicate Creates(s: Store, t: Store) {
    && s.nextRun in t.runs && t.runs == s.runs[s.nextRun := t.runs[s.nextRun]]
    && RunOk(t.runs[s.nextRun]) && t.runs[s.nextRun].status.Running?
    && ActiveRuns(s, t.runs[s.nextRun].methodId) == {}
    && t == s.(runs := t.runs, nextRun := s.nextRun + 1)
  }

  ghost predicate Touches(s: Store, t: Store, r: nat) {
    && r in s.runs && r in t.runs && s.runs[r].status.Running? && t.runs[r].status.Running?
    && t.runs == s.runs[r := t.runs[r]] && RunOk(t.runs[r]) && Kept(s.runs[r], t.runs[r])
    && t == s.(runs := t.runs)
  }

  ghost predicate Terminalizes(s: Store, t: Store, r: nat) {
    && r in s.runs && r in t.runs && s.runs[r].status.Running? && !t.runs[r].status.Running?
    && t.runs == s.runs[r := t.runs[r]] && RunOk(t.runs[r]) && Kept(s.runs[r], t.runs[r])
    && t == s.(runs := t.runs, ledger := s.ledger + [Entry(r, t.runs[r].status)])
  }

  lemma StartCreates(s: Store, op: Op)
    requires Rows(s) && op.OpStart?
    ensures Apply(s, op) == s || Creates(s, Apply(s, op))
  {
  }

  lemma RequestsTouch(s: Store, op: Op)
    requires Rows(s) && (op.OpRequestCancel? || op.OpHeartbeat?)
    ensures Apply(s, op) == s || Touches(s, Apply(s, op), op.run)
  {
  }

  lemma FinishTerminalizes(s: Store, r: nat, report: Report, ownerId: Option<string>, now: int)
    requires Rows(s) && !report.status.Running?
    ensures FinishAs(s, r, report, ownerId, now) == s || Terminalizes(s, FinishAs(s, r, report, ownerId, now), r)
  {
  }

  lemma AcknowledgeTerminalizes(s: Store, r: nat, report: Report, ownerId: string, now: int)
    requires Rows(s)
    ensures Acknowledge(s, r, report, ownerId, now) == s || Terminalizes(s, Acknowledge(s, r, report, ownerId, now), r)
  {
  }

  lemma RecoverTerminalizes(s: Store, r: nat, now: int, processes: map<int, string>, cleaned: bool)
    requires Rows(s)
    ensures RecoverRun(s, r, now, processes, cleaned) == s || Terminalizes(s, RecoverRun(s, r, now, processes, cleaned), r)
  {
  }

  lemma StepKind(s: Store, op: Op)
    requires Rows(s) && Proper(op)
    ensures var t := Apply(s, op);
            t == s || Creates(s, t) || (!op.OpStart? && (Touches(s, t, op.run) || Terminalizes(s, t, op.run)))
  {
    hide Creates, Touches, Terminalizes, Rows;
    match op
    case OpStart(_, _, _, _, _) => StartCreates(s, op);
    case OpRequestCancel(_, _) => RequestsTouch(s, op);
    case OpHeartbeat(_, _, _) => RequestsTouch(s, op);
    case OpFinish(r, rep, o, now) => FinishTerminalizes(s, r, rep, o, now);
    case OpAcknowledge(r, rep, o, now) => AcknowledgeTerminalizes(s, r, rep, o, now);
    case OpRecover(r, now, p, c) => RecoverTerminalizes(s, r, now, p, c);
  }

  // ---------- every step keeps the invariant ----------

  lemma CreatesKeeps(s: Store, t: Store)
    requires Inv(s) && Creates(s, t)
    ensures Inv(t) && Preserves(s, t)
  {
    var m := t.runs[s.nextRun].methodId;
    forall r | r in s.runs && s.runs[r].status.Running? ensures s.runs[r].methodId != m {
      assert r !in ActiveRuns(s, m);
    }
  }

  lemma TouchesKeeps(s: Store, t: Store, r: nat)
    requires Inv(s) && Touches(s, t, r)
    ensures Inv(t) && Preserves(s, t)
  {
  }

  lemma TerminalizesKeeps(s: Store, t: Store, r: nat)
    requires Inv(s) && Terminalizes(s, t, r)
    ensures Inv(t) && Preserves(s, t)
  {
    assert Accounted(t) by {
      assert forall k :: 0 <= k < |s.ledger| ==> s.ledger[k].run != r && t.ledger[k] == s.ledger[k];
      assert t.ledger[|s.ledger|].run == r;
      forall q | q in t.runs && !t.runs[q].status.Running?
        ensures exists k :: 0 <= k < |t.ledger| && t.ledger[k].run == q
      {
        if q != r {
          var k :| 0 <= k < |s.ledger| && s.ledger[k].run == q;
          assert t.ledger[k].run == q;
        }
      }
    }
  }

  lemma EmptyStoreIsOk(methods: set<nat>)
    ensures Inv(Store(methods, map[], 0, []))
  {
  }

  lemma InvStep(s: Store, op: Op)
    requires Inv(s) && Proper(op)
    ensures Inv(Apply(s, op)) && Preserves(s, Apply(s, op))
  {
    var t := Apply(s, op);
    StepKind(s, op);
    if t == s {
      PreservesSelf(s);
    } else {
      hide Creates, Touches, Terminalizes, Apply, Preserves;
      if Creates(s, t) {
        CreatesKeeps(s, t);
      } else if Touches(s, t, op.run) {
        TouchesKeeps(s, t, op.run);
      } else {
        TerminalizesKeeps(s, t, op.run);
      }
    }
  }

  lemma PreservesSelf(s: Store)
    ensures Preserves(s, s)
  {
  }

  lemma PreservesTransitive(s: Store, t: Store, u: Store)
    requires Preserves(s, t) && Preserves(t, u)
    ensures Preserves(s, u)
  {
  }

  /** Over every interleaving: the invariant holds, and nothing terminal, requested, owned or accounted is ever undone. */
  lemma {:induction false} InvAlways(s: Store, ops: seq<Op>)
    requires Inv(s) && AllProper(ops)
    ensures Inv(Exec(s, ops)) && Preserves(s, Exec(s, ops))
    decreases |ops|
  {
    hide Inv, Preserves;
    if ops == [] {
      PreservesSelf(s);
    } else {
      InvStep(s, ops[0]);
      InvAlways(Apply(s, ops[0]), ops[1..]);
      PreservesTransitive(s, Apply(s, ops[0]), Exec(s, ops));
    }
  }

  function TerminalRuns(s: Store): set<nat> {
    set r | r in s.runs && !s.runs[r].status.Running?
  }

  lemma {:induction false} DistinctRunsCount(ledger: seq<Entry>)
    requires forall j, k :: 0 <= j < k < |ledger| ==> ledger[j].run != ledger[k].run
    ensures |set k | 0 <= k < |ledger| :: ledger[k].run| == |ledger|
    decreases |ledger|
  {
    var all := set k | 0 <= k < |ledger| :: ledger[k].run;
    if ledger != [] {
      var n := |ledger| - 1;
      var rest := set k | 0 <= k < n :: ledger[..n][k].run;
      DistinctRunsCount(ledger[..n]);
      assert all == rest + {ledger[n].run};
    } else {
      assert all == {};
    }
  }

  /** From an empty store on, the ledger has as many entries as there are terminal runs, and no method two active ones. */
  lemma LedgerCountsTerminalRuns(methods: set<nat>, ops: seq<Op>, m: nat)
    requires AllProper(ops)
    ensures var t := Exec(Store(methods, map[], 0, []), ops);
            |t.ledger| == |TerminalRuns(t)| && |ActiveRuns(t, m)| <= 1
  {
    EmptyStoreIsOk(methods);
    InvAlways(Store(methods, map[], 0, []), ops);
    var t := Exec(Store(methods, map[], 0, []), ops);
    hide Exec, AllProper;
    DistinctRunsCount(t.ledger);
    assert TerminalRuns(t) == set k | 0 <= k < |t.ledger| :: t.ledger[k].run;
    if r :| r in ActiveRuns(t, m) {
      assert forall q :: q in ActiveRuns(t, m) ==> Rivals(t.runs[q], t.runs[r]);
      assert ActiveRuns(t, m) == {r};
    }
  }

  // ---------- the protocol's promises ----------

  /** A terminal run keeps its row unchanged for ever. */
  lemma TerminalIsFinal(s: Store, r: nat, ops: seq<Op>)
    requires Inv(s) && AllProper(ops) && r in s.runs && !s.runs[r].status.Running?
    ensures r in Exec(s, ops).runs && Exec(s, ops).runs[r] == s.runs[r]
  {
    InvAlways(s, ops);
  }

  /** Once a cancel request is persisted on a running run, the run can only stay running or end cancelled and acknowledged. */
  lemma CancelWins(s: Store, r: nat, ops: seq<Op>)
    requires Inv(s) && AllProper(ops) && r in s.runs && s.runs[r].cancelRequested.Some?
    ensures r in Exec(s, ops).runs && Exec(s, ops).runs[r].status in {Running, Cancelled}
    ensures Exec(s, ops).runs[r].status == Cancelled <==> Exec(s, ops).runs[r].cancelAcknowledged.Some?
  {
    InvAlways(s, ops);
  }

  /** The owner's own finish of a run with a pending request ends it cancelled at once, with the owner's counts. */
  lemma FinishAfterRequestCancels(s: Store, r: nat, report: Report, ownerId: string, now: int)
    requires MustAcknowledge(s, r, ownerId) && report.status != Cancelled && Rows(s)
    ensures FinishAs(s, r, report, Some(ownerId), now) == s
    ensures var t := Acknowledge(s, r, report, ownerId, now);
            && t.runs[r].status == Cancelled && t.runs[r].cancelAcknowledged == Some(now)
            && t.runs[r].discovered == report.discovered && t.runs[r].stored == report.stored
  {
  }

  /** The owner id that a call carries, if any. */
  function CallerOf(op: Op): Option<string> {
    match op
    case OpFinish(_, _, ownerId, _) => ownerId
    case OpAcknowledge(_, _, caller, _) => Some(caller)
    case OpHeartbeat(_, caller, _) => Some(caller)
    case _ => None
  }

  /** A call carrying another owner's id changes nothing. */
  lemma StaleOwnerIsFenced(s: Store, op: Op)
    requires CallerOf(op).Some? && (op.run in s.runs ==> !Owns(s.runs[op.run], CallerOf(op).value))
    ensures Apply(s, op) == s
  {
  }

  /** A call about a run of s by somebody who does not own it. */
  predicate IsStale(s: Store, op: Op) {
    CallerOf(op).Some? && op.run in s.runs && !Owns(s.runs[op.run], CallerOf(op).value)
  }

  function WithoutStale(s: Store, ops: seq<Op>): seq<Op> {
    if ops == [] then []
    else
      var last, rest := ops[|ops| - 1], WithoutStale(s, ops[..|ops| - 1]);
      if IsStale(s, last) then rest else rest + [last]
  }

  /**
   * Whoever owns the runs, their owners are fixed: all calls that others make about them can be struck out of any
   * interleaving, and the store ends the same.
   */
  lemma {:induction false} StaleCallsChangeNothing(s: Store, ops: seq<Op>)
    requires Inv(s) && AllProper(ops)
    ensures Exec(s, WithoutStale(s, ops)) == Exec(s, ops)
    decreases |ops|
  {
    hide Inv, Exec, Apply;
    if ops != [] {
      var last, rest := ops[|ops| - 1], ops[..|ops| - 1];
      StaleCallsChangeNothing(s, rest);
      assert ops == rest + [last];
      ExecSnoc(s, rest, last);
      if IsStale(s, last) {
        InvAlways(s, rest);
        StaleOwnerIsFenced(Exec(s, rest), last);
      } else {
        ExecSnoc(s, WithoutStale(s, rest), last);
      }
    }
  }

  /** The call is what makes the running row before it the terminal row after it. */
  ghost predicate Writes(op: Op, r: nat, before: Run, after: Run) {
    match op
    case OpFinish(q, report, ownerId, now) =>
      && q == r && (ownerId.Some? ==> Owns(before, ownerId.value))
      && (report.status != Cancelled ==> before.cancelRequested.None?)
      && Report(after.status, after.discovered, after.stored, after.error) == report && after.completed == Some(now)
    case OpAcknowledge(q, report, caller, now) =>
      && q == r && Owns(before, caller) && before.cancelRequested.Some? && after.status == Cancelled
      && after.discovered == report.discovered && after.stored == report.stored && after.completed == Some(now)
    case OpRecover(q, now, processes, _) =>
      && q == r && before.owner.Some? && !OwnerIsAlive(before, now, processes)
      && after.status == (if before.cancelRequested.Some? then Cancelled else Failed)
      && after.discovered == before.discovered && after.stored == before.stored && after.completed == Some(now)
    case _ => false
  }

  predicate IsTerminal(s: Store, r: nat) {
    r in s.runs && !s.runs[r].status.Running?
  }

  lemma FinishWrites(s: Store, r: nat, op: Op)
    requires op.OpFinish? && !op.report.status.Running? && !IsTerminal(s, r) && IsTerminal(Apply(s, op), r)
    ensures r in s.runs && Writes(op, r, s.runs[r], Apply(s, op).runs[r])
  {
  }

  lemma AcknowledgeWrites(s: Store, r: nat, op: Op)
    requires op.OpAcknowledge? && !IsTerminal(s, r) && IsTerminal(Apply(s, op), r)
    ensures r in s.runs && Writes(op, r, s.runs[r], Apply(s, op).runs[r])
  {
  }

  lemma RecoverWrites(s: Store, r: nat, op: Op)
    requires op.OpRecover? && !IsTerminal(s, r) && IsTerminal(Apply(s, op), r)
    ensures r in s.runs && Writes(op, r, s.runs[r], Apply(s, op).runs[r])
  {
  }

  lemma OthersEndNothing(s: Store, r: nat, op: Op)
    requires (op.OpStart? || op.OpRequestCancel? || op.OpHeartbeat?) && !IsTerminal(s, r)
    ensures !IsTerminal(Apply(s, op), r)
  {
  }

  lemma TerminalStays(s: Store, op: Op, r: nat)
    requires Inv(s) && Proper(op) && IsTerminal(s, r)
    ensures IsTerminal(Apply(s, op), r) && Apply(s, op).runs[r] == s.runs[r]
  {
    InvStep(s, op);
  }

  /** The k-th call ends run r. */
  ghost predicate Ends(s: Store, ops: seq<Op>, r: nat, k: nat)
    requires k < |ops|
  {
    !IsTerminal(Exec(s, ops[..k]), r) && IsTerminal(Exec(s, ops[..k + 1]), r)
  }

  /** The k-th call ends run r and writes the row that it has in the end. */
  ghost predicate IsAuthor(s: Store, ops: seq<Op>, r: nat, k: nat)
    requires k < |ops|
  {
    var before, after := Exec(s, ops[..k]), Exec(s, ops);
    && Ends(s, ops, r, k)
    && r in before.runs && r in after.runs && Writes(ops[k], r, before.runs[r], after.runs[r])
  }

  /**
   * A run that is terminal in the end and was not at first was ended by one call only, and its row is the one that this
   * call wrote: the report of a finish that it was open to, the counts of its owner's acknowledgement, or a recovery.
   */
  lemma TerminalRowHasOneAuthor(s: Store, ops: seq<Op>, r: nat)
    requires Inv(s) && AllProper(ops) && !IsTerminal(s, r) && IsTerminal(Exec(s, ops), r)
    ensures exists k: nat :: k < |ops| && IsAuthor(s, ops, r, k)
    ensures forall j: nat, k: nat :: j < |ops| && k < |ops| && Ends(s, ops, r, j) && Ends(s, ops, r, k) ==> j == k
  {
    hide Inv, Exec, IsTerminal, Writes;
    var k := FindAuthor(s, ops, r);
  }

  lemma {:induction false} FindAuthor(s: Store, ops: seq<Op>, r: nat) returns (k: nat)
    requires Inv(s) && AllProper(ops) && !IsTerminal(s, r) && IsTerminal(Exec(s, ops), r)
    ensures k < |ops| && IsAuthor(s, ops, r, k) && forall j: nat :: j < |ops| && Ends(s, ops, r, j) ==> j == k
    decreases |ops|
  {
    hide Inv, Apply, Writes;
    var last, rest := ops[|ops| - 1], ops[..|ops| - 1];
    var t := Exec(s, rest);
    assert ops == rest + [last] && ops[..|ops|] == ops;
    ExecSnoc(s, rest, last);
    InvAlways(s, rest);
    hide Exec;
    if IsTerminal(t, r) {
      hide IsTerminal;
      k := FindAuthor(s, rest, r);
      assert forall j: nat :: j <= |rest| ==> ops[..j] == rest[..j];
      TerminalStays(t, last, r);
      assert IsTerminal(t, r) && IsTerminal(Exec(s, rest), r);
      assert forall j: nat :: j < |rest| ==> (Ends(s, ops, r, j) <==> Ends(s, rest, r, j));
      assert !Ends(s, ops, r, |rest|);
      assert ops[k] == rest[k] && IsAuthor(s, ops, r, k);
    } else {
      hide IsTerminal;
      k := |rest|;
      match last {
        case OpFinish(_, _, _, _) => FinishWrites(t, r, last);
        case OpAcknowledge(_, _, _, _) => AcknowledgeWrites(t, r, last);
        case OpRecover(_, _, _, _) => RecoverWrites(t, r, last);
        case _ => OthersEndNothing(t, r, last);
      }
      forall j: nat | j < |rest| ensures !Ends(s, ops, r, j) {
        NotTerminalBefore(s, rest, r, j + 1);
        assert ops[..j + 1] == rest[..j + 1];
      }
    }
  }

  lemma NotTerminalBefore(s: Store, ops: seq<Op>, r: nat, n: nat)
    requires Inv(s) && AllProper(ops) && n <= |ops| && !IsTerminal(Exec(s, ops), r)
    ensures !IsTerminal(Exec(s, ops[..n]), r)
  {
    InvAlways(s, ops[..n]);
    ExecSplits(s, ops, n);
    if IsTerminal(Exec(s, ops[..n]), r) {
      TerminalIsFinal(Exec(s, ops[..n]), r, ops[n..]);
    }
  }

  /** Recovery never touches a run whose owner is alive, and settles every dead one it could clean up. */
  lemma RecoveryIsExact(s: Store, r: nat, now: int, processes: map<int, string>, cleaned: bool)
    requires Rows(s) && r in s.runs && s.runs[r].status.Running?
    ensures var t := RecoverRun(s, r, now, processes, cleaned);
            && (t.runs[r].status.Running? <==>
                s.runs[r].owner.None? || OwnerIsAlive(s.runs[r], now, processes) || s.runs[r].methodId !in s.methods
                || (s.runs[r].sandboxJob.Some? && !cleaned))
            && (!t.runs[r].status.Running? ==>
                  (t.runs[r].status == Cancelled <==> s.runs[r].cancelRequested.Some?)
                  && t.runs[r].status in {Cancelled, Failed} && t.runs[r].discovered == s.runs[r].discovered)
  {
  }

  /** A lease just renewed by a live process protects the run for as long as the lease lasts. */
  lemma HeartbeatProtects(s: Store, r: nat, ownerId: string, beat: int, now: int, processes: map<int, string>, cleaned: bool)
    requires r in s.runs && s.runs[r].status.Running? && Owns(s.runs[r], ownerId) && s.runs[r].owner.value.token != ""
    requires s.runs[r].owner.value.pid in processes
    requires processes[s.runs[r].owner.value.pid] == s.runs[r].owner.value.token
    ensures var t := Heartbeat(s, r, ownerId, beat);
            RecoverRun(t, r, now, processes, cleaned) == t <==>
            now <= beat + LEASE_SECONDS || (t.runs[r].sandboxJob.Some? && !cleaned) || t.runs[r].methodId !in s.methods
  {
    var t := Heartbeat(s, r, ownerId, beat);
    assert t.runs[r].heartbeat == Some(beat);
    if MustRecover(t, r, now, processes, cleaned) {
      assert RecoverRun(t, r, now, processes, cleaned).runs[r].status != Running;
    }
  }

  /** A start succeeds exactly for a known, current method with no active run; then that run is the only active one. */
  lemma StartIffFree(s: Store, m: nat, isCurrent: bool, owner: Option<Owner>, job: Option<string>, now: int)
    requires Inv(s)
    ensures StartOutcome(s, m, isCurrent).Started? <==>
            m in s.methods && isCurrent && forall r :: r in s.runs && s.runs[r].methodId == m ==> !s.runs[r].status.Running?
    ensures StartOutcome(s, m, isCurrent).Started? ==>
              ActiveRuns(Start(s, m, isCurrent, owner, job, now), m) == {s.nextRun}
    ensures !StartOutcome(s, m, isCurrent).Started? ==> Start(s, m, isCurrent, owner, job, now) == s
  {
    if exists r :: r in s.runs && s.runs[r].methodId == m && s.runs[r].status.Running? {
      var r :| r in s.runs && s.runs[r].methodId == m && s.runs[r].status.Running?;
      assert r in ActiveRuns(s, m);
    }
  }
}
