// The in-process registry of fetch jobs. Each section under the registry lock is one
// operation, and job numbers stand for object identity.
module FetchJobs {
  import opened Prelude

  datatype Kind = Process | Plugin
  datatype Phase = Unstarted | Live | Ended

  datatype Job = Job(methodId: nat, kind: Kind, phase: Phase)

  datatype State = State(jobs: map<nat, nat>, all: map<nat, Job>, next: nat)

  // OpLeave(j) is the first section of the runner of job j on its way out, OpFinish(j) all of it without interruption.
  // OpCancelRemove(j) and OpCancelDead(j) are by a canceller that looked job j up some time before.
  datatype Op =
    | OpRegister(methodId: nat, kind: Kind)
    | OpStart(job: nat)
    | OpEnd(job: nat)
    | OpLeave(job: nat)
    | OpFinish(job: nat)
    | OpCancelRemove(job: nat)
    | OpCancelDead(job: nat)

  function Registered(s: State, m: nat): Option<nat> {
    if m in s.jobs then Some(s.jobs[m]) else None
  }

  /** A plugin job registers only into an empty place; a process job takes the place whatever is in it by then. */
  function Register(s: State, m: nat, kind: Kind): State {
    if kind.Plugin? && m in s.jobs then s
    else State(s.jobs[m := s.next], s.all[s.next := Job(m, kind, if kind.Plugin? then Live else Unstarted)], s.next + 1)
  }

  function SetPhase(s: State, j: nat, phase: Phase): State {
    if j in s.all && !s.all[j].phase.Ended? then s.(all := s.all[j := s.all[j].(phase := phase)]) else s
  }

  /** Remove the entry only if it still is this job. */
  function RemoveOwn(s: State, j: nat): State {
    if j in s.all && Registered(s, s.all[j].methodId) == Some(j) then s.(jobs := s.jobs - {s.all[j].methodId}) else s
  }

  /** A plugin job leaves its place only once it is done; a process job may be abandoned while it still runs. */
  function Leave(s: State, j: nat): State {
    if j in s.all && (s.all[j].phase.Ended? || s.all[j].kind.Process?) then RemoveOwn(s, j) else s
  }

  /** The canceller found the process it looked up not alive, and clears the place whoever holds it by now. */
  function CancelDead(s: State, j: nat): State {
    if j in s.all && s.all[j].kind.Process? then s.(jobs := s.jobs - {s.all[j].methodId}) else s
  }

  /** A cancel of the method without interruption: it ends a live process, and clears the place of what it found there. */
  function CancelPlace(s: State, m: nat): State {
    if m !in s.jobs || s.jobs[m] !in s.all then s
    else
      var j := s.jobs[m];
      if s.all[j].kind.Plugin? then Leave(s, j)
      else if s.all[j].phase.Live? then RemoveOwn(SetPhase(s, j, Ended), j)
      else CancelDead(s, j)
  }

  /** The way out of a runner: it clears its own place and then, if its process still runs, cancels its method. */
  function Finish(s: State, j: nat): State {
    if j !in s.all || s.all[j].kind.Plugin? then Leave(s, j)
    else if s.all[j].phase.Live? then CancelPlace(RemoveOwn(s, j), s.all[j].methodId)
    else RemoveOwn(s, j)
  }

  function Apply(s: State, op: Op): State {
    match op
    case OpRegister(m, kind) => Register(s, m, kind)
    case OpStart(j) => SetPhase(s, j, Live)
    case OpEnd(j) => SetPhase(s, j, Ended)
    case OpLeave(j) => Leave(s, j)
    case OpFinish(j) => Finish(s, j)
    case OpCancelRemove(j) => Leave(s, j)
    case OpCancelDead(j) => CancelDead(s, j)
  }

  function Exec(s: State, ops: seq<Op>): State
    decreases |ops|
  {
    if ops == [] then s else Exec(Apply(s, ops[0]), ops[1..])
  }

  lemma {:induction false} ExecSnoc(s: State, ops: seq<Op>, op: Op)
    ensures Exec(s, ops + [op]) == Apply(Exec(s, ops), op)
    decreases |ops|
  {
    if ops == [] {
      assert ops + [op] == [op] && [op][1..] == [];
    } else {
      assert (ops + [op])[1..] == ops[1..] + [op];
      ExecSnoc(Apply(s, ops[0]), ops[1..], op);
    }
  }

  const EMPTY := State(map[], map[], 0)

  // ---------- methods run by plugins ----------

  /** Methods in plugins are only ever run as plugin jobs, the others only as processes. */
  predicate Sorted(op: Op, plugins: set<nat>) {
    op.OpRegister? ==> (op.kind.Plugin? <==> op.methodId in plugins)
  }

  predicate AllSorted(ops: seq<Op>, plugins: set<nat>) {
    forall k :: 0 <= k < |ops| ==> Sorted(ops[k], plugins)
  }

  predicate LivePlugin(s: State, j: nat) {
    j in s.all && s.all[j].kind.Plugin? && s.all[j].phase.Live?
  }

  ghost predicate Inv(s: State, plugins: set<nat>) {
    && (forall j :: j in s.all ==> j < s.next && (s.all[j].kind.Plugin? <==> s.all[j].methodId in plugins))
    && (forall j :: j in s.all && s.all[j].kind.Plugin? ==> !s.all[j].phase.Unstarted?)
    && (forall m :: m in s.jobs ==> s.jobs[m] in s.all && s.all[s.jobs[m]].methodId == m)
    && (forall j :: LivePlugin(s, j) ==> Registered(s, s.all[j].methodId) == Some(j))
  }

  lemma InvStep(s: State, plugins: set<nat>, op: Op)
    requires Inv(s, plugins) && Sorted(op, plugins)
    ensures Inv(Apply(s, op), plugins)
  {
    if op.OpFinish? {
      hide Register;
      FinishKeeps(s, plugins, op.job);
    }
  }

  lemma FinishKeeps(s: State, plugins: set<nat>, j: nat)
    requires Inv(s, plugins)
    ensures Inv(Finish(s, j), plugins)
  {
    if j in s.all && s.all[j].kind.Process? && s.all[j].phase.Live? {
      CancelPlaceKeeps(RemoveOwn(s, j), plugins, s.all[j].methodId);
    }
  }

  lemma CancelPlaceKeeps(s: State, plugins: set<nat>, m: nat)
    requires Inv(s, plugins)
    ensures Inv(CancelPlace(s, m), plugins)
  {
  }

  /**
   * Whatever registers, ends and cancels meanwhile, a plugin job that is not done holds its method's place: no finishing
   * or cancelled predecessor ever evicts it, and so a method has at most one live plugin job.
   */
  lemma {:induction false} LivePluginJobStaysRegistered(s: State, plugins: set<nat>, ops: seq<Op>)
    requires Inv(s, plugins) && AllSorted(ops, plugins)
    ensures Inv(Exec(s, ops), plugins)
    ensures var t := Exec(s, ops);
            && (forall j :: LivePlugin(t, j) ==> Registered(t, t.all[j].methodId) == Some(j))
            && (forall i, j :: LivePlugin(t, i) && LivePlugin(t, j) && t.all[i].methodId == t.all[j].methodId ==> i == j)
    decreases |ops|
  {
    if ops != [] {
      InvStep(s, plugins, ops[0]);
      LivePluginJobStaysRegistered(Apply(s, ops[0]), plugins, ops[1..]);
    }
  }

  lemma EmptyIsOk(plugins: set<nat>)
    ensures Inv(EMPTY, plugins) && WellPlaced(EMPTY) && UnendedHold(EMPTY)
  {
  }

  // ---------- who may clear a place ----------

  /**
   * A canceller that waited for the job it looked up, and a runner in its first section, clear at most that job's own
   * entry; and so does the whole way out of a runner whose process has ended or whose place nobody else has taken.
   */
  lemma OwnRemovalSparesOthers(s: State, op: Op, m: nat)
    requires op.OpLeave? || op.OpCancelRemove? || (op.OpFinish? && !FinishReachesOther(s, op.job))
    requires m in s.jobs
    ensures Registered(Apply(s, op), m) == Some(s.jobs[m]) || (Registered(Apply(s, op), m).None? && s.jobs[m] == op.job)
  {
  }

  /** The process of the job still runs, and its place is another's by now. */
  predicate FinishReachesOther(s: State, j: nat) {
    && j in s.all && s.all[j].kind.Process? && s.all[j].phase.Live?
    && s.all[j].methodId in s.jobs && s.jobs[s.all[j].methodId] != j
  }

  /**
   * A runner on its way out clears another job's entry exactly if its own process still runs and its place is another's by
   * then; that job's process is ended, and its own never is, since its own entry was cleared before.
   */
  lemma FinishEvictsIff(s: State, plugins: set<nat>, j: nat)
    requires Inv(s, plugins) && j in s.all
    ensures var t := Finish(s, j);
            && ((exists m :: m in s.jobs && s.jobs[m] != j && m !in t.jobs) <==> FinishReachesOther(s, j))
            && (FinishReachesOther(s, j) ==>
                  !LiveJob(t, s.jobs[s.all[j].methodId]) && s.all[j].methodId !in t.jobs)
            && t.all[j] == s.all[j]
  {
  }

  predicate LiveJob(s: State, j: nat) {
    j in s.all && s.all[j].phase.Live?
  }

  /** A cancel that could not end its process frees the place for a successor, which the late finish then ends. */
  lemma FinishEvictsSuccessor()
    ensures var ops := [OpRegister(7, Process), OpStart(0), OpCancelRemove(0), OpRegister(7, Process), OpStart(1)];
            var s := Exec(EMPTY, ops);
            && LiveJob(s, 0) && LiveJob(s, 1) && Registered(s, 7) == Some(1)
            && Registered(Finish(s, 0), 7).None? && !LiveJob(Finish(s, 0), 1) && LiveJob(Finish(s, 0), 0)
  {
    var ops := [OpRegister(7, Process), OpStart(0), OpCancelRemove(0), OpRegister(7, Process), OpStart(1)];
    var s2 := SetPhase(Register(EMPTY, 7, Process), 0, Live);
    var s3 := Leave(s2, 0);
    assert s3.jobs == map[];
    var s4 := Register(s3, 7, Process);
    assert ops[1..][1..] == [OpCancelRemove(0), OpRegister(7, Process), OpStart(1)];
    assert Exec(EMPTY, ops) == Exec(s2, ops[1..][1..]);
    assert ops[1..][1..][1..] == [OpRegister(7, Process), OpStart(1)];
    assert Exec(s2, ops[1..][1..]) == Exec(s3, ops[1..][1..][1..]);
    assert ops[1..][1..][1..][1..] == [OpStart(1)];
    assert Exec(s4, [OpStart(1)]) == SetPhase(s4, 1, Live);
  }

  /** The not-alive branch clears another job's entry exactly when the place changed hands since the lookup. */
  lemma DeadBranchEvictsIff(s: State, j: nat)
    requires j in s.all && s.all[j].kind.Process?
    ensures (exists m :: m in s.jobs && m !in CancelDead(s, j).jobs && s.jobs[m] != j) <==>
            (s.all[j].methodId in s.jobs && s.jobs[s.all[j].methodId] != j)
  {
  }

  /** So a cancel that looked up an exited process can evict its live successor. */
  lemma DeadBranchEvictsSuccessor()
    ensures var s := Exec(EMPTY, [OpRegister(7, Process), OpEnd(0), OpRegister(7, Process), OpStart(1)]);
            && s.all[1].phase.Live? && Registered(s, 7) == Some(1) && Registered(CancelDead(s, 0), 7).None?
  {
    var ops := [OpRegister(7, Process), OpEnd(0), OpRegister(7, Process), OpStart(1)];
    var s2 := SetPhase(Register(EMPTY, 7, Process), 0, Ended);
    var s3 := Register(s2, 7, Process);
    assert ops[1..][1..] == [OpRegister(7, Process), OpStart(1)];
    assert Exec(EMPTY, ops) == Exec(s2, ops[1..][1..]);
    assert ops[1..][1..][1..] == [OpStart(1)];
    assert Exec(s3, [OpStart(1)]) == SetPhase(s3, 1, Live);
  }

  // ---------- methods run by processes ----------

  predicate Unended(s: State, j: nat) {
    j in s.all && !s.all[j].phase.Ended?
  }

  /** The step keeps to the job it is about: nobody leaves, or is replaced or cleared away, before it has ended. */
  predicate Orderly(s: State, op: Op) {
    match op
    case OpRegister(m, kind) => kind.Process? && m in s.jobs ==> !Unended(s, s.jobs[m])
    case OpLeave(j) => !Unended(s, j)
    case OpFinish(j) => !Unended(s, j)
    case OpCancelRemove(j) => !Unended(s, j)
    case OpCancelDead(j) =>
      j in s.all && s.all[j].methodId in s.jobs ==> !Unended(s, s.jobs[s.all[j].methodId])
    case _ => true
  }

  ghost predicate OrderlyRun(s: State, ops: seq<Op>)
    decreases |ops|
  {
    ops == [] || (Orderly(s, ops[0]) && OrderlyRun(Apply(s, ops[0]), ops[1..]))
  }

  ghost predicate UnendedHold(s: State) {
    && (forall j :: j in s.all ==> j < s.next)
    && (forall j :: Unended(s, j) ==> Registered(s, s.all[j].methodId) == Some(j))
  }

  lemma OrderlyStep(s: State, op: Op)
    requires UnendedHold(s) && Orderly(s, op)
    ensures UnendedHold(Apply(s, op))
  {
  }

  /**
   * In a run in which no job leaves, and none is replaced or cleared away, before it has ended, every job that has not
   * ended, of either kind, holds its method's place at every moment, so that a method has at most one.
   */
  lemma {:induction false} UnendedJobsStayRegistered(s: State, ops: seq<Op>)
    requires UnendedHold(s) && OrderlyRun(s, ops)
    ensures UnendedHold(Exec(s, ops))
    ensures var t := Exec(s, ops);
            forall i, j :: Unended(t, i) && Unended(t, j) && t.all[i].methodId == t.all[j].methodId ==> i == j
    decreases |ops|
  {
    if ops != [] {
      OrderlyStep(s, ops[0]);
      UnendedJobsStayRegistered(Apply(s, ops[0]), ops[1..]);
    }
  }

  /** The steps that take the place from process job j, which holds it. */
  predicate Displaces(s: State, op: Op, j: nat)
    requires j in s.all
  {
    var m := s.all[j].methodId;
    match op
    case OpRegister(n, kind) => n == m && kind.Process?
    case OpLeave(i) => i == j
    case OpFinish(i) => i == j || (FinishReachesOther(s, i) && s.all[i].methodId == m)
    case OpCancelRemove(i) => i == j
    case OpCancelDead(i) => i in s.all && s.all[i].kind.Process? && s.all[i].methodId == m
    case _ => false
  }

  ghost predicate Undisplaced(s: State, ops: seq<Op>, j: nat)
    decreases |ops|
  {
    j in s.all && (ops == [] || (!Displaces(s, ops[0], j) && Undisplaced(Apply(s, ops[0]), ops[1..], j)))
  }

  ghost predicate HoldsThroughRun(s: State, ops: seq<Op>, j: nat)
    decreases |ops|
  {
    && j in s.all && Registered(s, s.all[j].methodId) == Some(j)
    && (ops == [] || HoldsThroughRun(Apply(s, ops[0]), ops[1..], j))
  }

  /** Numbers are given out in order, and a place is only ever taken by a job of its own method. */
  ghost predicate WellPlaced(s: State) {
    && (forall j :: j in s.all ==> j < s.next)
    && (forall m :: m in s.jobs ==> s.jobs[m] in s.all && s.all[s.jobs[m]].methodId == m)
  }

  lemma WellPlacedStep(s: State, op: Op)
    requires WellPlaced(s)
    ensures WellPlaced(Apply(s, op))
  {
  }

  lemma DisplacedStep(s: State, op: Op, j: nat)
    requires WellPlaced(s) && j in s.all && s.all[j].kind.Process? && Registered(s, s.all[j].methodId) == Some(j)
    ensures var t := Apply(s, op);
            && j in t.all && t.all[j].kind.Process? && t.all[j].methodId == s.all[j].methodId
            && (Registered(t, s.all[j].methodId) == Some(j) <==> !Displaces(s, op, j))
  {
  }

  /**
   * Over any run a process job keeps its place at every moment exactly if there is no step that registers a process in it,
   * is a removal of the job itself, clears it on behalf of a canceller that found a process not alive, or is the way out of
   * another job of the method whose process still runs.
   */
  lemma {:induction false} ProcessHoldsIff(s: State, ops: seq<Op>, j: nat)
    requires WellPlaced(s) && j in s.all && s.all[j].kind.Process? && Registered(s, s.all[j].methodId) == Some(j)
    ensures HoldsThroughRun(s, ops, j) <==> Undisplaced(s, ops, j)
    decreases |ops|
  {
    if ops != [] {
      WellPlacedStep(s, ops[0]);
      DisplacedStep(s, ops[0], j);
      if !Displaces(s, ops[0], j) {
        ProcessHoldsIff(Apply(s, ops[0]), ops[1..], j);
      }
    }
  }

  // ---------- the registry object ----------

  /** Only the runner of job j ends it; nobody registers under a number that was not given out. */
  predicate LeavesRunning(ops: seq<Op>, j: nat) {
    forall k :: 0 <= k < |ops| ==> ops[k] != OpEnd(j)
  }

  lemma RunningStep(s: State, plugins: set<nat>, op: Op, j: nat)
    requires Inv(s, plugins) && LivePlugin(s, j) && op != OpEnd(j)
    ensures j in Apply(s, op).all && Apply(s, op).all[j] == s.all[j]
  {
  }

  lemma {:induction false} RunningHoldsItsPlace(s: State, plugins: set<nat>, ops: seq<Op>, j: nat, k: nat)
    requires Inv(s, plugins) && AllSorted(ops, plugins) && LeavesRunning(ops, j) && LivePlugin(s, j) && k <= |ops|
    ensures var t := Exec(s, ops[..k]);
            Inv(t, plugins) && LivePlugin(t, j) && t.all[j] == s.all[j] && Registered(t, s.all[j].methodId) == Some(j)
    decreases k
  {
    hide Apply;
    if k == 0 {
      assert ops[..0] == [];
    } else {
      RunningHoldsItsPlace(s, plugins, ops, j, k - 1);
      var t := Exec(s, ops[..k - 1]);
      assert ops[..k] == ops[..k - 1] + [ops[k - 1]];
      ExecSnoc(s, ops[..k - 1], ops[k - 1]);
      InvStep(t, plugins, ops[k - 1]);
      RunningStep(t, plugins, ops[k - 1], j);
    }
  }

  /** At every moment of the gap the job numbered next, registered first, holds the place of m. */
  ghost predicate HeldThroughout(s: State, m: nat, gap: seq<Op>) {
    forall k :: 0 <= k <= |gap| ==> Registered(Exec(Register(s, m, Plugin), gap[..k]), m) == Some(s.next)
  }

  function PluginRunEnd(s: State, m: nat, gap: seq<Op>): State {
    Leave(SetPhase(Exec(Register(s, m, Plugin), gap), s.next, Ended), s.next)
  }

  lemma PluginRunHoldsThenFrees(s: State, m: nat, gap: seq<Op>, plugins: set<nat>)
    requires Inv(s, plugins) && m in plugins && m !in s.jobs && AllSorted(gap, plugins) && LeavesRunning(gap, s.next)
    ensures HeldThroughout(s, m, gap)
    ensures var t := Exec(Register(s, m, Plugin), gap);
            && LivePlugin(t, s.next) && t.all[s.next].methodId == m && Registered(t, m) == Some(s.next)
            && Inv(PluginRunEnd(s, m, gap), plugins) && m !in PluginRunEnd(s, m, gap).jobs
  {
    hide Inv, Exec, AllSorted, LeavesRunning;
    var r := Register(s, m, Plugin);
    InvStep(s, plugins, OpRegister(m, Plugin));
    forall k | 0 <= k <= |gap| ensures Registered(Exec(r, gap[..k]), m) == Some(s.next) {
      RunningHoldsItsPlace(r, plugins, gap, s.next, k);
    }
    assert gap[..|gap|] == gap;
    RunningHoldsItsPlace(r, plugins, gap, s.next, |gap|);
    InvStep(Exec(r, gap), plugins, OpEnd(s.next));
    InvStep(SetPhase(Exec(r, gap), s.next, Ended), plugins, OpLeave(s.next));
  }

  /** What a cancel that looked up job j, alive or not by then, leaves once the others have reached t. */
  function CancelEnd(t: State, j: nat, alive: bool): State
    requires j in t.all
  {
    if t.all[j].kind.Plugin? || alive then Leave(t, j) else CancelDead(t, j)
  }

  // What a cancel of the method comes to, and whether it reports success: the others run between the lookup and the check
  // whether the process is alive, and between the check and the removal.
  function CancelRun(s: State, m: nat, looked: seq<Op>, checked: seq<Op>): (State, bool) {
    if m !in s.jobs then (s, false)
    else
      var j, read := s.jobs[m], Exec(s, looked);
      var after := Exec(read, checked);
      if j !in after.all then (after, false)
      else if after.all[j].kind.Plugin? then (Leave(after, j), after.all[j].phase.Ended?)
      else (CancelEnd(after, j, LiveJob(read, j)), LiveJob(read, j))
  }

  // The way out of the runner of process job j, with the others between its own removal and the check of its process.
  function FinishRun(s: State, j: nat, left: seq<Op>, looked: seq<Op>, checked: seq<Op>): State
    requires j in s.all
  {
    var t := Exec(RemoveOwn(s, j), left);
    if LiveJob(t, j) then CancelRun(t, s.all[j].methodId, looked, checked).0 else t
  }

  /** Without the others a runner's way out is the operation: the cancel ends the live process that it finds, if any. */
  lemma FinishIsUninterrupted(s: State, plugins: set<nat>, j: nat)
    requires Inv(s, plugins) && j in s.all && s.all[j].kind.Process?
    ensures var m := s.all[j].methodId;
            var kill := if m in s.jobs && LiveJob(s, s.jobs[m]) then [OpEnd(s.jobs[m])] else [];
            FinishRun(s, j, [], [], kill) == Finish(s, j)
  {
    var m := s.all[j].methodId;
    if m in s.jobs && LiveJob(s, s.jobs[m]) {
      assert [OpEnd(s.jobs[m])][1..] == [];
      assert Exec(s, [OpEnd(s.jobs[m])]) == SetPhase(s, s.jobs[m], Ended);
    }
  }

  lemma CancelKeepsInv(s: State, m: nat, looked: seq<Op>, checked: seq<Op>, plugins: set<nat>)
    requires Inv(s, plugins) && m in s.jobs && AllSorted(looked, plugins) && AllSorted(checked, plugins)
    ensures var j, read := s.jobs[m], Exec(s, looked);
            var t := Exec(read, checked);
            && j in s.all && j in read.all && j in t.all && t.all[j].methodId == m
            && t.all[j].kind == read.all[j].kind == s.all[j].kind
            && Inv(t, plugins) && Inv(Leave(t, j), plugins) && Inv(CancelDead(t, j), plugins)
            && Inv(CancelRun(s, m, looked, checked).0, plugins)
  {
    hide Exec, AllSorted, Leave, CancelDead;
    var j, read := s.jobs[m], Exec(s, looked);
    LivePluginJobStaysRegistered(s, plugins, looked);
    JobsKeepTheirMethod(s, looked, j);
    LivePluginJobStaysRegistered(read, plugins, checked);
    JobsKeepTheirMethod(read, checked, j);
    var t := Exec(read, checked);
    assert Inv(Leave(t, j), plugins) by { InvStep(t, plugins, OpCancelRemove(j)); }
    assert Inv(CancelDead(t, j), plugins) by { InvStep(t, plugins, OpCancelDead(j)); }
  }

  class FetchJobRegistry {
    var jobs: map<nat, nat>
    var all: map<nat, Job>
    var next: nat

    ghost function View(): State
      reads this
    {
      State(jobs, all, next)
    }

    constructor ()
      ensures View() == EMPTY
    {
      jobs, all, next := map[], map[], 0;
    }

    /** What the other threads do between two sections under the lock. */
    method Interfere(ops: seq<Op>)
      modifies this
      ensures View() == Exec(old(View()), ops)
    {
      var s := Exec(State(jobs, all, next), ops);
      jobs, all, next := s.jobs, s.all, s.next;
    }

    method RemoveIfOwn(m: nat, j: nat)
      modifies this`jobs
      ensures jobs == if Registered(old(View()), m) == Some(j) then old(jobs) - {m} else old(jobs)
    {
      if m in jobs && jobs[m] == j {
        jobs := jobs - {m};
      }
    }

    /**
     * A plugin fetch is refused while the place is taken or its formal run cannot be created; otherwise its job holds the
     * place at every moment until it is done, whatever the others do meanwhile, and the place is free on return.
     */
    method RunPluginFetch(m: nat, runCreated: bool, gap: seq<Op>, ghost plugins: set<nat>) returns (ok: bool)
      requires Inv(View(), plugins) && m in plugins && AllSorted(gap, plugins) && LeavesRunning(gap, next)
      modifies this
      ensures Inv(View(), plugins)
      ensures ok == (m !in old(jobs) && runCreated)
      ensures !ok ==> View() == old(View())
      ensures ok ==> HeldThroughout(old(View()), m, gap)
      ensures ok ==> View() == PluginRunEnd(old(View()), m, gap) && m !in jobs
    {
      hide Inv, Exec, HeldThroughout, AllSorted, LeavesRunning;
      if m in jobs {
        return false;
      }
      if !runCreated {
        return false;
      }
      PluginRunHoldsThenFrees(View(), m, gap, plugins);
      var job := next;
      jobs, all, next := jobs[m := job], all[job := Job(m, Plugin, Live)], next + 1;
      Interfere(gap);
      all := all[job := all[job].(phase := Ended)];
      RemoveIfOwn(m, job);
      return true;
    }

    /**
     * A cancel leaves the registry as one of its two removals after the others' steps would: of the job it looked up
     * only, or, for a process found not alive when it checks, of whatever holds the place by then. It reports success only
     * in the first case, and for a plugin job only once that is done.
     */
    method CancelFetchJob(m: nat, looked: seq<Op>, checked: seq<Op>, ghost plugins: set<nat>) returns (killed: bool)
      requires Inv(View(), plugins) && AllSorted(looked, plugins) && AllSorted(checked, plugins)
      modifies this
      ensures Inv(View(), plugins)
      ensures (View(), killed) == CancelRun(old(View()), m, looked, checked)
    {
      hide Inv, Exec, AllSorted;
      if m !in jobs {
        return false;
      }
      CancelKeepsInv(View(), m, looked, checked, plugins);
      var job := jobs[m];
      Interfere(looked);
      var kind, alive := all[job].kind, all[job].phase.Live?;
      Interfere(checked);
      if kind.Plugin? {
        if !all[job].phase.Ended? {
          return false;
        }
        RemoveIfOwn(m, job);
        return true;
      }
      if !alive {
        jobs := jobs - {m};
        return false;
      }
      RemoveIfOwn(m, job);
      return true;
    }

    /** The way out of the runner of a process job: its own entry first, then a cancel if its process still runs. */
    method FinishProcessFetch(j: nat, left: seq<Op>, looked: seq<Op>, checked: seq<Op>, ghost plugins: set<nat>)
      requires Inv(View(), plugins) && j in all && all[j].kind.Process?
      requires AllSorted(left, plugins) && AllSorted(looked, plugins) && AllSorted(checked, plugins)
      modifies this
      ensures Inv(View(), plugins) && View() == FinishRun(old(View()), j, left, looked, checked)
    {
      FirstSectionKeepsInv(View(), j, left, plugins);
      hide Inv, Exec, AllSorted, CancelRun;
      var m := all[j].methodId;
      RemoveIfOwn(m, j);
      Interfere(left);
      if all[j].phase.Live? {
        var _ := CancelFetchJob(m, looked, checked, plugins);
      }
    }
  }

  lemma FirstSectionKeepsInv(s: State, j: nat, left: seq<Op>, plugins: set<nat>)
    requires Inv(s, plugins) && j in s.all && s.all[j].kind.Process? && AllSorted(left, plugins)
    ensures var t := Exec(RemoveOwn(s, j), left); Inv(t, plugins) && j in t.all
  {
    InvStep(s, plugins, OpLeave(j));
    LivePluginJobStaysRegistered(RemoveOwn(s, j), plugins, left);
    JobsKeepTheirMethod(RemoveOwn(s, j), left, j);
  }

  lemma {:induction false} JobsKeepTheirMethod(s: State, ops: seq<Op>, j: nat)
    requires j in s.all && j < s.next
    ensures var t := Exec(s, ops);
            j in t.all && j < t.next && t.all[j].methodId == s.all[j].methodId && t.all[j].kind == s.all[j].kind
    decreases |ops|
  {
    if ops != [] {
      JobsKeepTheirMethod(Apply(s, ops[0]), ops[1..], j);
    }
  }
}
