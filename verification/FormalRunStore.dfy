// The formal-run operations as they work on the table: statements that update rows in
// place, with whatever other processes commit between them.
module FormalRunStore {
  import opened Prelude
  import opened FormalRuns

  // What happens outside one recovery pass: the commits of others before each candidate,
  // the clock and the process table when it is examined, and whether its sandbox was cleaned.
  datatype World = World(
    gap: nat -> seq<Op>,
    clock: nat -> int,
    processes: nat -> map<int, string>,
    cleaned: nat -> bool)

  /** The table when candidate k is examined, and whether that candidate is then settled. */
  function Examined(s: Store, w: World, k: nat): Store {
    Exec(s, w.gap(k))
  }

  predicate Settles(s: Store, c: nat, w: World, k: nat) {
    MustRecover(Examined(s, w, k), c, w.clock(k), w.processes(k), w.cleaned(k))
  }

  function RecoverNext(s: Store, c: nat, w: World, k: nat): Store {
    RecoverRun(Examined(s, w, k), c, w.clock(k), w.processes(k), w.cleaned(k))
  }

  /** Candidates in order, each examined after what the others commit before it. */
  function RecoverAll(s: Store, candidates: seq<nat>, w: World, k: nat): Store
    requires k <= |candidates|
    decreases |candidates| - k
  {
    if k == |candidates| then s else RecoverAll(RecoverNext(s, candidates[k], w, k), candidates, w, k + 1)
  }

  function RecoveredCount(s: Store, candidates: seq<nat>, w: World, k: nat): nat
    requires k <= |candidates|
    decreases |candidates| - k
  {
    if k == |candidates| then 0
    else (if Settles(s, candidates[k], w, k) then 1 else 0)
         + RecoveredCount(RecoverNext(s, candidates[k], w, k), candidates, w, k + 1)
  }

  /** The runs a recovery pass looks at: running and owned when it starts, or the one it was asked for. */
  function Candidates(s: Store, only: Option<nat>): set<nat> {
    set r | r in s.runs && s.runs[r].status.Running? && s.runs[r].owner.Some? && (only.Some? ==> r == only.value)
  }

  ghost predicate ProperWorld(w: World) {
    forall k: nat, n: nat :: n < |w.gap(k)| ==> Proper(w.gap(k)[n])
  }

  lemma RecoverNextKeeps(s: Store, c: nat, w: World, k: nat)
    requires Inv(s) && ProperWorld(w)
    ensures Inv(RecoverNext(s, c, w, k)) && Preserves(s, RecoverNext(s, c, w, k))
  {
    hide Inv, Preserves, Exec, RecoverRun;
    assert AllProper(w.gap(k));
    InvAlways(s, w.gap(k));
    InvStep(Examined(s, w, k), OpRecover(c, w.clock(k), w.processes(k), w.cleaned(k)));
    PreservesTransitive(s, Examined(s, w, k), RecoverNext(s, c, w, k));
  }

  /** A recovery pass is one more interleaving: it keeps the invariant and undoes nothing. */
  lemma {:induction false} RecoverAllKeeps(s: Store, candidates: seq<nat>, w: World, k: nat)
    requires Inv(s) && ProperWorld(w) && k <= |candidates|
    ensures Inv(RecoverAll(s, candidates, w, k)) && Preserves(s, RecoverAll(s, candidates, w, k))
    decreases |candidates| - k
  {
    hide Inv, Preserves, RecoverNext, ProperWorld;
    if k == |candidates| {
      PreservesSelf(s);
    } else {
      RecoverNextKeeps(s, candidates[k], w, k);
      RecoverAllKeeps(RecoverNext(s, candidates[k], w, k), candidates, w, k + 1);
      PreservesTransitive(s, RecoverNext(s, candidates[k], w, k), RecoverAll(s, candidates, w, k));
    }
  }

  /** The answer of the candidate query: those runs, in id order. */
  ghost predicate IsListing(ids: seq<nat>, of: set<nat>) {
    && (forall i, j :: 0 <= i < j < |ids| ==> ids[i] < ids[j])
    && (forall r :: r in of <==> r in ids)
  }

  predicate DeadAndClean(run: Run, s: Store, w: World, k: nat) {
    !OwnerIsAlive(run, w.clock(k), w.processes(k)) && run.methodId in s.methods && (run.sandboxJob.Some? ==> w.cleaned(k))
  }

  /** After the pass: candidate j runs on iff it was alive or could not be cleaned up; the rest is as before. */
  ghost predicate Converged(s: Store, t: Store, candidates: seq<nat>, w: World, k: nat)
    requires k <= |candidates|
  {
    && t.runs.Keys == s.runs.Keys
    && (forall j :: k <= j < |candidates| && candidates[j] in s.runs ==>
          (t.runs[candidates[j]].status.Running? <==> !DeadAndClean(s.runs[candidates[j]], s, w, j)))
    && (forall r :: r in s.runs && r !in candidates[k..] ==> t.runs[r] == s.runs[r])
  }

  lemma ConvergedStep(s: Store, after: Store, t: Store, candidates: seq<nat>, w: World, k: nat)
    requires k < |candidates| && (forall i, j :: 0 <= i < j < |candidates| ==> candidates[i] < candidates[j])
    requires var c := candidates[k];
             && after.runs.Keys == s.runs.Keys && after.methods == s.methods && c in s.runs
             && (forall r :: r in s.runs && r != c ==> after.runs[r] == s.runs[r])
             && (after.runs[c].status.Running? <==> !DeadAndClean(s.runs[c], s, w, k))
    requires Converged(after, t, candidates, w, k + 1)
    ensures Converged(s, t, candidates, w, k)
  {
    var c := candidates[k];
    assert candidates[k..] == [c] + candidates[k + 1..];
    assert c !in candidates[k + 1..];
    assert t.runs[c] == after.runs[c];
  }

  lemma RecoverOneSettles(s: Store, c: nat, w: World, k: nat)
    requires Rows(s) && c in Candidates(s, None) && w.gap(k) == []
    ensures SettledOne(s, RecoverNext(s, c, w, k), c, w, k)
  {
    RecoverTerminalizes(s, c, w.clock(k), w.processes(k), w.cleaned(k));
    RecoveryIsExact(s, c, w.clock(k), w.processes(k), w.cleaned(k));
  }

  /** One candidate is settled iff it was dead and clean; everything else is untouched; the ledger grows by what was settled. */
  ghost predicate SettledOne(s: Store, t: Store, c: nat, w: World, k: nat)
    requires c in s.runs
  {
    && t.runs.Keys == s.runs.Keys && t.methods == s.methods
    && (forall r :: r in s.runs && r != c ==> t.runs[r] == s.runs[r])
    && (t.runs[c].status.Running? <==> !DeadAndClean(s.runs[c], s, w, k))
    && |t.ledger| == |s.ledger| + if Settles(s, c, w, k) then 1 else 0
  }

  lemma RecoverNextQuiet(s: Store, c: nat, w: World, k: nat)
    requires w.gap(k) == []
    ensures RecoverNext(s, c, w, k) == Apply(s, OpRecover(c, w.clock(k), w.processes(k), w.cleaned(k)))
  {
  }

  ghost predicate StillListed(s: Store, candidates: seq<nat>, k: nat)
    requires k <= |candidates|
  {
    && (forall i, j :: 0 <= i < j < |candidates| ==> candidates[i] < candidates[j])
    && (forall j :: k <= j < |candidates| ==> candidates[j] in Candidates(s, None))
  }

  lemma StillListedStep(s: Store, t: Store, candidates: seq<nat>, k: nat)
    requires k < |candidates| && StillListed(s, candidates, k)
    requires t.runs.Keys == s.runs.Keys && forall r :: r in s.runs && r != candidates[k] ==> t.runs[r] == s.runs[r]
    ensures StillListed(t, candidates, k + 1)
  {
    forall j | k + 1 <= j < |candidates| ensures candidates[j] in Candidates(t, None) {
      assert candidates[j] in Candidates(s, None) && candidates[j] != candidates[k];
    }
  }

  /** With nobody else at work, a pass settles each dead candidate it could clean up, and counts exactly those. */
  lemma {:induction false} QuietRecoveryConverges(s: Store, candidates: seq<nat>, w: World, k: nat)
    requires Inv(s) && (forall n: nat :: w.gap(n) == []) && k <= |candidates| && StillListed(s, candidates, k)
    ensures Converged(s, RecoverAll(s, candidates, w, k), candidates, w, k)
    ensures |RecoverAll(s, candidates, w, k).ledger| == |s.ledger| + RecoveredCount(s, candidates, w, k)
    decreases |candidates| - k
  {
    if k < |candidates| {
      var c := candidates[k];
      assert c in Candidates(s, None);
      RecoverOneSettles(s, c, w, k);
      hide Inv, Apply, RecoverNext, Settles, Converged, DeadAndClean, StillListed;
      var after := RecoverNext(s, c, w, k);
      InvStep(s, OpRecover(c, w.clock(k), w.processes(k), w.cleaned(k)));
      RecoverNextQuiet(s, c, w, k);
      StillListedStep(s, after, candidates, k);
      QuietRecoveryConverges(after, candidates, w, k + 1);
      AscendingIds(s, candidates, k);
      ConvergedStep(s, after, RecoverAll(after, candidates, w, k + 1), candidates, w, k);
    }
  }

  lemma AscendingIds(s: Store, candidates: seq<nat>, k: nat)
    requires k <= |candidates| && StillListed(s, candidates, k)
    ensures forall i, j :: 0 <= i < j < |candidates| ==> candidates[i] < candidates[j]
  {
  }

  // What the owner's watcher meets: how many polls before it is stopped, what others commit
  // before each, whether a heartbeat is due, the clock, and whether the local event is set.
  datatype Watch = Watch(
    polls: nat,
    gap: nat -> seq<Op>,
    due: nat -> bool,
    clock: nat -> int,
    event: nat -> bool)

  ghost predicate ProperWatch(w: Watch) {
    forall k: nat, n: nat :: n < |w.gap(k)| ==> Proper(w.gap(k)[n])
  }

  /** The run still is this owner's to work on. */
  predicate Held(s: Store, run: nat, ownerId: string) {
    run in s.runs && s.runs[run].status.Running? && Owns(s.runs[run], ownerId)
  }

  predicate Requested(s: Store, run: nat) {
    run in s.runs && s.runs[run].status.Running? && s.runs[run].cancelRequested.Some?
  }

  /** Why a watcher may cancel after k polls. */
  ghost predicate Reason(s: Store, run: nat, ownerId: string, w: Watch, k: nat) {
    (exists i: nat :: i < k && w.event(i)) || !Held(s, run, ownerId) || Requested(s, run)
  }

  lemma ReasonStays(s: Store, t: Store, run: nat, ownerId: string, w: Watch, k: nat)
    requires Preserves(s, t) && run in s.runs
    ensures Reason(s, run, ownerId, w, k) || w.event(k) || !Held(t, run, ownerId) || Requested(t, run) ==>
              Reason(t, run, ownerId, w, k + 1)
  {
    LossIsPermanent(s, t, run, ownerId);
  }

  lemma ReasonIsReal(s: Store, run: nat, ownerId: string, w: Watch, k: nat)
    requires k <= w.polls
    ensures Reason(s, run, ownerId, w, k) ==>
              (exists i :: 0 <= i < w.polls && w.event(i)) || !Held(s, run, ownerId) || Requested(s, run)
  {
  }

  /** A lost run stays lost, and a requested one stays requested until it is lost. */
  lemma LossIsPermanent(s: Store, t: Store, run: nat, ownerId: string)
    requires Preserves(s, t) && run in s.runs
    ensures !Held(s, run, ownerId) ==> !Held(t, run, ownerId)
    ensures Requested(s, run) ==> Requested(t, run) || !Held(t, run, ownerId)
  {
  }

  lemma RowStays(s: Store, t: Store, run: nat)
    requires Preserves(s, t) && run in s.runs
    ensures run in t.runs
  {
  }

  class FormalRunTable {
    var methods: set<nat>
    var runs: map<nat, Run>
    var nextRun: nat
    var ledger: seq<Entry>

    constructor (methods: set<nat>)
      ensures View() == Store(methods, map[], 0, [])
    {
      this.methods, runs, nextRun, ledger := methods, map[], 0, [];
    }

    function View(): Store
      reads this
    {
      Store(methods, runs, nextRun, ledger)
    }

    /** Create a running run for a method, unless it is unknown, superseded or already running. */
    method StartMethodFetchRun(methodId: nat, isCurrent: bool, owner: Option<Owner>, job: Option<string>, now: int)
      returns (result: StartResult)
      modifies this`runs, this`nextRun
      ensures result == StartOutcome(old(View()), methodId, isCurrent)
      ensures View() == Start(old(View()), methodId, isCurrent, owner, job, now)
    {
      if methodId !in methods {
        return MethodNotFound;
      }
      if !isCurrent {
        return NotCurrent;
      }
      if exists r | r in runs :: runs[r].methodId == methodId && runs[r].status.Running? {
        assert ActiveRuns(View(), methodId) != {} by {
          var r :| r in runs && runs[r].methodId == methodId && runs[r].status.Running?;
          assert r in ActiveRuns(View(), methodId);
        }
        return AlreadyActive;
      }
      assert ActiveRuns(View(), methodId) == {};
      result := Started(nextRun);
      var heartbeat := if owner.Some? then Some(now) else None;
      runs := runs[nextRun := Run(methodId, Running, owner, heartbeat, job, None, None, None, None, 0, 0, None)];
      nextRun := nextRun + 1;
    }

    /** Stamp a terminal run and enter it in the ledger, once. */
    method RecordFormalTerminal(run: nat, status: Status, now: int)
      modifies this`runs, this`ledger
      ensures View() == RecordTerminal(old(View()), run, status, now)
    {
      if run !in runs || runs[run].status != status || runs[run].completed.None? {
        return;
      }
      if runs[run].recorded.Some? {
        return;
      }
      runs := runs[run := runs[run].(recorded := Some(now))];
      ledger := ledger + [Entry(run, status)];
    }

    /**
     * Finish a run: the caller's status if the row is still its to finish, else an acknowledged cancellation when a
     * request is pending, else nothing. gap is what unlocked processes commit between the two statements.
     */
    method FinishMethodFetchRun(run: nat, report: Report, ownerId: Option<string>, now: int, gap: seq<Op>)
      returns (actual: Option<Status>)
      requires !report.status.Running? && AllProper(gap) && Inv(View())
      modifies this
      ensures Inv(View()) && Preserves(old(View()), View())
      ensures run !in old(runs) || old(runs)[run].methodId !in methods ==> actual.None? && View() == old(View())
      ensures run in old(runs) && old(runs)[run].methodId in methods && MayFinish(old(View()), run, report.status, ownerId) ==>
                actual == Some(report.status) && View() == FinishAs(old(View()), run, report, ownerId, now)
      ensures run in old(runs) && old(runs)[run].methodId in methods && ownerId.Some? && report.status != Cancelled
              && MustAcknowledge(old(View()), run, ownerId.value) ==>
                runs[run].status == Cancelled
      // the answer is the row's terminal status, and there is none exactly while the row is not terminal
      ensures run in old(runs) && old(runs)[run].methodId in methods ==>
                (actual.Some? <==> !runs[run].status.Running?) && (actual.Some? ==> actual.value == runs[run].status)
    {
      PreservesSelf(View());
      if run !in runs || runs[run].methodId !in methods {
        return None;
      }
      ghost var s := View();
      var changed := MayFinish(View(), run, report.status, ownerId);
      if changed {
        runs := runs[run := runs[run].(status := report.status, discovered := report.discovered,
                                       stored := report.stored, error := report.error, completed := Some(now),
                                       cancelAcknowledged := if report.status == Cancelled then Some(now) else None)];
        RecordFormalTerminal(run, report.status, now);
        InvStep(s, OpFinish(run, report, ownerId, now));
        return Some(report.status);
      }
      if report.status != Cancelled && ownerId.Some? {
        InvAlways(s, gap);
        var t := Exec(View(), gap);
        methods, runs, nextRun, ledger := t.methods, t.runs, t.nextRun, t.ledger;
        InvStep(t, OpAcknowledge(run, report, ownerId.value, now));
        PreservesTransitive(s, t, Acknowledge(t, run, report, ownerId.value, now));
        if MustAcknowledge(View(), run, ownerId.value) {
          runs := runs[run := runs[run].(status := Cancelled, discovered := report.discovered,
                                         stored := report.stored, error := Some("fetch cancelled"),
                                         completed := Some(now), cancelAcknowledged := Some(now))];
          RecordFormalTerminal(run, Cancelled, now);
          return Some(Cancelled);
        }
      }
      actual := if runs[run].status != Running then Some(runs[run].status) else None;
    }

    /** Persist a cancel request; true iff the run was running. */
    method RequestMethodFetchCancel(run: nat, now: int) returns (requested: bool)
      modifies this`runs
      ensures View() == RequestCancel(old(View()), run, now)
      ensures requested <==> run in old(runs) && old(runs)[run].status.Running?
    {
      requested := run in runs && runs[run].status == Running;
      if requested {
        runs := runs[run := runs[run].(cancelRequested := Some(now))];
      }
    }

    /** Renew a lease; true iff the caller still owns a running run. */
    method HeartbeatMethodFetchOwner(run: nat, ownerId: string, now: int) returns (renewed: bool)
      modifies this`runs
      ensures View() == Heartbeat(old(View()), run, ownerId, now)
      ensures renewed <==> run in old(runs) && old(runs)[run].status.Running? && Owns(old(runs)[run], ownerId)
    {
      renewed := run in runs && runs[run].status == Running && Owns(runs[run], ownerId);
      if renewed {
        runs := runs[run := runs[run].(heartbeat := Some(now))];
      }
    }

    /** Converge the runs of dead owners, one candidate at a time. */
    method RecoverDeadMethodFetchRuns(only: Option<nat>, candidates: seq<nat>, w: World) returns (recovered: nat)
      requires IsListing(candidates, Candidates(View(), only))
      modifies this
      ensures View() == RecoverAll(old(View()), candidates, w, 0)
      ensures recovered == RecoveredCount(old(View()), candidates, w, 0)
    {
      recovered := 0;
      var k := 0;
      while k < |candidates|
        invariant 0 <= k <= |candidates|
        invariant RecoverAll(View(), candidates, w, k) == RecoverAll(old(View()), candidates, w, 0)
        invariant recovered + RecoveredCount(View(), candidates, w, k) == RecoveredCount(old(View()), candidates, w, 0)
      {
        hide RecordTerminal, Exec, OwnerIsAlive;
        var t := Exec(View(), w.gap(k));
        methods, runs, nextRun, ledger := t.methods, t.runs, t.nextRun, t.ledger;
        var c, now := candidates[k], w.clock(k);
        if c in runs && runs[c].methodId in methods && runs[c].status == Running && runs[c].owner.Some?
           && !OwnerIsAlive(runs[c], now, w.processes(k)) && (runs[c].sandboxJob.Some? ==> w.cleaned(k))
        {
          var requested := runs[c].cancelRequested.Some?;
          var status := if requested then Cancelled else Failed;
          runs := runs[c := runs[c].(
            status := status,
            error := Some(if requested then "fetch cancelled after owner process exited"
                          else "formal fetch owner process exited before completion"),
            completed := Some(now),
            cancelAcknowledged := if requested then Some(now) else None)];
          RecordFormalTerminal(c, status, now);
          recovered := recovered + 1;
        }
        k := k + 1;
      }
    }

    /**
     * The watcher beside a running fetch: it renews the lease and turns a lost lease or a persisted request into the
     * local cancellation, telling the sandbox each time.
     */
    method WatchMethodFetchOwner(run: nat, ownerId: string, w: Watch) returns (cancel: bool, told: nat)
      requires Inv(View()) && ProperWatch(w) && run in runs
      modifies this
      ensures Inv(View()) && Preserves(old(View()), View())
      // it cancels only for a reason, and says so at once and at most twice
      ensures cancel ==> (exists k :: 0 <= k < w.polls && w.event(k)) || !Held(View(), run, ownerId) || Requested(View(), run)
      ensures cancel <==> told > 0
      ensures told <= 2
      // what the last poll could see is acted on
      ensures w.polls > 0 && (Requested(View(), run) || w.event(w.polls - 1)) ==> cancel
      ensures w.polls > 0 && w.due(w.polls - 1) && !Held(View(), run, ownerId) ==> cancel
    {
      hide Inv, Preserves, ProperWatch, Held, Requested, Reason;
      cancel, told := false, 0;
      var k: nat := 0;
      PreservesSelf(View());
      while k < w.polls
        invariant Inv(View()) && Preserves(old(View()), View()) && k <= w.polls && run in runs
        invariant cancel ==> Reason(View(), run, ownerId, w, k)
        invariant told == if cancel then 1 else 0
        invariant k > 0 && (Requested(View(), run) || w.event(k - 1)) ==> cancel
        invariant k > 0 && w.due(k - 1) && !Held(View(), run, ownerId) ==> cancel
      {
        ghost var s := View();
        var now, lost := PollOnce(run, ownerId, w, k);
        PreservesTransitive(old(View()), s, View());
        RowStays(s, View(), run);
        ReasonStays(s, View(), run, ownerId, w, k);
        k := k + 1;
        if lost {
          told := told + if w.event(k - 1) && !cancel then 2 else 1;
          cancel := true;
          ReasonIsReal(View(), run, ownerId, w, k);
          return;
        }
        if now && !cancel {
          cancel, told := true, told + 1;
        }
      }
      ReasonIsReal(View(), run, ownerId, w, k);
    }

    /** One poll: renew the lease when due; lost reports a refused renewal, now a local event or a persisted request. */
    method PollOnce(run: nat, ownerId: string, w: Watch, k: nat) returns (now: bool, lost: bool)
      requires Inv(View()) && ProperWatch(w) && run in runs
      modifies this
      ensures Inv(View()) && Preserves(old(View()), View())
      ensures lost <==> w.due(k) && !Held(View(), run, ownerId)
      ensures now <==> w.event(k) || Requested(View(), run)
    {
      hide Inv, Preserves, Exec;
      ghost var s := View();
      assert AllProper(w.gap(k));
      InvAlways(s, w.gap(k));
      var t := Exec(View(), w.gap(k));
      methods, runs, nextRun, ledger := t.methods, t.runs, t.nextRun, t.ledger;
      lost := false;
      if w.due(k) {
        InvStep(t, OpHeartbeat(run, ownerId, w.clock(k)));
        var renewed := HeartbeatMethodFetchOwner(run, ownerId, w.clock(k));
        PreservesTransitive(s, t, View());
        lost := !renewed;
      }
      now := w.event(k) || (run in runs && runs[run].status == Running && runs[run].cancelRequested.Some?);
    }
  }
}
