// The session manager as the program has it, and the login thread that runs beside it.
module QrLoginManager {
  import opened Prelude
  import opened WechatCredentials
  import opened QrLogin

  // What the login thread meets at step k: others is what happens meanwhile, seconds how long it takes besides the wait of
  // one second. clock is what the monotonic clock shows at the start.
  datatype World = World(others: nat -> seq<QrLogin.Op>, fails: nat -> bool, login: nat -> Option<Credential>,
                         stored: nat -> bool, qrVisible: nat -> bool, scanned: nat -> bool, seconds: nat -> nat,
                         now: nat -> int, clock: nat)

  /** How long the first k rounds take. */
  function Seconds(w: World, k: nat): nat {
    if k == 0 then 0 else Seconds(w, k - 1) + 1 + w.seconds(k)
  }

  lemma SecondsStart(w: World)
    ensures Seconds(w, 0) == 0
  {
  }

  lemma SecondsNext(w: World, k: nat)
    requires k > 0
    ensures Seconds(w, k) == Seconds(w, k - 1) + 1 + w.seconds(k)
  {
  }

  /** The last round began before the timeout, and there were no more rounds than that has seconds. */
  predicate InTime(timeout: nat, w: World, rounds: nat, elapsed: nat) {
    && elapsed == Seconds(w, rounds) && rounds <= elapsed && rounds <= timeout
    && (rounds > 0 ==> Seconds(w, rounds - 1) < timeout)
  }

  class WechatQrLoginManager {
    var all: map<nat, Session>
    var sessions: set<nat>
    var profileSessions: map<string, nat>
    var next: nat
    var store: Store
    ghost var saved: set<nat>

    ghost function View(): State
      reads this
    {
      State(all, sessions, profileSessions, next, saved, store)
    }

    constructor ()
      ensures View() == EMPTY
    {
      all, sessions, profileSessions, next, store := map[], {}, map[], 0, map[];
      saved := {};
    }

    // ---------- pruning ----------

    /** Least recently updated first; of equal times the older session. */
    method SortedByUpdate(ids: set<nat>) returns (list: seq<nat>)
      requires ids <= all.Keys
      ensures IsListing(all, ids, list)
    {
      list := [];
      var todo := ids;
      ghost var done := {};
      while todo != {}
        invariant todo !! done && todo + done == ids
        invariant IsListing(all, done, list)
        decreases todo
      {
        var id :| id in todo;
        todo := todo - {id};
        var i := 0;
        while i < |list| && Before(all, list[i], id)
          invariant i <= |list| && forall k :: 0 <= k < i ==> Before(all, list[k], id)
        {
          i := i + 1;
        }
        InsertedIsListing(all, done, list, i, id);
        list := list[..i] + [id] + list[i..];
        done := done + {id};
      }
    }

    method Forget(id: nat)
      requires IndexAgrees(View())
      modifies this`sessions, this`profileSessions
      ensures View() == Drop(old(View()), {id})
    {
      if id in sessions {
        var profile := all[id].profile;
        sessions := sessions - {id};
        if profile in profileSessions && profileSessions[profile] == id {
          profileSessions := profileSessions - {profile};
        }
      }
    }

    method ForgetAll(ids: set<nat>)
      requires IndexAgrees(View())
      modifies this`sessions, this`profileSessions
      ensures View() == Drop(old(View()), ids)
    {
      hide Drop, IndexAgrees;
      ghost var s := View();
      var todo := ids;
      ghost var done := {};
      DropNothing(s);
      while todo != {}
        invariant todo !! done && todo + done == ids
        invariant View() == Drop(s, done)
        decreases todo
      {
        var id :| id in todo;
        todo := todo - {id};
        DropKeepsIndex(s, done);
        Forget(id);
        DropTwice(s, done, {id});
        done := done + {id};
      }
    }

    method PruneLocked(now: int)
      requires Inv(View())
      modifies this`sessions, this`profileSessions
      ensures View() == Prune(old(View()), now)
    {
      ghost var s := View();
      var removable := set id | id in sessions && IsRemovable(all[id]) && all[id].updatedAt < now - RETENTION;
      assert removable == Outdated(s, now);
      InvSessions(s);
      hide Inv, Prefix;
      ForgetAll(removable);
      DropKeepsIndex(s, removable);
      ghost var kept := View();
      if |sessions| > MAX_RECORDS {
        var terminal := set id | id in sessions && IsRemovable(all[id]);
        assert terminal == Removable(kept);
        var list := SortedByUpdate(terminal);
        ListingIsUnique(all, terminal, list, Listing(all, terminal));
        ForgetAll(Prefix(list, |sessions| - MAX_RECORDS));
      }
    }

    // ---------- requests ----------

    method Start(profile: string, now: int, lockFree: bool, threadStarts: bool) returns (r: StartResult)
      requires Inv(View())
      modifies this
      ensures View() == QrLogin.Start(old(View()), profile, now, lockFree, threadStarts)
      ensures r == StartOutcome(Prune(old(View()), now), profile, lockFree, threadStarts)
      ensures Inv(View())
    {
      hide Inv, Prune, StartPruned, StartOutcome;
      PruneKeepsInv(View(), now);
      StartPrunedKeepsInv(Prune(View(), now), profile, now, lockFree, threadStarts);
      PruneLocked(now);
      InvSessions(View());
      r := StartSession(profile, now, lockFree, threadStarts);
    }

    method StartSession(profile: string, now: int, lockFree: bool, threadStarts: bool) returns (r: StartResult)
      requires sessions <= all.Keys && next !in sessions
      modifies this`all, this`sessions, this`profileSessions, this`next
      ensures View() == StartPruned(old(View()), profile, now, lockFree, threadStarts)
      ensures r == StartOutcome(old(View()), profile, lockFree, threadStarts)
    {
      hide IsTerminal;
      var previous := None;
      if profile in profileSessions && profileSessions[profile] in sessions {
        previous := Some(profileSessions[profile]);
      }
      assert previous == Previous(View(), profile);
      if previous.Some? && all[previous.value].alive {
        return if IsTerminal(all[previous.value].status) then StillCleaning else AlreadyActive;
      }
      if !lockFree {
        return LockBusy;
      }
      r := LaunchSession(profile, previous, now, threadStarts);
    }

    /** The previous session gives way to a new one, which is withdrawn again if its thread does not start. */
    method LaunchSession(profile: string, previous: Option<nat>, now: int, threadStarts: bool) returns (r: StartResult)
      requires next !in sessions
      modifies this`all, this`sessions, this`profileSessions, this`next
      ensures r == if threadStarts then Started(old(next)) else ThreadFailed
      ensures next == old(next) + 1
      ensures all == old(all)[old(next) := Session(profile, Pending, false, threadStarts, now)]
      ensures sessions == old(sessions) - (if previous.Some? then {previous.value} else {})
                          + (if threadStarts then {old(next)} else {})
      ensures profileSessions == if threadStarts then old(profileSessions)[profile := old(next)]
                                 else old(profileSessions) - {profile}
    {
      if previous.Some? {
        sessions := sessions - {previous.value};
      }
      var id := next;
      all, next := all[id := Session(profile, Pending, false, false, now)], next + 1;
      sessions, profileSessions := sessions + {id}, profileSessions[profile := id];
      if !threadStarts {
        sessions, profileSessions := sessions - {id}, profileSessions - {profile};
        return ThreadFailed;
      }
      all := all[id := all[id].(alive := true)];
      return Started(id);
    }

    method Get(id: nat, now: int) returns (r: Option<Session>)
      requires Inv(View())
      modifies this`sessions, this`profileSessions
      ensures View() == Prune(old(View()), now) && Inv(View())
      ensures r == if id in sessions then Some(all[id]) else None
    {
      hide Prune;
      PruneKeepsInv(View(), now);
      PruneLocked(now);
      return if id in sessions then Some(all[id]) else None;
    }

    method Cancel(id: nat, now: int) returns (r: Option<Session>)
      requires Inv(View())
      modifies this
      ensures View() == CancelPruned(Prune(old(View()), now), id, now) && Inv(View())
      ensures r.Some? <==> id in sessions
      ensures r.Some? ==> r.value == all[id] && IsTerminal(r.value.status)
    {
      hide Prune;
      PruneKeepsInv(View(), now);
      CancelKeepsInv(Prune(View(), now), id, now);
      PruneLocked(now);
      if id !in sessions {
        return None;
      }
      if !IsTerminal(all[id].status) {
        all := all[id := all[id].(stop := true)];
        all := all[id := all[id].(status := Cancelled, updatedAt := now)];
      }
      return Some(all[id]);
    }

    method ShutdownAll()
      modifies this`all
      ensures View() == QrLogin.ShutdownAll(old(View()))
    {
      all := map id | id in all :: if id in sessions then all[id].(stop := true) else all[id];
    }

    // ---------- reports of a login thread ----------

    method Update(id: nat, status: Status, now: int)
      requires Runs(View(), id) && !status.Success?
      modifies this`all
      ensures View() == QrLogin.Update(old(View()), id, status, now)
    {
      if IsTerminal(all[id].status) {
        return;
      }
      all := all[id := all[id].(status := status, updatedAt := now)];
    }

    /** A failing store raises: nothing is saved, and the session is not a success. */
    method SaveAuthenticatedContext(id: nat, login: Option<Credential>, stored: bool, now: int)
      returns (success: bool, raised: bool)
      requires Runs(View(), id)
      modifies this`all, this`store, this`saved
      ensures View() == if login.Some? then SaveLogin(old(View()), id, login.value, stored, now) else old(View())
      ensures success ==> login.Some? && all[id].status.Success? && all[id].profile in store
                          && store[all[id].profile] == Profile(login.value, Valid, None)
      ensures !success && !raised && login.Some? ==> all[id].stop || IsTerminal(all[id].status)
      ensures raised ==> View() == old(View())
    {
      if login.None? {
        return false, false;
      }
      if all[id].stop || IsTerminal(all[id].status) {
        return false, false;
      }
      if !stored {
        return false, true;
      }
      store := store[all[id].profile := Profile(login.value, Valid, None)];
      saved := saved + {id};
      all := all[id := all[id].(status := Success, updatedAt := now)];
      return true, false;
    }

    method PublishScreenshot(id: nat, visible: bool, now: int)
      requires Runs(View(), id)
      modifies this`all
      ensures View() == if visible then Publish(old(View()), id, now) else old(View())
    {
      if all[id].stop || !visible || IsTerminal(all[id].status) {
        return;
      }
      var status := if all[id].status.Scanned? then Scanned else QrReady;
      all := all[id := all[id].(status := status, updatedAt := now)];
    }

    method EndThread(id: nat)
      requires Runs(View(), id)
      modifies this`all
      ensures View() == ThreadEnds(old(View()), id)
    {
      all := all[id := all[id].(alive := false)];
    }

    // ---------- the login thread ----------

    method Perform(op: QrLogin.Op)
      requires Inv(View())
      modifies this
      ensures View() == QrLogin.Apply(old(View()), op) && Inv(View())
    {
      hide Prune, Inv, StartPruned, CancelPruned;
      StepKeepsInv(View(), op);
      match op
      case OpStart(p, now, lockFree, threadStarts) => var _ := Start(p, now, lockFree, threadStarts);
      case OpGet(now) => var _ := Get(0, now);
      case OpCancel(id, now) => var _ := Cancel(id, now);
      case OpShutdown => ShutdownAll();
      case OpUpdate(id, status, now) =>
        if id in all && all[id].alive && !status.Success? {
          Update(id, status, now);
        }
      case OpPublish(id, now) =>
        if id in all && all[id].alive {
          PublishScreenshot(id, true, now);
        }
      case OpSaveLogin(id, c, stored, now) =>
        if id in all && all[id].alive {
          var _, _ := SaveAuthenticatedContext(id, Some(c), stored, now);
        }
      case OpThreadEnds(id) =>
        if id in all && all[id].alive {
          EndThread(id);
        }
      case OpStore(o) => store := WechatCredentials.Apply(store, o);
    }

    /** The rest of the program between two steps of login thread id. */
    method Interfere(id: nat, ops: seq<QrLogin.Op>)
      requires Inv(View()) && Runs(View(), id)
      requires forall k :: 0 <= k < |ops| ==> IsForeign(ops[k], id)
      modifies this
      ensures Inv(View()) && Runs(View(), id)
      ensures Carried(old(View()), View(), id)
    {
      for k := 0 to |ops|
        invariant Inv(View()) && Runs(View(), id)
        invariant Carried(old(View()), View(), id)
      {
        hide Inv, QrLogin.Apply;
        ForeignCarries(View(), ops[k], id);
        Perform(ops[k]);
      }
    }

    method Report(id: nat, status: Status, now: int)
      requires Inv(View()) && Runs(View(), id) && status in {Scanned, ExpiredCode, Failed}
      modifies this`all
      ensures Inv(View()) && Runs(View(), id)
      ensures IsTerminal(status) ==> IsTerminal(all[id].status)
    {
      hide Inv;
      StepKeepsInv(View(), OpUpdate(id, status, now));
      Update(id, status, now);
    }

    /** Saves the login if there is one; ends the session if saving raises. The thread is finished if so told. */
    method TrySave(id: nat, k: nat, w: World) returns (finished: bool)
      requires Inv(View()) && Runs(View(), id)
      modifies this
      ensures Inv(View()) && Runs(View(), id)
      ensures finished ==> IsTerminal(all[id].status)
    {
      hide Inv;
      if w.login(k).Some? {
        StepKeepsInv(View(), OpSaveLogin(id, w.login(k).value, w.stored(k), w.now(k)));
      }
      var success, raised := SaveAuthenticatedContext(id, w.login(k), w.stored(k), w.now(k));
      if raised {
        Report(id, Failed, w.now(k));
      }
      return success || raised;
    }

    method TryPublish(id: nat, k: nat, w: World)
      requires Inv(View()) && Runs(View(), id)
      modifies this`all
      ensures Inv(View()) && Runs(View(), id)
    {
      hide Inv;
      StepKeepsInv(View(), OpPublish(id, w.now(k)));
      PublishScreenshot(id, w.qrVisible(k), w.now(k));
    }

    method RunUntilEnd(id: nat, timeout: nat, w: World) returns (rounds: nat, elapsed: nat)
      requires Inv(View()) && Runs(View(), id)
      requires forall k: nat, i :: 0 <= i < |w.others(k)| ==> IsForeign(w.others(k)[i], id)
      modifies this
      ensures Inv(View()) && Runs(View(), id)
      ensures IsTerminal(all[id].status) || all[id].stop
      ensures InTime(timeout, w, rounds, elapsed)
    {
      assert IsTerminal(Failed) && IsTerminal(ExpiredCode);
      hide Inv, IsTerminal, Seconds;
      SecondsStart(w);
      rounds, elapsed := 0, 0;
      Interfere(id, w.others(0));
      if w.fails(0) {
        Report(id, Failed, w.now(0));
        return;
      }
      var finished := TrySave(id, 0, w);
      if finished {
        return;
      }
      TryPublish(id, 0, w);
      var lastShot := 0;
      while elapsed < timeout
        invariant Inv(View()) && Runs(View(), id)
        invariant InTime(timeout, w, rounds, elapsed)
        decreases timeout - elapsed
      {
        rounds := rounds + 1;
        Interfere(id, w.others(rounds));
        SecondsNext(w, rounds);
        elapsed := elapsed + 1 + w.seconds(rounds);
        if all[id].stop {
          return;
        }
        if w.fails(rounds) {
          Report(id, Failed, w.now(rounds));
          return;
        }
        finished := TrySave(id, rounds, w);
        if finished {
          return;
        }
        if w.scanned(rounds) {
          Report(id, Scanned, w.now(rounds));
        }
        if w.clock + elapsed >= lastShot + 8 {
          TryPublish(id, rounds, w);
          lastShot := w.clock + elapsed;
        }
      }
      Report(id, ExpiredCode, w.now(rounds));
    }

    /**
     * A login thread, whatever the page and the rest of the program do, comes to an end: it begins no round after the
     * timeout, and as many rounds as that has seconds at most. It leaves its session ended unless it was told to stop; the
     * credential is saved exactly if the session ended in success.
     */
    method Run(id: nat, timeout: nat, w: World) returns (rounds: nat, elapsed: nat)
      requires Inv(View()) && Runs(View(), id)
      requires forall k: nat, i :: 0 <= i < |w.others(k)| ==> IsForeign(w.others(k)[i], id)
      modifies this
      ensures Inv(View()) && id in all && !Runs(View(), id)
      ensures IsTerminal(all[id].status) || all[id].stop
      ensures id in saved <==> all[id].status.Success?
      ensures InTime(timeout, w, rounds, elapsed)
    {
      rounds, elapsed := RunUntilEnd(id, timeout, w);
      StepKeepsInv(View(), OpThreadEnds(id));
      EndThread(id);
    }
  }

  lemma InsertedIsListing(all: map<nat, Session>, ids: set<nat>, list: seq<nat>, i: nat, id: nat)
    requires IsListing(all, ids, list) && id !in ids && id in all && i <= |list|
    requires (forall k :: 0 <= k < i ==> Before(all, list[k], id)) && (i < |list| ==> !Before(all, list[i], id))
    ensures IsListing(all, ids + {id}, list[..i] + [id] + list[i..])
  {
    var after := list[..i] + [id] + list[i..];
    assert list == list[..i] + list[i..];
    assert forall x :: x in after <==> x == id || x in list;
    assert forall k :: 0 <= k < |after| ==> after[k] == if k < i then list[k] else if k == i then id else list[k - 1];
    forall k | i <= k < |list| ensures Before(all, id, list[k]) {
      assert list[i] in ids;
    }
    hide Before;
    forall j, k | 0 <= j < k < |after| ensures after[j] in all && after[k] in all && Before(all, after[j], after[k]) {
      assert after[j] == id || after[j] in list;
      assert after[k] == id || after[k] in list;
    }
  }

  lemma DropNothing(s: State)
    ensures Drop(s, {}) == s
  {
  }

  lemma DropTwice(s: State, a: set<nat>, b: set<nat>)
    ensures Drop(Drop(s, a), b) == Drop(s, a + b)
  {
  }

  lemma DropKeepsIndex(s: State, gone: set<nat>)
    requires IndexAgrees(s)
    ensures IndexAgrees(Drop(s, gone)) && Drop(s, gone).sessions <= s.all.Keys && Drop(s, gone).all == s.all
  {
  }

  /** Not a report of login thread id: only that thread makes those. */
  predicate IsForeign(op: QrLogin.Op, id: nat) {
    !((op.OpUpdate? || op.OpPublish? || op.OpSaveLogin? || op.OpThreadEnds?) && op.id == id)
  }

  /** What others leave of a running session: it runs on, ended it stays as it ended, and a stop is not taken back. */
  predicate Carried(before: State, after: State, id: nat) {
    && id in before.all && id in after.all
    && after.all[id].profile == before.all[id].profile
    && (IsTerminal(before.all[id].status) ==> after.all[id].status == before.all[id].status)
    && (before.all[id].stop ==> after.all[id].stop)
    && (after.all[id].status != before.all[id].status ==> after.all[id].status.Cancelled? && after.all[id].stop)
  }

  lemma ForeignCarries(s: State, op: QrLogin.Op, id: nat)
    requires Inv(s) && Runs(s, id) && IsForeign(op, id)
    ensures Runs(QrLogin.Apply(s, op), id) && Carried(s, QrLogin.Apply(s, op), id)
  {
    hide Prune;
    if op.OpStart? || op.OpGet? || op.OpCancel? {
      PruneOnlyDrops(s, op.now);
    }
  }
}
