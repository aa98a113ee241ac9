// QR login sessions: the manager's sessions and its index by profile, pruning, and the
// statuses that the login threads, cancellation and shutdown set. Session numbers are given
// out in order of creation.
module QrLogin {
  import opened Prelude
  import opened WechatCredentials

  datatype Status = Pending | QrReady | Scanned | Success | ExpiredCode | Failed | Cancelled

  predicate IsTerminal(s: Status) {
    s in {Success, ExpiredCode, Failed, Cancelled}
  }

  // alive is whether the login thread runs; stop is its cancel event.
  datatype Session = Session(profile: string, status: Status, stop: bool, alive: bool, updatedAt: int)

  // all holds every session ever made, sessions the numbers the manager still keeps; saved those whose credential was saved.
  datatype State = State(all: map<nat, Session>, sessions: set<nat>, index: map<string, nat>, next: nat, saved: set<nat>,
                         store: Store)

  const RETENTION := 900
  const MAX_RECORDS := 100

  // ---------- pruning ----------

  predicate IsRemovable(s: Session) {
    IsTerminal(s.status) && !s.alive
  }

  function Drop(s: State, gone: set<nat>): State {
    s.(sessions := s.sessions - gone, index := map p | p in s.index && s.index[p] !in gone :: s.index[p])
  }

  function Removable(s: State): set<nat> {
    set id | id in s.sessions && id in s.all && IsRemovable(s.all[id])
  }

  function Outdated(s: State, now: int): set<nat> {
    set id | id in Removable(s) && s.all[id].updatedAt < now - RETENTION
  }

  predicate Before(all: map<nat, Session>, x: nat, y: nat)
    requires x in all && y in all
  {
    all[x].updatedAt < all[y].updatedAt || (all[x].updatedAt == all[y].updatedAt && x < y)
  }

  /** The numbers of ids, each once, the least recently updated first. */
  ghost predicate IsListing(all: map<nat, Session>, ids: set<nat>, list: seq<nat>) {
    && (forall id :: id in ids <==> id in list)
    && (forall id :: id in list ==> id in all)
    && (forall i, j :: 0 <= i < j < |list| ==> Before(all, list[i], list[j]))
  }

  lemma {:induction false} ListingExists(all: map<nat, Session>, ids: set<nat>)
    requires ids <= all.Keys
    ensures exists list :: IsListing(all, ids, list)
    decreases |ids|
  {
    if ids == {} {
      assert IsListing(all, ids, []);
    } else {
      var id := Last(all, ids);
      ListingExists(all, ids - {id});
      var list :| IsListing(all, ids - {id}, list);
      assert forall x :: x in list + [id] <==> x in list || x == id;
      assert IsListing(all, ids, list + [id]);
    }
  }

  lemma {:induction false} Last(all: map<nat, Session>, ids: set<nat>) returns (last: nat)
    requires ids <= all.Keys && ids != {}
    ensures last in ids && forall id :: id in ids && id != last ==> Before(all, id, last)
    decreases |ids|
  {
    var x :| x in ids;
    var rest := ids - {x};
    assert forall id :: id in ids && id != x ==> id in rest;
    if rest == {} {
      last := x;
    } else {
      last := Last(all, rest);
      if Before(all, last, x) {
        last := x;
      }
    }
  }

  lemma {:induction false} ListingSize(all: map<nat, Session>, ids: set<nat>, list: seq<nat>)
    requires IsListing(all, ids, list)
    ensures |list| == |ids|
    decreases |list|
  {
    if list == [] {
      assert ids == {};
    } else {
      ListingOfInit(all, ids, list);
      ListingSize(all, ids - {list[|list| - 1]}, list[..|list| - 1]);
      assert list[|list| - 1] in ids;
    }
  }

  lemma {:induction false} ListingIsUnique(all: map<nat, Session>, ids: set<nat>, a: seq<nat>, b: seq<nat>)
    requires IsListing(all, ids, a) && IsListing(all, ids, b)
    ensures a == b
    decreases |a|
  {
    ListingSize(all, ids, a);
    ListingSize(all, ids, b);
    if a != [] {
      var x := a[|a| - 1];
      assert x in ids;
      var y := b[|b| - 1];
      assert y in ids;
      assert x == y by {
        var i :| 0 <= i < |b| && b[i] == x;
        var j :| 0 <= j < |a| && a[j] == y;
      }
      ListingOfInit(all, ids, a);
      ListingOfInit(all, ids, b);
      ListingIsUnique(all, ids - {x}, a[..|a| - 1], b[..|b| - 1]);
    }
  }

  lemma ListingOfInit(all: map<nat, Session>, ids: set<nat>, a: seq<nat>)
    requires IsListing(all, ids, a) && a != []
    ensures IsListing(all, ids - {a[|a| - 1]}, a[..|a| - 1])
  {
    var init, last := a[..|a| - 1], a[|a| - 1];
    assert a == init + [last];
    forall id | id in init ensures id != last {
      var i :| 0 <= i < |init| && init[i] == id;
      assert Before(all, a[i], a[|a| - 1]);
    }
  }

  ghost function Listing(all: map<nat, Session>, ids: set<nat>): (list: seq<nat>)
    requires ids <= all.Keys
    ensures IsListing(all, ids, list)
  {
    ListingExists(all, ids);
    var list :| IsListing(all, ids, list);
    list
  }

  function Prefix(list: seq<nat>, n: int): set<nat> {
    if n <= 0 then {} else set i | 0 <= i < |list| && i < n :: list[i]
  }

  /** First what is outdated, then of what could go the oldest, as many as there are too many. */
  ghost function Prune(s: State, now: int): State {
    var kept := Drop(s, Outdated(s, now));
    if |kept.sessions| <= MAX_RECORDS then kept
    else Drop(kept, Prefix(Listing(s.all, Removable(kept)), |kept.sessions| - MAX_RECORDS))
  }

  // ---------- operations ----------

  datatype Op =
    | OpStart(profile: string, now: int, lockFree: bool, threadStarts: bool)
    | OpGet(now: int)
    | OpCancel(id: nat, now: int)
    | OpShutdown
    | OpUpdate(id: nat, status: Status, now: int)
    | OpPublish(id: nat, now: int)
    | OpSaveLogin(id: nat, credential: Credential, stored: bool, now: int)
    | OpThreadEnds(id: nat)
    | OpStore(op: WechatCredentials.Op)

  datatype StartResult = Started(id: nat) | AlreadyActive | StillCleaning | LockBusy | ThreadFailed

  /** The session that the index names for the profile. */
  function Previous(s: State, p: string): Option<nat> {
    if p in s.index && s.index[p] in s.sessions && s.index[p] in s.all then Some(s.index[p]) else None
  }

  function StartOutcome(s: State, p: string, lockFree: bool, threadStarts: bool): StartResult {
    var previous := Previous(s, p);
    if previous.Some? && s.all[previous.value].alive then
      if IsTerminal(s.all[previous.value].status) then StillCleaning else AlreadyActive
    else if !lockFree then LockBusy
    else if !threadStarts then ThreadFailed
    else Started(s.next)
  }

  /** After pruning: the previous session gives way, and a thread that does not start takes its session with it. */
  function StartPruned(s: State, p: string, now: int, lockFree: bool, threadStarts: bool): State {
    var outcome := StartOutcome(s, p, lockFree, threadStarts);
    if outcome.AlreadyActive? || outcome.StillCleaning? || outcome.LockBusy? then s
    else
      var previous := Previous(s, p);
      var without := if previous.Some? then s.sessions - {previous.value} else s.sessions;
      var session := Session(p, Pending, false, outcome.Started?, now);
      s.(all := s.all[s.next := session],
         sessions := if outcome.Started? then without + {s.next} else without,
         index := if outcome.Started? then s.index[p := s.next] else s.index - {p},
         next := s.next + 1)
  }

  ghost function Start(s: State, p: string, now: int, lockFree: bool, threadStarts: bool): State {
    StartPruned(Prune(s, now), p, now, lockFree, threadStarts)
  }

  function CancelPruned(s: State, id: nat, now: int): State {
    if id in s.sessions && id in s.all && !IsTerminal(s.all[id].status) then
      s.(all := s.all[id := s.all[id].(status := Cancelled, stop := true, updatedAt := now)])
    else s
  }

  function ShutdownAll(s: State): State {
    s.(all := map id | id in s.all :: if id in s.sessions then s.all[id].(stop := true) else s.all[id])
  }

  predicate Runs(s: State, id: nat) {
    id in s.all && s.all[id].alive
  }

  /** What a login thread reports, unless the session has come to an end already. Success is not reported this way. */
  function Update(s: State, id: nat, status: Status, now: int): State {
    if Runs(s, id) && !IsTerminal(s.all[id].status) && !status.Success? then
      s.(all := s.all[id := s.all[id].(status := status, updatedAt := now)])
    else s
  }

  function Publish(s: State, id: nat, now: int): State {
    if Runs(s, id) && !s.all[id].stop && !IsTerminal(s.all[id].status) then
      s.(all := s.all[id := s.all[id].(status := if s.all[id].status.Scanned? then Scanned else QrReady, updatedAt := now)])
    else s
  }

  /** Under the manager's lock: whichever of success and cancel comes first wins. A failing store leaves all as it was. */
  function SaveLogin(s: State, id: nat, c: Credential, stored: bool, now: int): State {
    if Runs(s, id) && !s.all[id].stop && !IsTerminal(s.all[id].status) && stored then
      s.(all := s.all[id := s.all[id].(status := Success, updatedAt := now)],
         saved := s.saved + {id},
         store := SaveProfile(s.store, s.all[id].profile, c))
    else s
  }

  function ThreadEnds(s: State, id: nat): State {
    if Runs(s, id) then s.(all := s.all[id := s.all[id].(alive := false)]) else s
  }

  ghost function Apply(s: State, op: Op): State {
    match op
    case OpStart(p, now, lockFree, threadStarts) => Start(s, p, now, lockFree, threadStarts)
    case OpGet(now) => Prune(s, now)
    case OpCancel(id, now) => CancelPruned(Prune(s, now), id, now)
    case OpShutdown => ShutdownAll(s)
    case OpUpdate(id, status, now) => Update(s, id, status, now)
    case OpPublish(id, now) => Publish(s, id, now)
    case OpSaveLogin(id, c, stored, now) => SaveLogin(s, id, c, stored, now)
    case OpThreadEnds(id) => ThreadEnds(s, id)
    case OpStore(op) => s.(store := WechatCredentials.Apply(s.store, op))
  }

  ghost function Exec(s: State, ops: seq<Op>): State
    decreases |ops|
  {
    if ops == [] then s else Exec(Apply(s, ops[0]), ops[1..])
  }

  const EMPTY := State(map[], {}, map[], 0, {}, map[])

  // ---------- the index ----------

  /** Every kept session is indexed under its profile, and the index names nothing else. */
  ghost predicate IndexAgrees(s: State) {
    && (forall p :: p in s.index ==> s.index[p] in s.sessions && s.index[p] in s.all && s.all[s.index[p]].profile == p)
    && (forall id :: id in s.sessions ==> id in s.all && s.all[id].profile in s.index && s.index[s.all[id].profile] == id)
  }

  /** A login thread runs only for a session that is kept, so that it can be found and cancelled. */
  ghost predicate RunningAreKept(s: State) {
    forall id :: Runs(s, id) ==> id in s.sessions
  }

  ghost predicate SavedAreSuccesses(s: State) {
    forall id :: id in s.all ==> (id in s.saved <==> s.all[id].status.Success?)
  }

  ghost predicate Inv(s: State) {
    && IndexAgrees(s) && RunningAreKept(s) && SavedAreSuccesses(s)
    && (forall id :: id in s.all || id in s.saved ==> id < s.next)
  }

  lemma DropKeepsInv(s: State, gone: set<nat>)
    requires Inv(s) && forall id :: id in gone ==> !Runs(s, id)
    ensures Inv(Drop(s, gone))
  {
  }

  lemma DropFrame(s: State, gone: set<nat>)
    ensures Drop(s, gone).all == s.all && Drop(s, gone).next == s.next
    ensures Drop(s, gone).saved == s.saved && Drop(s, gone).store == s.store
  {
  }

  lemma InvSessions(s: State)
    requires Inv(s)
    ensures s.sessions <= s.all.Keys && s.next !in s.sessions && IndexAgrees(s)
  {
  }

  lemma PruneKeepsInv(s: State, now: int)
    requires Inv(s)
    ensures Inv(Prune(s, now)) && Prune(s, now).all == s.all && Prune(s, now).next == s.next
    ensures Prune(s, now).saved == s.saved && Prune(s, now).store == s.store
  {
    hide Inv, Drop;
    DropKeepsInv(s, Outdated(s, now));
    var kept := Drop(s, Outdated(s, now));
    DropFrame(s, Outdated(s, now));
    if |kept.sessions| > MAX_RECORDS {
      var gone := Prefix(Listing(s.all, Removable(kept)), |kept.sessions| - MAX_RECORDS);
      forall id | id in gone ensures !Runs(kept, id) {
        assert id in Listing(s.all, Removable(kept));
      }
      DropKeepsInv(kept, gone);
      DropFrame(kept, gone);
    }
  }

  lemma StartPrunedKeepsInv(s: State, p: string, now: int, lockFree: bool, threadStarts: bool)
    requires Inv(s)
    ensures Inv(StartPruned(s, p, now, lockFree, threadStarts))
  {
  }

  lemma StepKeepsInv(s: State, op: Op)
    requires Inv(s)
    ensures Inv(Apply(s, op))
  {
    hide Inv, Prune, StartPruned, CancelPruned;
    match op
    case OpStart(p, now, lockFree, threadStarts) =>
      PruneKeepsInv(s, now);
      StartPrunedKeepsInv(Prune(s, now), p, now, lockFree, threadStarts);
    case OpGet(now) => PruneKeepsInv(s, now);
    case OpCancel(id, now) =>
      PruneKeepsInv(s, now);
      CancelKeepsInv(Prune(s, now), id, now);
    case _ => ReportKeepsInv(s, op);
  }

  lemma CancelKeepsInv(s: State, id: nat, now: int)
    requires Inv(s)
    ensures Inv(CancelPruned(s, id, now))
  {
  }

  lemma ReportKeepsInv(s: State, op: Op)
    requires Inv(s) && !op.OpStart? && !op.OpGet? && !op.OpCancel?
    ensures Inv(Apply(s, op))
  {
    hide SaveProfile, WechatCredentials.Apply;
  }

  /**
   * Over every interleaving of starts, cancels, shutdown and the login threads: sessions and index stay in bijection, a
   * running login is always kept, and a credential is saved for a session exactly if it has ended in success.
   */
  lemma {:induction false} InvAlways(s: State, ops: seq<Op>)
    requires Inv(s)
    ensures Inv(Exec(s, ops))
    ensures IndexAgrees(Exec(s, ops)) && RunningAreKept(Exec(s, ops)) && SavedAreSuccesses(Exec(s, ops))
    decreases |ops|
  {
    if ops != [] {
      StepKeepsInv(s, ops[0]);
      InvAlways(Apply(s, ops[0]), ops[1..]);
    }
  }

  lemma EmptyIsOk()
    ensures Inv(EMPTY)
  {
  }

  /** A profile never has two running logins. */
  lemma OneLoginPerProfile(s: State, ops: seq<Op>, x: nat, y: nat)
    requires Inv(s)
    ensures var t := Exec(s, ops); Runs(t, x) && Runs(t, y) && t.all[x].profile == t.all[y].profile ==> x == y
  {
    InvAlways(s, ops);
  }

  // ---------- terminal statuses ----------

  lemma PruneOnlyDrops(s: State, now: int)
    ensures Prune(s, now).all == s.all && Prune(s, now).next == s.next
  {
    hide Listing, Prefix;
  }

  lemma TerminalStep(s: State, op: Op, id: nat)
    requires id in s.all && id < s.next && IsTerminal(s.all[id].status)
    ensures var t := Apply(s, op); id in t.all && id < t.next && t.all[id].status == s.all[id].status
  {
    hide Prune;
    if op.OpStart? || op.OpGet? || op.OpCancel? {
      PruneOnlyDrops(s, op.now);
    }
  }

  /** A session that has ended keeps its status, whatever its thread, a cancel or a shutdown does afterwards. */
  lemma {:induction false} TerminalIsFinal(s: State, ops: seq<Op>, id: nat)
    requires id in s.all && id < s.next && IsTerminal(s.all[id].status)
    ensures id in Exec(s, ops).all && Exec(s, ops).all[id].status == s.all[id].status
    decreases |ops|
  {
    if ops != [] {
      TerminalStep(s, ops[0], id);
      TerminalIsFinal(Apply(s, ops[0]), ops[1..], id);
    }
  }

  /** So a cancelled session never saves a credential, and a success is never cancelled. */
  lemma CancelAndSuccessExclude(s: State, ops: seq<Op>, id: nat)
    requires Inv(s) && id in s.all && IsTerminal(s.all[id].status)
    ensures id in Exec(s, ops).saved <==> s.all[id].status.Success?
  {
    InvAlways(s, ops);
    TerminalIsFinal(s, ops, id);
  }

  // ---------- how much is kept ----------

  lemma {:induction false} PrefixSize(list: seq<nat>, n: nat)
    requires n <= |list| && forall i, j :: 0 <= i < j < |list| ==> list[i] != list[j]
    ensures |Prefix(list, n)| == n
    decreases n
  {
    if n > 0 {
      PrefixSize(list, n - 1);
      assert Prefix(list, n) == Prefix(list, n - 1) + {list[n - 1]};
    }
  }

  lemma ListingIsDistinct(all: map<nat, Session>, ids: set<nat>, list: seq<nat>)
    requires IsListing(all, ids, list)
    ensures forall i, j :: 0 <= i < j < |list| ==> list[i] != list[j]
  {
    forall i, j | 0 <= i < j < |list| ensures list[i] != list[j] {
      assert Before(all, list[i], list[j]);
    }
  }

  /** Pruning leaves at most a hundred sessions, or none that could go; and it takes none that is running or open. */
  lemma PruneBounds(s: State, now: int)
    requires Inv(s)
    ensures var t := Prune(s, now);
            && (|t.sessions| <= MAX_RECORDS || Removable(t) == {})
            && (forall id :: id in s.sessions && id !in t.sessions ==> IsRemovable(s.all[id]))
            && (forall id :: id in t.sessions && IsRemovable(s.all[id]) ==> s.all[id].updatedAt >= now - RETENTION)
  {
    InvSessions(s);
    OutdatedAre(s, now);
    RemovablesAre(s);
    var gone := SecondPass(s, now);
    hide *;
    var t := Prune(s, now);
    assert forall id :: id in s.sessions && id !in t.sessions ==> id in Removable(s);
    assert forall id :: id in t.sessions ==> id !in Outdated(s, now);
  }

  /** What goes in the second pass, and what is left after it. */
  lemma SecondPass(s: State, now: int) returns (gone: set<nat>)
    requires Removable(s) <= s.all.Keys
    ensures Prune(s, now).sessions == s.sessions - Outdated(s, now) - gone && Prune(s, now).all == s.all
    ensures Outdated(s, now) + gone <= Removable(s)
    ensures |Prune(s, now).sessions| <= MAX_RECORDS || Removable(Prune(s, now)) == {}
  {
    hide Prefix, Listing, Drop, Removable;
    var kept := Drop(s, Outdated(s, now));
    AfterDrop(s, Outdated(s, now));
    gone := {};
    if |kept.sessions| > MAX_RECORDS {
      gone := Prefix(Listing(s.all, Removable(kept)), |kept.sessions| - MAX_RECORDS);
      SecondPassBounds(kept, gone);
      AfterDrop(kept, gone);
    }
  }

  lemma AfterDrop(s: State, gone: set<nat>)
    ensures Drop(s, gone).all == s.all && Drop(s, gone).sessions == s.sessions - gone
    ensures Removable(Drop(s, gone)) == Removable(s) - gone
  {
  }

  lemma RemovablesAre(s: State)
    ensures Removable(s) <= s.all.Keys
    ensures forall id :: id in Removable(s) <==> id in s.sessions && id in s.all && IsRemovable(s.all[id])
  {
  }

  lemma OutdatedAre(s: State, now: int)
    requires s.sessions <= s.all.Keys
    ensures forall id :: id in Outdated(s, now) <==>
                         id in s.sessions && IsRemovable(s.all[id]) && s.all[id].updatedAt < now - RETENTION
  {
  }

  lemma SecondPassBounds(s: State, gone: set<nat>)
    requires Removable(s) <= s.all.Keys && |s.sessions| > MAX_RECORDS
    requires gone == Prefix(Listing(s.all, Removable(s)), |s.sessions| - MAX_RECORDS)
    ensures gone <= Removable(s)
    ensures |Drop(s, gone).sessions| <= MAX_RECORDS || Removable(Drop(s, gone)) == {}
  {
    ExcessIsTaken(s, |s.sessions| - MAX_RECORDS);
    AfterDrop(s, gone);
    RemovablesAre(s);
    hide Prefix, Listing, Drop, Removable;
    DifferenceSize(s.sessions, gone);
  }

  lemma DifferenceSize(a: set<nat>, b: set<nat>)
    requires b <= a
    ensures |a - b| == |a| - |b|
  {
  }

  /** The excess goes, or all that can. */
  lemma ExcessIsTaken(s: State, excess: nat)
    requires Removable(s) <= s.all.Keys
    ensures var gone := Prefix(Listing(s.all, Removable(s)), excess);
            gone <= Removable(s) && (|gone| == excess || gone == Removable(s))
  {
    var list := Listing(s.all, Removable(s));
    ListingIsDistinct(s.all, Removable(s), list);
    assert forall id :: id in Prefix(list, excess) ==> id in list;
    if excess <= |list| {
      PrefixSize(list, excess);
    } else {
      assert forall id :: id in list ==> id in Prefix(list, excess);
    }
  }

  /** Of two sessions that could go, the one updated earlier never outlives the other. */
  lemma PruneTakesOldest(s: State, now: int, elder: nat, younger: nat)
    requires Inv(s) && elder in Removable(s) && younger in Removable(s) && Before(s.all, elder, younger)
    ensures elder in Prune(s, now).sessions ==> younger in Prune(s, now).sessions
  {
    var kept := Drop(s, Outdated(s, now));
    if |kept.sessions| > MAX_RECORDS && elder in Prune(s, now).sessions {
      var list := Listing(s.all, Removable(kept));
      assert elder in list && younger in list;
      var i :| 0 <= i < |list| && list[i] == elder;
      var j :| 0 <= j < |list| && list[j] == younger;
      assert i < j;
      ListingIsDistinct(s.all, Removable(kept), list);
    }
  }
}
