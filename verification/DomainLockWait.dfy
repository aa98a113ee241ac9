// Waiting for domain locks by polling: one deadline bounds the whole call, however many
// domains it wants and whatever the other transactions do between two polls.
module DomainLockWait {
  import opened Prelude
  import opened DomainLocks

  datatype Outcome = Locked | Busy | Cancelled

  // At poll k: the locks the other transactions hold, whether the caller was told to stop, and what the poll costs.
  datatype World = World(others: nat -> map<nat, nat>, cancelled: nat -> bool, cost: nat -> nat)

  const TIMEOUT := 5000
  const PAUSE := 50

  /** The distinct elements in increasing order. */
  method SortedSet(domains: seq<nat>) returns (ordered: seq<nat>)
    ensures Increasing(ordered)
    ensures forall d :: d in ordered <==> d in domains
    ensures |ordered| <= |domains|
  {
    ordered := [];
    for n := 0 to |domains|
      invariant Increasing(ordered) && |ordered| <= n
      invariant forall d :: d in ordered <==> d in domains[..n]
    {
      var d, i := domains[n], 0;
      while i < |ordered| && ordered[i] < d
        invariant i <= |ordered| && forall k :: 0 <= k < i ==> ordered[k] < d
      {
        i := i + 1;
      }
      assert domains[..n + 1] == domains[..n] + [d];
      if i == |ordered| || ordered[i] != d {
        ordered := Inserted(ordered, i, d);
      }
    }
    assert domains[..|domains|] == domains;
  }

  function Inserted(s: seq<nat>, i: nat, d: nat): (r: seq<nat>)
    requires i <= |s| && Increasing(s)
    requires (forall k :: 0 <= k < i ==> s[k] < d) && (i < |s| ==> d < s[i])
    ensures Increasing(r) && |r| == |s| + 1 && forall x :: x in r <==> x == d || x in s
  {
    assert s == s[..i] + s[i..];
    s[..i] + [d] + s[i..]
  }

  class AdvisoryLocks {
    var holder: map<nat, nat>
    var now: nat
    var polls: nat

    constructor ()
      ensures holder == map[] && polls == 0
    {
      holder, now, polls := map[], 0, 0;
    }

    ghost predicate Mine(me: nat, lock: nat)
      reads this
    {
      lock in holder && holder[lock] == me
    }

    /** Takes the lock unless another transaction holds it; nobody else's lock changes. */
    method TryLock(me: nat, lock: nat) returns (ok: bool)
      modifies this`holder
      ensures ok <==> Mine(me, lock)
      ensures ok <==> !(lock in old(holder) && old(holder)[lock] != me)
      ensures holder == if ok then old(holder)[lock := me] else old(holder)
    {
      if lock in holder && holder[lock] != me {
        return false;
      }
      holder := holder[lock := me];
      return true;
    }

    /** The others may take and release anything that is not held here. */
    method Sleep(me: nat, others: map<nat, nat>)
      modifies this`holder, this`now
      ensures now == old(now) + PAUSE
      ensures forall l :: Mine(me, l) <==> old(Mine(me, l))
    {
      var mine := map l | l in holder && holder[l] == me :: me;
      holder := (map l | l in others && others[l] != me :: others[l]) + mine;
      now := now + PAUSE;
    }

    method Rollback(me: nat)
      modifies this`holder
      ensures forall l :: !Mine(me, l)
      ensures forall l :: l in holder <==> l in old(holder) && old(holder)[l] != me
      ensures forall l :: l in holder ==> holder[l] == old(holder)[l]
    {
      holder := map l | l in holder && holder[l] != me :: holder[l];
    }

    /** Polls until the lock is taken, a stop is asked for, or the deadline has passed while another holds it. */
    method PollLock(me: nat, lock: nat, deadline: nat, w: World) returns (r: Outcome, sleeps: nat)
      modifies this
      ensures polls == old(polls) + sleeps + 1
      ensures now >= old(now) + PAUSE * sleeps
      ensures sleeps > 0 ==> old(now) + PAUSE * (sleeps - 1) < deadline
      ensures forall l :: old(Mine(me, l)) ==> Mine(me, l)
      ensures forall l :: Mine(me, l) ==> old(Mine(me, l)) || (l == lock && r.Locked?)
      ensures r.Locked? <==> Mine(me, lock)
      ensures r.Busy? ==> now >= deadline && lock in holder && holder[lock] != me
      ensures r.Cancelled? ==> w.cancelled(polls) && lock in holder && holder[lock] != me
    {
      sleeps := 0;
      var ok := TryLock(me, lock);
      now, polls := now + w.cost(polls), polls + 1;
      while !ok
        invariant polls == old(polls) + sleeps + 1
        invariant now >= old(now) + PAUSE * sleeps
        invariant sleeps > 0 ==> old(now) + PAUSE * (sleeps - 1) < deadline
        invariant forall l :: old(Mine(me, l)) ==> Mine(me, l)
        invariant forall l :: Mine(me, l) ==> old(Mine(me, l)) || (l == lock && ok)
        invariant ok <==> Mine(me, lock)
        invariant !ok ==> lock in holder && holder[lock] != me
        decreases deadline - PAUSE * sleeps, if ok then 0 else 1
      {
        if w.cancelled(polls) {
          return Cancelled, sleeps;
        }
        if now >= deadline {
          return Busy, sleeps;
        }
        Sleep(me, w.others(polls));
        sleeps := sleeps + 1;
        ok := TryLock(me, lock);
        now, polls := now + w.cost(polls), polls + 1;
      }
      return Locked, sleeps;
    }

    /** One domain under its own deadline: all or nothing, after at most one poll per started pause and two more. */
    method DomainTransitionLock(me: nat, domain: nat, hash: nat -> nat, timeout: nat, w: World) returns (r: Outcome)
      modifies this
      ensures r.Locked? ==> Mine(me, hash(domain))
      ensures !r.Locked? ==> forall l :: !Mine(me, l)
      ensures r.Busy? ==> now >= old(now) + timeout
      ensures polls <= old(polls) + (timeout + PAUSE - 1) / PAUSE + 1
    {
      var sleeps;
      r, sleeps := PollLock(me, hash(domain), now + timeout, w);
      if !r.Locked? {
        Rollback(me);
      }
    }

    /**
     * All the domains or none: on success every lock is held, otherwise the rollback has let go of everything. The
     * deadline is shared, so that the call ends after at most one poll for each domain, one for each of the hundred
     * pauses that fit before the deadline, and one more.
     */
    method DomainTransitionLocks(me: nat, domains: seq<nat>, hash: nat -> nat, w: World) returns (r: Outcome)
      modifies this
      ensures r.Locked? ==> forall d :: d in domains ==> Mine(me, hash(d))
      ensures !r.Locked? ==> forall l :: !Mine(me, l)
      ensures r.Locked? ==> forall l :: Mine(me, l) ==> old(Mine(me, l)) || exists d :: d in domains && hash(d) == l
      ensures r.Busy? ==> now >= old(now) + TIMEOUT
      ensures polls <= old(polls) + |domains| + TIMEOUT / PAUSE + 1
    {
      var ordered := SortedSet(domains);
      var start, deadline, slept := now, now + TIMEOUT, 0;
      for i := 0 to |ordered|
        invariant polls == old(polls) + i + slept
        invariant now >= start + PAUSE * slept
        invariant slept > 0 ==> PAUSE * (slept - 1) < TIMEOUT
        invariant forall k :: 0 <= k < i ==> Mine(me, hash(ordered[k]))
        invariant forall l :: Mine(me, l) ==> old(Mine(me, l)) || exists k :: 0 <= k < i && hash(ordered[k]) == l
      {
        var sleeps;
        r, sleeps := PollLock(me, hash(ordered[i]), deadline, w);
        slept := slept + sleeps;
        if !r.Locked? {
          Rollback(me);
          return;
        }
      }
      return Locked;
    }
  }
}
