// Slots for concurrent work: the client's asynchronous semaphore with its queue of waiters
// and the release closure of a claim, and the lease of a server stream.
module Slots {
  import opened Prelude

  // Claims are numbered in order of arrival. queue holds those that wait, holding those whose slot is granted and not given
  // back, over those given back; served is, for the record, the order in which waiters were granted their slot.
  datatype State = State(permits: nat, queue: seq<nat>, holding: set<nat>, over: set<nat>, next: nat, served: seq<nat>)

  function Claim(s: State): State {
    if s.permits > 0 then s.(permits := s.permits - 1, holding := s.holding + {s.next}, next := s.next + 1)
    else s.(queue := s.queue + [s.next], next := s.next + 1)
  }

  /** The semaphore's release: the slot goes to the first waiter; only without waiters does a permit become free. */
  function Release(s: State): State {
    if s.queue != [] then
      s.(queue := s.queue[1..], holding := s.holding + {s.queue[0]}, served := s.served + [s.queue[0]])
    else s.(permits := s.permits + 1)
  }

  /** Calling the closure of a granted claim: only the first call gives the slot back. */
  function GiveBack(s: State, c: nat): State {
    if c in s.holding then Release(s.(holding := s.holding - {c}, over := s.over + {c})) else s
  }

  datatype Op = OpClaim | OpGiveBack(claim: nat)

  function Apply(s: State, op: Op): State {
    match op
    case OpClaim => Claim(s)
    case OpGiveBack(c) => GiveBack(s, c)
  }

  function Exec(s: State, ops: seq<Op>): State
    decreases |ops|
  {
    if ops == [] then s else Exec(Apply(s, ops[0]), ops[1..])
  }

  function Fresh(permits: nat): State {
    State(permits, [], {}, {}, 0, [])
  }

  predicate Ascending(s: seq<nat>) {
    forall i, j :: 0 <= i < j < |s| ==> s[i] < s[j]
  }

  ghost predicate Inv(s: State, total: nat) {
    && s.permits + |s.holding| == total
    && (s.queue != [] ==> s.permits == 0)
    && Ascending(s.served + s.queue)
    && (forall c :: c in s.holding || c in s.over || c in s.queue || c in s.served ==> c < s.next)
    && (forall c :: c in s.queue ==> c !in s.holding && c !in s.over)
    && s.holding !! s.over
    && (forall c: nat :: c < s.next ==> c in s.queue || c in s.holding || c in s.over)
  }

  lemma ClaimKeepsInv(s: State, total: nat)
    requires Inv(s, total)
    ensures Inv(Claim(s), total)
  {
    var t := Claim(s);
    if s.permits == 0 {
      assert t.served + t.queue == (s.served + s.queue) + [s.next];
      assert forall i :: 0 <= i < |s.served + s.queue| ==> (s.served + s.queue)[i] in s.served + s.queue;
      assert forall c :: c in s.served + s.queue ==> c < s.next;
    }
  }

  lemma GiveBackKeepsInv(s: State, total: nat, c: nat)
    requires Inv(s, total)
    ensures Inv(GiveBack(s, c), total)
  {
    if c in s.holding {
      var t := GiveBack(s, c);
      if s.queue != [] {
        assert s.queue == [s.queue[0]] + s.queue[1..];
        assert t.served + t.queue == s.served + s.queue;
        assert (s.served + s.queue)[|s.served|] == s.queue[0];
        forall d | d in s.queue[1..] ensures d != s.queue[0] {
          var i :| 0 <= i < |s.queue[1..]| && s.queue[1..][i] == d;
          assert (s.served + s.queue)[|s.served| + i + 1] == d;
        }
      }
    }
  }

  /**
   * Over every run, closures being called however often, free permits and held slots stay the total; somebody waits only
   * while no permit is free; every claim waits, holds or is over; and the waiters are served in the order they came.
   */
  lemma {:induction false} SlotsAreConserved(s: State, total: nat, ops: seq<Op>)
    requires Inv(s, total)
    ensures Inv(Exec(s, ops), total)
    decreases |ops|
  {
    if ops != [] {
      match ops[0] {
        case OpClaim => ClaimKeepsInv(s, total);
        case OpGiveBack(c) => GiveBackKeepsInv(s, total, c);
      }
      SlotsAreConserved(Apply(s, ops[0]), total, ops[1..]);
    }
  }

  /** At most the given number of claims hold a slot at any time. */
  lemma NeverMoreThan(total: nat, ops: seq<Op>)
    ensures |Exec(Fresh(total), ops).holding| <= total
    ensures Inv(Exec(Fresh(total), ops), total)
  {
    SlotsAreConserved(Fresh(total), total, ops);
  }

  /** How many slots are really given back in a run: calls of a closure after its first do not count. */
  function GivenBack(s: State, ops: seq<Op>): nat
    decreases |ops|
  {
    if ops == [] then 0
    else (if ops[0].OpGiveBack? && ops[0].claim in s.holding then 1 else 0) + GivenBack(Apply(s, ops[0]), ops[1..])
  }

  predicate WasGranted(s: State, c: nat) {
    c in s.holding || c in s.over
  }

  lemma {:induction false} GrantsStay(s: State, ops: seq<Op>, c: nat)
    requires WasGranted(s, c)
    ensures WasGranted(Exec(s, ops), c)
    decreases |ops|
  {
    if ops != [] {
      GrantsStay(Apply(s, ops[0]), ops[1..], c);
    }
  }

  /** No wakeup is lost: a claim with k others before it is granted as soon as k + 1 slots have been given back, not before. */
  lemma {:induction false} WaiterIsServedIff(s: State, total: nat, ops: seq<Op>, k: nat)
    requires Inv(s, total) && k < |s.queue|
    ensures WasGranted(Exec(s, ops), s.queue[k]) <==> GivenBack(s, ops) > k
    decreases |ops|
  {
    NotYetGranted(s, total, k);
    hide Inv, Claim, GiveBack, WasGranted;
    if ops != [] {
      var t := Apply(s, ops[0]);
      if ops[0].OpClaim? {
        ClaimKeepsInv(s, total);
        QueueMoves(s, 0, k);
        WaiterIsServedIff(t, total, ops[1..], k);
      } else {
        GiveBackKeepsInv(s, total, ops[0].claim);
        QueueMoves(s, ops[0].claim, k);
        if ops[0].claim !in s.holding {
          WaiterIsServedIff(t, total, ops[1..], k);
        } else if k == 0 {
          GrantsStay(t, ops[1..], s.queue[0]);
        } else {
          WaiterIsServedIff(t, total, ops[1..], k - 1);
        }
      }
    }
  }

  /** A claim leaves the waiters where they are; a slot given back moves each one place up and grants the first. */
  lemma QueueMoves(s: State, c: nat, k: nat)
    requires k < |s.queue|
    ensures k < |Claim(s).queue| && Claim(s).queue[k] == s.queue[k]
    ensures c !in s.holding ==> GiveBack(s, c) == s
    ensures c in s.holding ==> GiveBack(s, c).queue == s.queue[1..] && WasGranted(GiveBack(s, c), s.queue[0])
  {
  }

  lemma NotYetGranted(s: State, total: nat, k: nat)
    requires Inv(s, total) && k < |s.queue|
    ensures !WasGranted(s, s.queue[k])
  {
  }

  // ---------- the semaphore and its claims as objects ----------

  class AsyncSemaphore {
    var permits: nat
    var waiters: seq<nat>

    constructor (permits: nat)
      ensures this.permits == permits && waiters == []
    {
      this.permits, waiters := permits, [];
    }

    /** Takes a permit at once, or queues the claim; whether it has its slot already is returned. */
    method Acquire(claim: nat) returns (granted: bool)
      modifies this
      ensures granted <==> old(permits) > 0
      ensures permits == if granted then old(permits) - 1 else old(permits)
      ensures waiters == if granted then old(waiters) else old(waiters) + [claim]
    {
      if permits > 0 {
        permits := permits - 1;
        return true;
      }
      waiters := waiters + [claim];
      return false;
    }

    /** Hands the slot to the first waiter, if there is one. */
    method Release() returns (woken: Option<nat>)
      modifies this
      ensures woken == if old(waiters) != [] then Some(old(waiters)[0]) else None
      ensures waiters == if woken.Some? then old(waiters)[1..] else []
      ensures permits == if woken.Some? then old(permits) else old(permits) + 1
    {
      if waiters != [] {
        woken := Some(waiters[0]);
        waiters := waiters[1..];
        return;
      }
      permits := permits + 1;
      return None;
    }
  }

  class CardSlots {
    const semaphore: AsyncSemaphore
    var granted: set<nat>
    var released: set<nat>
    var next: nat
    ghost var served: seq<nat>

    ghost function View(): State
      reads this, semaphore
    {
      State(semaphore.permits, semaphore.waiters, granted - released, released, next, served)
    }

    ghost predicate Valid(total: nat)
      reads this, semaphore
    {
      Inv(View(), total) && released <= granted
    }

    constructor (total: nat)
      ensures View() == Fresh(total) && Valid(total) && fresh(semaphore)
    {
      semaphore := new AsyncSemaphore(total);
      granted, released, next, served := {}, {}, 0, [];
    }

    method ClaimCardGenerationSlot(ghost total: nat) returns (claim: nat)
      requires Valid(total)
      modifies this, semaphore
      ensures Valid(total) && View() == Claim(old(View())) && claim == old(next)
    {
      ClaimKeepsInv(View(), total);
      assert next !in released;
      hide Inv;
      claim := next;
      next := next + 1;
      var now := semaphore.Acquire(claim);
      if now {
        GrantedAfter(granted, released, claim);
        granted := granted + {claim};
      }
    }

    /** The closure of a claim, which its caller has only once the slot is granted. */
    method CallRelease(claim: nat, ghost total: nat)
      requires Valid(total) && claim in granted
      modifies this, semaphore
      ensures Valid(total) && View() == GiveBack(old(View()), claim)
    {
      if claim in released {
        return;
      }
      GiveBackKeepsInv(View(), total, claim);
      FirstWaiterIsNew(View(), total, claim);
      hide Inv;
      HoldingAfter(granted, released, claim);
      released := released + {claim};
      var woken := semaphore.Release();
      if woken.Some? {
        GrantedAfter(granted, released, woken.value);
        granted := granted + {woken.value};
        served := served + [woken.value];
      }
    }
  }

  lemma FirstWaiterIsNew(s: State, total: nat, c: nat)
    requires Inv(s, total) && c in s.holding
    ensures s.queue != [] ==> s.queue[0] !in s.over && s.queue[0] != c
  {
  }

  lemma HoldingAfter(granted: set<nat>, released: set<nat>, c: nat)
    ensures granted - (released + {c}) == (granted - released) - {c}
  {
  }

  lemma GrantedAfter(granted: set<nat>, released: set<nat>, c: nat)
    requires c !in released
    ensures (granted + {c}) - released == (granted - released) + {c}
  {
  }

  // ---------- the lease of a server stream ----------

  const STREAM_SLOTS := 32

  class SseSlotLease {
    var slotReleased: bool

    constructor ()
      ensures !slotReleased
    {
      slotReleased := false;
    }
  }

  class StreamSlots {
    var free: nat
    ghost var leases: set<SseSlotLease>

    ghost function Open(): set<SseSlotLease>
      reads this, leases
    {
      set l | l in leases && !l.slotReleased
    }

    ghost predicate Valid()
      reads this, leases
    {
      free + |Open()| == STREAM_SLOTS
    }

    constructor ()
      ensures Valid() && free == STREAM_SLOTS && leases == {}
    {
      free, leases := STREAM_SLOTS, {};
      new;
      assert Open() == {};
    }

    /** A stream is refused exactly while all slots are leased. */
    method Lease() returns (lease: SseSlotLease?)
      requires Valid()
      modifies this
      ensures Valid() && (lease == null <==> old(|Open()|) == STREAM_SLOTS)
      ensures lease != null ==> fresh(lease) && leases == old(leases) + {lease} && Open() == old(Open()) + {lease}
      ensures lease == null ==> leases == old(leases)
    {
      if free == 0 {
        return null;
      }
      free := free - 1;
      lease := new SseSlotLease();
      leases := leases + {lease};
      assert Open() == old(Open()) + {lease};
    }

    /** However many paths of a response release the lease, its slot comes back once, and never more slots than there are. */
    method ReleaseLease(lease: SseSlotLease)
      requires Valid() && lease in leases
      modifies this`free, lease
      ensures Valid() && lease.slotReleased && Open() == old(Open()) - {lease}
      ensures free == if old(lease.slotReleased) then old(free) else old(free) + 1
      ensures free <= STREAM_SLOTS
    {
      ghost var before := Open();
      if lease.slotReleased {
        assert before == before - {lease};
        return;
      }
      lease.slotReleased := true;
      free := free + 1;
      assert Open() == before - {lease} && lease in before;
      assert |before - {lease}| == |before| - 1;
    }
  }
}
