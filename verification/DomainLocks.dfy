// Taking several domain locks in sorted order: advisory locks are on a hash of the domain
// name, are reentrant within a transaction, and are all released when it ends.
// Domains are numbered in string order.
module DomainLocks {
  import opened Prelude

  datatype Phase = Acquiring | Inside | Ended

  // The first got of the wanted domains are locked.
  datatype Call = Call(want: seq<nat>, got: nat, phase: Phase)

  datatype Op =
    | OpTry(caller: nat)
    | OpLeave(caller: nat)
    | OpGiveUp(caller: nat)

  type State = map<nat, Call>

  predicate Increasing(s: seq<nat>) {
    forall i, j :: 0 <= i < j < |s| ==> s[i] < s[j]
  }

  predicate Holds(s: State, hash: nat -> nat, caller: nat, lock: nat) {
    caller in s && !s[caller].phase.Ended? && s[caller].got <= |s[caller].want|
    && exists i :: 0 <= i < s[caller].got && hash(s[caller].want[i]) == lock
  }

  predicate HeldByOther(s: State, hash: nat -> nat, caller: nat, lock: nat) {
    exists other :: other in s && other != caller && Holds(s, hash, other, lock)
  }

  predicate Waiting(s: State, caller: nat) {
    caller in s && s[caller].phase.Acquiring? && s[caller].got < |s[caller].want|
  }

  function NextDomain(s: State, caller: nat): nat
    requires Waiting(s, caller)
  {
    s[caller].want[s[caller].got]
  }

  predicate CanTake(s: State, hash: nat -> nat, caller: nat) {
    Waiting(s, caller) && !HeldByOther(s, hash, caller, hash(NextDomain(s, caller)))
  }

  /** One poll: takes the next lock if no other transaction holds it. */
  function Try(s: State, hash: nat -> nat, caller: nat): State {
    if CanTake(s, hash, caller) then
      var got := s[caller].got + 1;
      s[caller := s[caller].(got := got, phase := if got == |s[caller].want| then Inside else Acquiring)]
    else s
  }

  function Leave(s: State, caller: nat, from: Phase): State {
    if caller in s && s[caller].phase == from then s[caller := s[caller].(phase := Ended)] else s
  }

  function Apply(s: State, hash: nat -> nat, op: Op): State {
    match op
    case OpTry(c) => Try(s, hash, c)
    case OpLeave(c) => Leave(s, c, Inside)
    case OpGiveUp(c) => Leave(s, c, Acquiring)
  }

  function Exec(s: State, hash: nat -> nat, ops: seq<Op>): State
    decreases |ops|
  {
    if ops == [] then s else Exec(Apply(s, hash, ops[0]), hash, ops[1..])
  }

  // Any number of callers, each wanting any increasing non-empty list of domains.
  predicate Fresh(s: State) {
    forall c :: c in s ==> s[c].phase.Acquiring? && s[c].got == 0 && s[c].want != [] && Increasing(s[c].want)
  }

  // ---------- mutual exclusion ----------

  ghost predicate Exclusive(s: State, hash: nat -> nat) {
    forall c, d, lock :: Holds(s, hash, c, lock) && Holds(s, hash, d, lock) ==> c == d
  }

  ghost predicate Shape(s: State) {
    forall c :: c in s ==>
      && s[c].got <= |s[c].want| && Increasing(s[c].want)
      && (s[c].phase.Inside? ==> s[c].got == |s[c].want|)
      && (s[c].phase.Acquiring? ==> s[c].got < |s[c].want|)
  }

  lemma StepKeepsExclusive(s: State, hash: nat -> nat, op: Op)
    requires Shape(s) && Exclusive(s, hash)
    ensures Shape(Apply(s, hash, op)) && Exclusive(Apply(s, hash, op), hash)
  {
    var t := Apply(s, hash, op);
    forall c, d, lock | Holds(t, hash, c, lock) && Holds(t, hash, d, lock) && c != d
      ensures false
    {
      HoldsBefore(s, hash, op, c, lock);
      HoldsBefore(s, hash, op, d, lock);
    }
  }

  lemma HoldsBefore(s: State, hash: nat -> nat, op: Op, c: nat, lock: nat)
    requires Shape(s) && Holds(Apply(s, hash, op), hash, c, lock)
    ensures Holds(s, hash, c, lock) || (op == OpTry(c) && CanTake(s, hash, c) && lock == hash(NextDomain(s, c)))
  {
    var t := Apply(s, hash, op);
    var i :| 0 <= i < t[c].got && hash(t[c].want[i]) == lock;
    assert t[c].want == s[c].want;
    if i < s[c].got {
      assert Holds(s, hash, c, lock);
    }
  }

  /** Whatever the callers want and however they interleave, no lock ever has two holders. */
  lemma {:induction false} ExclusiveAlways(s: State, hash: nat -> nat, ops: seq<Op>)
    requires Shape(s) && Exclusive(s, hash)
    ensures Shape(Exec(s, hash, ops)) && Exclusive(Exec(s, hash, ops), hash)
    decreases |ops|
  {
    if ops != [] {
      StepKeepsExclusive(s, hash, ops[0]);
      ExclusiveAlways(Apply(s, hash, ops[0]), hash, ops[1..]);
    }
  }

  lemma FreshIsOk(s: State, hash: nat -> nat)
    requires Fresh(s)
    ensures Shape(s) && Exclusive(s, hash)
  {
  }

  /** Two callers inside at once want no common domain. */
  lemma InsideTogetherIsDisjoint(s: State, hash: nat -> nat, ops: seq<Op>, c: nat, d: nat)
    requires Fresh(s) && c != d
    ensures var t := Exec(s, hash, ops);
            c in t && d in t && t[c].phase.Inside? && t[d].phase.Inside? ==>
              forall x :: !(x in t[c].want && x in t[d].want)
  {
    FreshIsOk(s, hash);
    ExclusiveAlways(s, hash, ops);
    var t := Exec(s, hash, ops);
    if c in t && d in t && t[c].phase.Inside? && t[d].phase.Inside? {
      forall x | x in t[c].want && x in t[d].want ensures false {
        assert Holds(t, hash, c, hash(x));
        assert Holds(t, hash, d, hash(x));
        assert false;
      }
    }
  }

  // ---------- progress ----------

  predicate Unfinished(s: State, c: nat) {
    c in s && !s[c].phase.Ended?
  }

  // No caller can go on, although some have not finished.
  ghost predicate Stuck(s: State, hash: nat -> nat) {
    && (exists c :: Unfinished(s, c))
    && (forall c :: c in s ==> !s[c].phase.Inside? && !CanTake(s, hash, c))
  }

  /** The domains with one hash stand together in the order. */
  ghost predicate Convex(hash: nat -> nat) {
    forall x: nat, y: nat, z: nat :: x < y < z && hash(x) == hash(z) ==> hash(y) == hash(x)
  }

  lemma InjectiveIsConvex(hash: nat -> nat)
    requires forall x: nat, y: nat :: hash(x) == hash(y) ==> x == y
    ensures Convex(hash)
  {
  }

  lemma OwnLockIsFree(s: State, hash: nat -> nat, c: nat)
    requires Exclusive(s, hash) && Waiting(s, c) && Holds(s, hash, c, hash(NextDomain(s, c)))
    ensures CanTake(s, hash, c)
  {
    hide Holds;
  }

  /** Whoever blocks a caller is itself waiting for a later domain. */
  lemma BlockerWaitsForLater(s: State, hash: nat -> nat, c: nat) returns (d: nat)
    requires Shape(s) && Exclusive(s, hash) && Convex(hash) && Stuck(s, hash) && Waiting(s, c)
    ensures Waiting(s, d) && NextDomain(s, c) < NextDomain(s, d)
  {
    hide Exclusive, Convex, CanTake;
    var x := NextDomain(s, c);
    d := Blocker(s, hash, c);
    var i :| 0 <= i < s[d].got && hash(s[d].want[i]) == hash(x);
    var y, z := s[d].want[i], NextDomain(s, d);
    if hash(z) == hash(y) {
      assert Holds(s, hash, d, hash(z));
      OwnLockIsFree(s, hash, d);
    } else {
      ClassStaysBelow(hash, x, y, z);
    }
  }

  lemma Blocker(s: State, hash: nat -> nat, c: nat) returns (d: nat)
    requires Shape(s) && Stuck(s, hash) && Waiting(s, c)
    ensures d != c && Waiting(s, d) && Holds(s, hash, d, hash(NextDomain(s, c)))
    ensures !CanTake(s, hash, d)
  {
    assert !CanTake(s, hash, c);
    d :| d in s && d != c && Holds(s, hash, d, hash(NextDomain(s, c)));
  }

  lemma ClassStaysBelow(hash: nat -> nat, x: nat, y: nat, z: nat)
    requires Convex(hash) && y < z && hash(x) == hash(y) && hash(z) != hash(y)
    ensures x < z
  {
  }

  predicate AtOrAbove(s: State, c: nat, d: nat) {
    Waiting(s, c) && Waiting(s, d) && NextDomain(s, c) <= NextDomain(s, d)
  }

  function Above(s: State, c: nat): set<nat> {
    set d | d in s && AtOrAbove(s, c, d)
  }

  lemma {:induction false} ClimbsForever(s: State, hash: nat -> nat, c: nat)
    requires Shape(s) && Exclusive(s, hash) && Convex(hash) && Stuck(s, hash) && Waiting(s, c)
    ensures false
    decreases |Above(s, c)|
  {
    hide Exclusive, Shape, Convex, Stuck;
    var d := BlockerWaitsForLater(s, hash, c);
    assert Above(s, d) <= Above(s, c) - {c};
    SubsetSize(Above(s, d), Above(s, c) - {c});
    ClimbsForever(s, hash, d);
  }

  /** With convex hashes, and so with injective ones, no run ever gets stuck. */
  lemma ConvexNeverSticks(s: State, hash: nat -> nat, ops: seq<Op>)
    requires Fresh(s) && Convex(hash)
    ensures !Stuck(Exec(s, hash, ops), hash)
  {
    FreshIsOk(s, hash);
    ExclusiveAlways(s, hash, ops);
    var t := Exec(s, hash, ops);
    if Stuck(t, hash) {
      var c :| Unfinished(t, c);
      ClimbsForever(t, hash, c);
    }
  }

  /** Where a domain stands between two that share a hash, two callers in sorted order can block each other. */
  lemma CollisionSticks(hash: nat -> nat, x: nat, y: nat, z: nat)
    requires x < y < z && hash(x) == hash(z) && hash(y) != hash(x)
    ensures var s := map[0 := Call([y, z], 0, Acquiring), 1 := Call([x, y], 0, Acquiring)];
            Fresh(s) && Stuck(Exec(s, hash, [OpTry(0), OpTry(1)]), hash)
  {
    var s: State := map[0 := Call([y, z], 0, Acquiring), 1 := Call([x, y], 0, Acquiring)];
    var s1 := Try(s, hash, 0);
    assert s1 == map[0 := Call([y, z], 1, Acquiring), 1 := Call([x, y], 0, Acquiring)];
    assert !HeldByOther(s1, hash, 1, hash(x));
    var s2 := Try(s1, hash, 1);
    assert s2 == map[0 := Call([y, z], 1, Acquiring), 1 := Call([x, y], 1, Acquiring)];
    assert [OpTry(0), OpTry(1)][1..] == [OpTry(1)];
    assert Exec(s1, hash, [OpTry(1)]) == s2;
    assert hash(s2[0].want[0]) == hash(y) && hash(s2[1].want[0]) == hash(z);
    assert Holds(s2, hash, 0, hash(y)) && Holds(s2, hash, 1, hash(z));
    assert Unfinished(s2, 0);
  }

  ghost predicate NeverSticks(hash: nat -> nat) {
    forall s: State, ops :: Fresh(s) ==> !Stuck(Exec(s, hash, ops), hash)
  }

  /** Sorted acquisition is free of deadlock, without help from the deadline, exactly if the lock hash is convex. */
  lemma DeadlockFreeIffConvex(hash: nat -> nat)
    ensures NeverSticks(hash) <==> Convex(hash)
  {
    hide Exec, Stuck, Fresh;
    if Convex(hash) {
      forall s: State, ops | Fresh(s) ensures !Stuck(Exec(s, hash, ops), hash) {
        ConvexNeverSticks(s, hash, ops);
      }
    } else {
      var x: nat, y: nat, z: nat :| x < y < z && hash(x) == hash(z) && hash(y) != hash(x);
      CollisionSticks(hash, x, y, z);
    }
  }
}
