// Stored credentials of WeChat profiles: verdicts about a credential only touch the row that
// still holds it, so that a late verdict never spoils a renewed login.
module WechatCredentials {
  import opened Prelude

  datatype Credential = Credential(token: string, cookie: string)

  datatype ProfileStatus = Valid | Expired | Unconfigured

  datatype Profile = Profile(credential: Credential, status: ProfileStatus, lastError: Option<string>)

  type Store = map<string, Profile>

  const NOTHING := Credential("", "")

  datatype Op =
    | OpSave(profile: string, credential: Credential)
    | OpVerified(profile: string, credential: Credential)
    | OpExpired(profile: string, reason: string, about: Option<Credential>)
    | OpClear(profile: string)

  function SaveProfile(s: Store, p: string, c: Credential): Store {
    s[p := Profile(c, Valid, None)]
  }

  function MarkVerified(s: Store, p: string, c: Credential): Store {
    if p !in s || s[p].credential != c then s else s[p := s[p].(status := Valid, lastError := None)]
  }

  function Shortened(reason: string): string {
    if |reason| <= 1000 then reason else reason[..1000]
  }

  /** Without a credential to compare the verdict applies to any; a missing row becomes an expired one. */
  function MarkExpired(s: Store, p: string, reason: string, about: Option<Credential>): Store {
    if p !in s then s[p := Profile(NOTHING, Expired, Some(Shortened(reason)))]
    else if about.Some? && s[p].credential != about.value then s
    else s[p := s[p].(status := Expired, lastError := Some(Shortened(reason)))]
  }

  /** A logout blanks the row and keeps it. */
  function ClearCredential(s: Store, p: string): Store {
    s[p := Profile(NOTHING, Unconfigured, None)]
  }

  function Apply(s: Store, op: Op): Store {
    match op
    case OpSave(p, c) => SaveProfile(s, p, c)
    case OpVerified(p, c) => MarkVerified(s, p, c)
    case OpExpired(p, reason, about) => MarkExpired(s, p, reason, about)
    case OpClear(p) => ClearCredential(s, p)
  }

  function Exec(s: Store, ops: seq<Op>): Store
    decreases |ops|
  {
    if ops == [] then s else Exec(Apply(s, ops[0]), ops[1..])
  }

  /** A verdict about another credential than c, or anything about another profile than p. */
  predicate IsStale(op: Op, p: string, c: Credential) {
    op.profile != p
    || (op.OpVerified? && op.credential != c)
    || (op.OpExpired? && op.about.Some? && op.about.value != c)
  }

  lemma {:induction false} StaleVerdictsChangeNothing(s: Store, p: string, ops: seq<Op>)
    requires p in s && forall k :: 0 <= k < |ops| ==> IsStale(ops[k], p, s[p].credential)
    ensures p in Exec(s, ops) && Exec(s, ops)[p] == s[p]
    decreases |ops|
  {
    if ops != [] {
      assert IsStale(ops[0], p, s[p].credential);
      StaleVerdictsChangeNothing(Apply(s, ops[0]), p, ops[1..]);
    }
  }

  /**
   * A login, whatever the row was before, leaves its credential valid and without error, and no number of late verdicts
   * about other credentials, nor anything done to other profiles, changes that.
   */
  lemma RenewedLoginSurvivesStaleVerdicts(s: Store, p: string, c: Credential, ops: seq<Op>)
    requires forall k :: 0 <= k < |ops| ==> IsStale(ops[k], p, c)
    ensures var after := Exec(SaveProfile(s, p, c), ops); p in after && after[p] == Profile(c, Valid, None)
  {
    StaleVerdictsChangeNothing(SaveProfile(s, p, c), p, ops);
  }

  /** A row once there stays, and its credential changes only by a login or a logout of its profile. */
  lemma {:induction false} OnlyLoginsChangeCredentials(s: Store, p: string, ops: seq<Op>)
    requires p in s
    requires forall k :: 0 <= k < |ops| && ops[k].profile == p ==> ops[k].OpVerified? || ops[k].OpExpired?
    ensures p in Exec(s, ops) && Exec(s, ops)[p].credential == s[p].credential
    decreases |ops|
  {
    if ops != [] {
      OnlyLoginsChangeCredentials(Apply(s, ops[0]), p, ops[1..]);
    }
  }

  /** The credential of profile p after ops if it was c before: that of the last login or logout. */
  function LastStored(ops: seq<Op>, p: string, c: Credential): Credential
    decreases |ops|
  {
    if ops == [] then c
    else
      var last, rest := ops[|ops| - 1], ops[..|ops| - 1];
      if last == OpClear(p) then NOTHING
      else if last.OpSave? && last.profile == p then last.credential
      else LastStored(rest, p, c)
  }

  lemma {:induction false} ExecSnoc(s: Store, ops: seq<Op>, op: Op)
    ensures Exec(s, ops + [op]) == Apply(Exec(s, ops), op)
    decreases |ops|
  {
    if ops == [] {
      assert ops + [op] == [op] && [op][1..] == [];
    } else {
      assert (ops + [op])[1..] == ops[1..] + [op];
      ExecSnoc(Apply(s, ops[0]), ops[1..], op);
    }
  }

  lemma {:induction false} HoldsLastStored(s: Store, p: string, ops: seq<Op>)
    requires p in s
    ensures p in Exec(s, ops) && Exec(s, ops)[p].credential == LastStored(ops, p, s[p].credential)
    decreases |ops|
  {
    if ops != [] {
      var last, rest := ops[|ops| - 1], ops[..|ops| - 1];
      HoldsLastStored(s, p, rest);
      assert ops == rest + [last];
      ExecSnoc(s, rest, last);
    }
  }

  /**
   * A probe reads the stored credential, and its verdict comes after any number of other operations: it takes effect exactly
   * if the last login or logout among them, if any, stored that same credential again, and otherwise changes nothing.
   */
  lemma LateVerdictCountsIff(s: Store, p: string, ops: seq<Op>, reason: string)
    requires p in s
    ensures var c, t := s[p].credential, Exec(s, ops);
            var counts := LastStored(ops, p, c) == c;
            && p in t
            && MarkVerified(t, p, c) == (if counts then t[p := Profile(c, Valid, None)] else t)
            && MarkExpired(t, p, reason, Some(c)) ==
               (if counts then t[p := Profile(c, Expired, Some(Shortened(reason)))] else t)
  {
    HoldsLastStored(s, p, ops);
  }
}
