// The upgrade that rekeys ordinary website methods by their full entry URL: what the four
// tables are afterwards, as a function of what they were, and what that function keeps.
// A method's siteKey stands for the key computed from its entry URL.
module UrlRekeying {
  import opened Prelude

  datatype Status = Active | Inactive | Disabled | OtherStatus

  // reviewedAt is the place of the printed review time in string order.
  datatype Method = Method(domain: string, siteKey: string, ordinary: bool, approved: bool, status: Status,
                           reviewedAt: Option<int>, source: nat)

  datatype HandoverState =
    | ShadowPending | ShadowRunning | ShadowPassed | Blocked | Ready | Cutover | Eligible
    | ShadowFailed | Finished

  // The three messages the upgrade writes; Note is any other text.
  datatype Problem = UrlsDiffer | NotTheOwner | AnotherOwns | Note(text: string)

  datatype Handover = Handover(domain: string, legacy: Option<nat>, plugin: nat, state: HandoverState, error: Problem)

  datatype CompareStatus = Queued | Running | Failed | Done

  datatype Comparison = Comparison(handover: nat, status: CompareStatus, error: Problem)

  datatype Tables = Tables(methods: map<nat, Method>, mappings: map<string, nat>, handovers: map<nat, Handover>,
                           comparisons: map<nat, Comparison>, sources: map<nat, bool>)

  // Foreign keys.
  predicate Valid(db: Tables) {
    && (forall d :: d in db.mappings ==> db.mappings[d] in db.methods)
    && (forall h :: h in db.handovers ==> db.handovers[h].plugin in db.methods)
  }

  // ---------- choosing one of several rows ----------

  datatype Rank = Rank(first: int, second: int, third: int, id: nat)

  predicate Below(x: Rank, y: Rank) {
    || x.first < y.first
    || (x.first == y.first && x.second < y.second)
    || (x.first == y.first && x.second == y.second && x.third < y.third)
    || (x.first == y.first && x.second == y.second && x.third == y.third && x.id < y.id)
  }

  predicate RankedById(ranks: map<nat, Rank>) {
    forall id :: id in ranks ==> ranks[id].id == id
  }

  ghost predicate IsTop(ranks: map<nat, Rank>, w: nat) {
    w in ranks && forall id :: id in ranks && id != w ==> Below(ranks[id], ranks[w])
  }

  lemma {:induction false} TopExists(ranks: map<nat, Rank>)
    requires ranks != map[] && RankedById(ranks)
    ensures exists w :: IsTop(ranks, w)
    decreases |ranks|
  {
    var x :| x in ranks;
    var rest := ranks - {x};
    if rest == map[] {
      assert forall id :: id in ranks && id != x ==> id in rest;
      assert IsTop(ranks, x);
    } else {
      TopExists(rest);
      var w :| IsTop(rest, w);
      assert forall id :: id in ranks && id != x ==> id in rest;
      if Below(ranks[w], ranks[x]) {
        assert IsTop(ranks, x);
      } else {
        assert IsTop(ranks, w);
      }
    }
  }

  /** The one row above all the others. */
  ghost function Top(ranks: map<nat, Rank>): (w: nat)
    requires ranks != map[] && RankedById(ranks)
    ensures IsTop(ranks, w)
    ensures forall v :: IsTop(ranks, v) ==> v == w
  {
    TopExists(ranks);
    var w :| IsTop(ranks, w);
    w
  }

  // ---------- methods and the published mapping ----------

  predicate Affected(db: Tables, id: nat) {
    id in db.methods && db.methods[id].ordinary
  }

  predicate PublishedBefore(db: Tables, id: nat) {
    Affected(db, id) && id in db.mappings.Values
  }

  /** Newest review last; a method never reviewed before any that was. */
  function Recency(m: Method, first: int, id: nat): Rank {
    match m.reviewedAt
    case None => Rank(first, 0, 0, id)
    case Some(at) => Rank(first, 1, at, id)
  }

  function Publishers(db: Tables, key: string): map<nat, Rank> {
    map id | id in db.methods && PublishedBefore(db, id) && db.methods[id].siteKey == key ::
      Recency(db.methods[id], if db.methods[id].status.Active? then 1 else 0, id)
  }

  /** A hostname under which something else than key was published. */
  predicate CollisionDomain(db: Tables, domain: string, key: string) {
    && (exists id :: id in db.methods && PublishedBefore(db, id) && db.methods[id].domain == domain)
    && (forall id :: id in db.methods && PublishedBefore(db, id) && db.methods[id].domain == domain ==>
                       db.methods[id].siteKey != key)
  }

  predicate IsSuppressed(db: Tables, id: nat, key: string) {
    && Affected(db, id)
    && db.methods[id].siteKey == key
    && db.methods[id].approved
    && db.methods[id].status in {Inactive, Disabled}
    && CollisionDomain(db, db.methods[id].domain, key)
  }

  function Suppressed(db: Tables, key: string): map<nat, Rank> {
    map id | id in db.methods && IsSuppressed(db, id, key) :: Recency(db.methods[id], 0, id)
  }

  ghost function Winner(db: Tables, key: string): Option<nat> {
    if Publishers(db, key) == map[] then None else Some(Top(Publishers(db, key)))
  }

  ghost function Newcomer(db: Tables, key: string): Option<nat> {
    if Publishers(db, key) == map[] && Suppressed(db, key) != map[] then Some(Top(Suppressed(db, key))) else None
  }

  ghost function Rebuilt(db: Tables, key: string): Option<nat> {
    if Winner(db, key).Some? then Winner(db, key) else Newcomer(db, key)
  }

  ghost predicate Loser(db: Tables, id: nat) {
    PublishedBefore(db, id) && Winner(db, db.methods[id].siteKey) != Some(id)
  }

  function Keys(db: Tables): set<string> {
    set id | id in db.methods && Affected(db, id) :: db.methods[id].siteKey
  }

  function Retained(db: Tables): map<string, nat> {
    map d | d in db.mappings && !Affected(db, db.mappings[d]) :: db.mappings[d]
  }

  ghost function MappingsAfter(db: Tables): map<string, nat> {
    Retained(db) + map key | key in Keys(db) && Rebuilt(db, key).Some? :: Rebuilt(db, key).value
  }

  ghost function MethodsAfter(db: Tables): map<nat, Method> {
    map id | id in db.methods ::
      var m := db.methods[id];
      m.(domain := if m.ordinary then m.siteKey else m.domain,
         status := if Loser(db, id) && m.status.Active? then Inactive else m.status)
  }

  // ---------- handovers ----------

  predicate InForce(s: HandoverState) {
    !s.ShadowFailed? && !s.Finished?
  }

  function StateRank(s: HandoverState): int {
    match s
    case ShadowPending => 0
    case ShadowRunning => 1
    case ShadowPassed => 2
    case Blocked => 3
    case Ready => 4
    case Cutover => 5
    case Eligible => 6
    case _ => -1
  }

  /** The key the legacy method of a handover has after the upgrade. */
  function LegacyKey(methods: map<nat, Method>, h: Handover): Option<string> {
    if h.legacy.Some? && h.legacy.value in methods then
      var m := methods[h.legacy.value];
      Some(if m.ordinary then m.siteKey else m.domain)
    else None
  }

  /** The method a handover in force says is published. */
  function Owner(h: Handover): Option<nat> {
    if h.state.Cutover? || h.state.Eligible? then Some(h.plugin) else h.legacy
  }

  predicate Concerned(db: Tables, id: nat) {
    id in db.handovers && Affected(db, db.handovers[id].plugin)
  }

  function PluginKey(db: Tables, id: nat): string {
    if Concerned(db, id) then db.methods[db.handovers[id].plugin].siteKey else ""
  }

  predicate SharesKey(db: Tables, id: nat) {
    Concerned(db, id) && LegacyKey(db.methods, db.handovers[id]) == Some(PluginKey(db, id))
  }

  ghost predicate OwnerPublished(db: Tables, id: nat) {
    && Concerned(db, id)
    && Winner(db, PluginKey(db, id)).Some?
    && Owner(db.handovers[id]) == Winner(db, PluginKey(db, id))
  }

  ghost predicate Sound(db: Tables, id: nat) {
    SharesKey(db, id) && OwnerPublished(db, id) && InForce(db.handovers[id].state)
  }

  ghost function SoundAt(db: Tables, key: string): map<nat, Rank> {
    map id | id in db.handovers && Sound(db, id) && PluginKey(db, id) == key ::
      Rank(StateRank(db.handovers[id].state), 0, 0, id)
  }

  /** A sound handover that is the furthest advanced of its key, and of those the newest. */
  ghost predicate Survives(db: Tables, id: nat) {
    && Sound(db, id)
    && SoundAt(db, PluginKey(db, id)) != map[]
    && Top(SoundAt(db, PluginKey(db, id))) == id
  }

  /** Why a handover is ended, if it is. */
  ghost function Verdict(db: Tables, id: nat): Option<Problem> {
    if !Concerned(db, id) || !InForce(db.handovers[id].state) then None
    else if !SharesKey(db, id) then Some(UrlsDiffer)
    else if !OwnerPublished(db, id) then Some(NotTheOwner)
    else if Survives(db, id) then None
    else Some(AnotherOwns)
  }

  function End(h: Handover, error: Problem): Handover {
    h.(state := ShadowFailed, legacy := None, error := error)
  }

  /** Terminal history moves to the new key unless its legacy method has another one. */
  predicate Follows(db: Tables, id: nat) {
    && Concerned(db, id)
    && (LegacyKey(db.methods, db.handovers[id]).None? || SharesKey(db, id))
  }

  ghost function HandoverAfter(db: Tables, id: nat): Handover
    requires id in db.handovers
  {
    var h := db.handovers[id];
    match Verdict(db, id)
    case Some(error) => End(h, error)
    case None => if Follows(db, id) then h.(domain := PluginKey(db, id)) else h
  }

  ghost function ComparisonAfter(db: Tables, c: Comparison): Comparison {
    if c.status in {Queued, Running} && Verdict(db, c.handover).Some? then
      Comparison(c.handover, Failed, Verdict(db, c.handover).value)
    else c
  }

  // ---------- sources ----------

  ghost predicate Reconciled(db: Tables, s: nat) {
    || (exists id :: id in db.methods && Loser(db, id) && db.methods[id].source == s)
    || (exists key :: key in Keys(db) && Newcomer(db, key).Some? && db.methods[Newcomer(db, key).value].source == s)
  }

  /** An active method of the source is published. */
  predicate Runnable(methods: map<nat, Method>, mappings: map<string, nat>, s: nat) {
    exists d :: d in mappings && mappings[d] in methods && methods[mappings[d]].source == s
                && methods[mappings[d]].status.Active?
  }

  ghost function Upgraded(db: Tables): Tables {
    Tables(
      MethodsAfter(db),
      MappingsAfter(db),
      map id | id in db.handovers :: HandoverAfter(db, id),
      map id | id in db.comparisons :: ComparisonAfter(db, db.comparisons[id]),
      map s | s in db.sources ::
        if Reconciled(db, s) then Runnable(MethodsAfter(db), MappingsAfter(db), s) else db.sources[s])
  }
}
