// The rekeying upgrade as it runs: loops that fill dictionaries and then update the four
// tables in place. Every loop takes its rows in an arbitrary order, so that what is
// proved here is independent of the order in which the database returns them.
module UrlRekeyingRun {
  import opened Prelude
  import opened UrlRekeying
  import opened UrlRekeyingSafety

  method MaxRow(ranks: map<nat, Rank>) returns (w: nat)
    requires ranks != map[] && RankedById(ranks)
    ensures IsTop(ranks, w)
  {
    w :| w in ranks;
    var todo := ranks.Keys - {w};
    while todo != {}
      invariant todo <= ranks.Keys && w in ranks && w !in todo
      invariant forall id :: id in ranks && id !in todo && id != w ==> Below(ranks[id], ranks[w])
      decreases todo
    {
      var id :| id in todo;
      todo := todo - {id};
      if Below(ranks[w], ranks[id]) {
        w := id;
      }
    }
  }

  ghost predicate AreWinners(db: Tables, winners: map<string, nat>, keys: set<string>) {
    forall key :: (key in winners <==> key in keys && Winner(db, key).Some?)
                  && (key in winners ==> Winner(db, key) == Some(winners[key]))
  }

  method FindWinners(rows: map<nat, Method>, published: set<nat>, keys: set<string>, ghost db: Tables)
    returns (winners: map<string, nat>)
    requires rows == db.methods
    requires ArePublished(db, published)
    ensures AreWinners(db, winners, keys)
  {
    hide CollisionDomain, IsSuppressed;
    winners := map[];
    var todo := keys;
    while todo != {}
      invariant todo <= keys
      invariant AreWinners(db, winners, keys - todo)
      decreases todo
    {
      var key :| key in todo;
      todo := todo - {key};
      var ranks := map id | id in rows && id in published && rows[id].siteKey == key ::
        Recency(rows[id], if rows[id].status.Active? then 1 else 0, id);
      assert ranks == Publishers(db, key);
      if ranks != map[] {
        var w := MaxRow(ranks);
        winners := winners[key := w];
      }
    }
    assert keys - todo == keys;
  }

  ghost predicate ArePublished(db: Tables, published: set<nat>) {
    forall id :: id in published <==> PublishedBefore(db, id)
  }

  /** The new keys published under each old domain. */
  function KeysByDomain(rows: map<nat, Method>, published: set<nat>): map<string, set<string>> {
    var domains := set id | id in rows && id in published :: rows[id].domain;
    map d | d in domains :: set id | id in rows && id in published && rows[id].domain == d :: rows[id].siteKey
  }

  lemma SuppressedAre(db: Tables, collisionDomains: set<string>, key: string)
    requires forall d :: d in collisionDomains <==> CollisionDomain(db, d, key)
    ensures Suppressed(db, key) ==
            map id | id in db.methods && db.methods[id].ordinary && db.methods[id].siteKey == key && db.methods[id].approved
                     && db.methods[id].status in {Inactive, Disabled} && db.methods[id].domain in collisionDomains ::
              Recency(db.methods[id], 0, id)
  {
    hide CollisionDomain;
  }

  /** The method that gets the key: the best that was published there, or else the newest suppressed one. */
  method ChooseFor(rows: map<nat, Method>, published: set<nat>, publishedKeys: map<string, set<string>>,
                   winners: map<string, nat>, key: string, ghost db: Tables)
    returns (choice: Option<nat>, newcomer: bool)
    requires rows == db.methods && key in Keys(db) && AreWinners(db, winners, Keys(db)) && ArePublished(db, published)
    requires publishedKeys == KeysByDomain(rows, published)
    ensures choice == Rebuilt(db, key)
    ensures newcomer == Newcomer(db, key).Some?
    ensures newcomer ==> choice == Newcomer(db, key) && choice.value in rows
  {
    hide Keys, PublishedBefore, Publishers, IsSuppressed;
    if key in winners {
      return Some(winners[key]), false;
    }
    var collisionDomains := set d | d in publishedKeys && key !in publishedKeys[d];
    assert forall d :: d in collisionDomains <==> CollisionDomain(db, d, key);
    var ranks := map id | id in rows && rows[id].ordinary && rows[id].siteKey == key && rows[id].approved
                          && rows[id].status in {Inactive, Disabled} && rows[id].domain in collisionDomains ::
      Recency(rows[id], 0, id);
    SuppressedAre(db, collisionDomains, key);
    if ranks == map[] {
      return None, false;
    }
    var w := MaxRow(ranks);
    return Some(w), true;
  }

  // ---------- judging the handovers ----------

  /** The first pass over the rows in done: what ends at once, and what is kept per key for the second pass. */
  ghost predicate FirstPass(db: Tables, done: set<nat>, ended: map<nat, Problem>, kept: map<string, set<nat>>) {
    && (forall id :: id in ended <==> id in done && Verdict(db, id).Some? && !Sound(db, id))
    && (forall id :: id in ended ==> Verdict(db, id) == Some(ended[id]))
    && (forall id :: id in done && Sound(db, id) ==> PluginKey(db, id) in kept && id in kept[PluginKey(db, id)])
    && (forall key, id :: key in kept && id in kept[key] ==> id in done && Sound(db, id) && PluginKey(db, id) == key)
    && (forall key :: key in kept ==> kept[key] != {})
  }

  lemma FirstPassStarts(db: Tables)
    ensures FirstPass(db, {}, map[], map[])
  {
  }

  lemma EndsAtOnce(db: Tables, done: set<nat>, ended: map<nat, Problem>, kept: map<string, set<nat>>, id: nat, error: Problem)
    requires FirstPass(db, done, ended, kept) && Verdict(db, id) == Some(error) && !Sound(db, id)
    ensures FirstPass(db, done + {id}, ended[id := error], kept)
  {
    hide Sound, Verdict;
  }

  function Keep(kept: map<string, set<nat>>, key: string, id: nat): map<string, set<nat>> {
    kept[key := (if key in kept then kept[key] else {}) + {id}]
  }

  lemma IsKept(db: Tables, done: set<nat>, ended: map<nat, Problem>, kept: map<string, set<nat>>, id: nat)
    requires FirstPass(db, done, ended, kept) && Sound(db, id) && id !in done
    ensures FirstPass(db, done + {id}, ended, Keep(kept, PluginKey(db, id), id))
  {
    hide Verdict, InForce, SharesKey, OwnerPublished;
  }

  lemma IsSkipped(db: Tables, done: set<nat>, ended: map<nat, Problem>, kept: map<string, set<nat>>, id: nat)
    requires FirstPass(db, done, ended, kept) && Verdict(db, id).None? && !Sound(db, id)
    ensures FirstPass(db, done + {id}, ended, kept)
  {
    hide Sound, Verdict;
  }

  /** What the branches of the first pass find out about a row. */
  lemma RowVerdict(db: Tables, winners: map<string, nat>, id: nat)
    requires AreWinners(db, winners, Keys(db)) && id in db.handovers
    ensures var h, key := db.handovers[id], PluginKey(db, id);
            if !Concerned(db, id) || !InForce(h.state) then Verdict(db, id).None? && !Sound(db, id)
            else if LegacyKey(db.methods, h) != Some(key) then Verdict(db, id) == Some(UrlsDiffer) && !Sound(db, id)
            else if key !in winners || Owner(h) != Some(winners[key]) then
              Verdict(db, id) == Some(NotTheOwner) && !Sound(db, id)
            else Sound(db, id)
  {
    hide Winner, Survives, Owner, LegacyKey;
    assert Concerned(db, id) ==> PluginKey(db, id) in Keys(db);
  }

  method JudgeFirst(rows: map<nat, Method>, handovers: map<nat, Handover>, winners: map<string, nat>, ghost db: Tables)
    returns (ended: map<nat, Problem>, kept: map<string, set<nat>>)
    requires rows == db.methods && handovers == db.handovers && AreWinners(db, winners, Keys(db))
    ensures FirstPass(db, handovers.Keys, ended, kept)
  {
    hide FirstPass, Verdict, Sound, AreWinners, Owner, Keys, InForce;
    ended, kept := map[], map[];
    FirstPassStarts(db);
    var todo := handovers.Keys;
    ghost var done := {};
    while todo != {}
      invariant todo !! done && todo + done == handovers.Keys
      invariant FirstPass(db, done, ended, kept)
      decreases todo
    {
      var id :| id in todo;
      todo := todo - {id};
      RowVerdict(db, winners, id);
      var h := handovers[id];
      if h.plugin in rows && rows[h.plugin].ordinary && InForce(h.state) {
        var key := rows[h.plugin].siteKey;
        var legacyKey := LegacyKey(rows, h);
        if legacyKey != Some(key) {
          EndsAtOnce(db, done, ended, kept, id, UrlsDiffer);
          ended := ended[id := UrlsDiffer];
        } else if key !in winners || Owner(h) != Some(winners[key]) {
          EndsAtOnce(db, done, ended, kept, id, NotTheOwner);
          ended := ended[id := NotTheOwner];
        } else {
          IsKept(db, done, ended, kept, id);
          kept := Keep(kept, key, id);
        }
      } else {
        IsSkipped(db, done, ended, kept, id);
      }
      done := done + {id};
    }
  }

  ghost predicate Verdicts(db: Tables, ended: map<nat, Problem>) {
    forall id :: (id in ended <==> Verdict(db, id).Some?) && (id in ended ==> Verdict(db, id) == Some(ended[id]))
  }

  /** The second pass over the keys in done has ended all but the furthest handover of each. */
  ghost predicate SecondPass(db: Tables, done: set<string>, ended: map<nat, Problem>) {
    forall id :: (id in ended <==> Verdict(db, id).Some? && (Sound(db, id) ==> PluginKey(db, id) in done))
                 && (id in ended ==> Verdict(db, id) == Some(ended[id]))
  }

  /** Ending all but the winner of one more key. */
  lemma KeyIsSettled(db: Tables, done: set<string>, ended: map<nat, Problem>, key: string, group: set<nat>, winner: nat)
    requires SecondPass(db, done, ended) && key !in done
    requires group == SoundAt(db, key).Keys && IsTop(SoundAt(db, key), winner)
    ensures SecondPass(db, done + {key}, ended + map id | id in group && id != winner :: AnotherOwns)
  {
    hide Sound, IsTop;
    SoundOrNot(db);
    var after := ended + map id | id in group && id != winner :: AnotherOwns;
    forall id
      ensures id in after <==> Verdict(db, id).Some? && (Sound(db, id) ==> PluginKey(db, id) in done + {key})
      ensures id in after ==> Verdict(db, id) == Some(after[id])
    {
      if id in group {
        assert Sound(db, id) && PluginKey(db, id) == key;
        GroupVerdict(db, id, winner);
      } else {
        assert !Sound(db, id) || PluginKey(db, id) != key;
      }
    }
  }

  lemma GroupVerdict(db: Tables, id: nat, winner: nat)
    requires Sound(db, id) && IsTop(SoundAt(db, PluginKey(db, id)), winner)
    ensures Verdict(db, id) == if id == winner then None else Some(AnotherOwns)
  {
    hide OwnerPublished, InForce;
    assert winner in SoundAt(db, PluginKey(db, id));
    assert Top(SoundAt(db, PluginKey(db, id))) == winner;
  }

  method JudgeSecond(handovers: map<nat, Handover>, first: map<nat, Problem>, kept: map<string, set<nat>>, ghost db: Tables)
    returns (ended: map<nat, Problem>)
    requires handovers == db.handovers && FirstPass(db, handovers.Keys, first, kept)
    ensures Verdicts(db, ended)
  {
    hide FirstPass, Sound, Verdict, SecondPass, IsTop;
    ended := first;
    var todo := kept.Keys;
    ghost var done := {};
    FirstPassDone(db, handovers.Keys, first, kept);
    while todo != {}
      invariant todo !! done && todo + done == kept.Keys
      invariant SecondPass(db, done, ended)
      decreases todo
    {
      var key :| key in todo;
      todo := todo - {key};
      GroupIsSoundAt(db, handovers.Keys, first, kept, key);
      var ranks := map id | id in kept[key] && id in handovers :: Rank(StateRank(handovers[id].state), 0, 0, id);
      assert ranks == SoundAt(db, key);
      var winner := MaxRow(ranks);
      KeyIsSettled(db, done, ended, key, kept[key], winner);
      ended := ended + map id | id in kept[key] && id != winner :: AnotherOwns;
      done := done + {key};
    }
    SecondPassDone(db, handovers.Keys, first, kept, ended);
  }

  lemma FirstPassDone(db: Tables, done: set<nat>, ended: map<nat, Problem>, kept: map<string, set<nat>>)
    requires done == db.handovers.Keys && FirstPass(db, done, ended, kept)
    ensures SecondPass(db, {}, ended)
  {
    hide Verdict, Sound;
    SoundOrNot(db);
  }

  lemma GroupIsSoundAt(db: Tables, done: set<nat>, ended: map<nat, Problem>, kept: map<string, set<nat>>, key: string)
    requires done == db.handovers.Keys && FirstPass(db, done, ended, kept) && key in kept
    ensures kept[key] == SoundAt(db, key).Keys && kept[key] != {}
  {
    hide Sound;
    SoundOrNot(db);
  }

  lemma SecondPassDone(db: Tables, done: set<nat>, first: map<nat, Problem>, kept: map<string, set<nat>>,
                       ended: map<nat, Problem>)
    requires done == db.handovers.Keys && FirstPass(db, done, first, kept) && SecondPass(db, kept.Keys, ended)
    ensures Verdicts(db, ended)
  {
    hide Verdict, Sound;
    SoundOrNot(db);
  }

  lemma SoundOrNot(db: Tables)
    ensures forall id :: Sound(db, id) || Verdict(db, id).Some? ==> id in db.handovers && Concerned(db, id)
  {
  }

  // ---------- the tables ----------

  /** No handover in force is filed under a new key already, other than its own. */
  predicate HandoversFit(db: Tables) {
    forall id :: id in db.handovers && InForce(db.handovers[id].state) && db.handovers[id].domain in Keys(db) ==>
                   Concerned(db, id) && db.handovers[id].domain == PluginKey(db, id)
  }

  ghost function HandoversJudged(db: Tables): map<nat, Handover> {
    map id | id in db.handovers ::
      if Verdict(db, id).Some? then End(db.handovers[id], Verdict(db, id).value) else db.handovers[id]
  }

  ghost function HandoversAfter(db: Tables): map<nat, Handover> {
    map id | id in db.handovers :: HandoverAfter(db, id)
  }

  ghost function ComparisonsAfter(db: Tables): map<nat, Comparison> {
    map id | id in db.comparisons :: ComparisonAfter(db, db.comparisons[id])
  }

  /** The rows in done have their new value, the others their old one. */
  ghost predicate Between<T(!new)>(done: set<nat>, was: map<nat, T>, after: map<nat, T>, now: map<nat, T>) {
    && was.Keys == after.Keys == now.Keys
    && forall id :: id in now ==> now[id] == if id in done then after[id] else was[id]
  }

  function KeysOf(rows: map<nat, Method>): set<string> {
    set id | id in rows && rows[id].ordinary :: rows[id].siteKey
  }

  function PublishedIds(rows: map<nat, Method>, mappings: map<string, nat>): set<nat> {
    set d | d in mappings && mappings[d] in rows && rows[mappings[d]].ordinary :: mappings[d]
  }

  function Unpublish(mappings: map<string, nat>, published: set<nat>): map<string, nat> {
    map d | d in mappings && mappings[d] !in published :: mappings[d]
  }

  lemma SnapshotFacts(db: Tables)
    ensures KeysOf(db.methods) == Keys(db)
    ensures ArePublished(db, PublishedIds(db.methods, db.mappings))
    ensures Unpublish(db.mappings, PublishedIds(db.methods, db.mappings)) == Retained(db)
  {
  }

  function Rekeyed(rows: map<nat, Method>): map<nat, Method> {
    map id | id in rows :: if rows[id].ordinary then rows[id].(domain := rows[id].siteKey) else rows[id]
  }

  lemma RekeyedMethods(db: Tables)
    ensures Rekeyed(db.methods) == MethodsUpTo(db, {})
  {
    hide Loser;
  }

  function Reconcile(sources: map<nat, bool>, some: set<nat>, methods: map<nat, Method>, mappings: map<string, nat>)
    : map<nat, bool>
  {
    map s | s in sources :: if s in some then Runnable(methods, mappings, s) else sources[s]
  }

  function FailComparisons(comparisons: map<nat, Comparison>, id: nat, error: Problem): map<nat, Comparison> {
    map c | c in comparisons ::
      if comparisons[c].handover == id && comparisons[c].status in {Queued, Running} then Comparison(id, Failed, error)
      else comparisons[c]
  }

  /** The handovers in done, and their comparisons, are ended. */
  ghost predicate EndedUpTo(db: Tables, done: set<nat>, handovers: map<nat, Handover>, comparisons: map<nat, Comparison>) {
    && Between(done, db.handovers, HandoversJudged(db), handovers)
    && comparisons.Keys == db.comparisons.Keys
    && forall c :: c in comparisons ==>
         comparisons[c] == if db.comparisons[c].handover in done then ComparisonAfter(db, db.comparisons[c])
                           else db.comparisons[c]
  }

  lemma EndedNone(db: Tables)
    ensures EndedUpTo(db, {}, db.handovers, db.comparisons)
  {
    hide Verdict;
  }

  lemma EndedOne(db: Tables, done: set<nat>, handovers: map<nat, Handover>, comparisons: map<nat, Comparison>, id: nat,
                 ended: map<nat, Problem>)
    requires EndedUpTo(db, done, handovers, comparisons) && id !in done && id in ended && Verdicts(db, ended)
    ensures EndedUpTo(db, done + {id},
                      if id in handovers then handovers[id := End(handovers[id], ended[id])] else handovers,
                      FailComparisons(comparisons, id, ended[id]))
  {
    hide Verdict;
  }

  lemma EndedAll(db: Tables, ended: map<nat, Problem>, handovers: map<nat, Handover>, comparisons: map<nat, Comparison>)
    requires EndedUpTo(db, ended.Keys, handovers, comparisons) && Verdicts(db, ended)
    ensures handovers == HandoversJudged(db) && comparisons == ComparisonsAfter(db)
  {
    hide Verdict;
  }

  class MethodTables {
    var methods: map<nat, Method>
    var mappings: map<string, nat>
    var handovers: map<nat, Handover>
    var comparisons: map<nat, Comparison>
    var sources: map<nat, bool>

    ghost function View(): Tables
      reads this
    {
      Tables(methods, mappings, handovers, comparisons, sources)
    }

    constructor (db: Tables)
      ensures View() == db
    {
      methods, mappings, handovers, comparisons, sources :=
        db.methods, db.mappings, db.handovers, db.comparisons, db.sources;
    }

    method EndHandovers(ended: map<nat, Problem>, ghost db: Tables)
      requires Verdicts(db, ended)
      requires handovers == db.handovers && comparisons == db.comparisons
      modifies this`handovers, this`comparisons
      ensures handovers == HandoversJudged(db)
      ensures comparisons == ComparisonsAfter(db)
    {
      hide Verdicts, EndedUpTo, HandoversJudged, ComparisonsAfter;
      var todo := ended.Keys;
      ghost var done := {};
      EndedNone(db);
      while todo != {}
        invariant todo !! done && todo + done == ended.Keys
        invariant EndedUpTo(db, done, handovers, comparisons)
        decreases todo
      {
        var id :| id in todo;
        todo := todo - {id};
        EndedOne(db, done, handovers, comparisons, id, ended);
        if id in handovers {
          handovers := handovers[id := End(handovers[id], ended[id])];
        }
        comparisons := FailComparisons(comparisons, id, ended[id]);
        done := done + {id};
      }
      EndedAll(db, ended, handovers, comparisons);
    }

    /** Refused by the unique index on domains as soon as a row in force would share its new domain with another. */
    method RekeyHandovers(rows: map<nat, Method>, before: map<nat, Handover>, ended: map<nat, Problem>, ghost db: Tables)
      returns (ok: bool)
      requires Valid(db) && Verdicts(db, ended) && rows == db.methods && before == db.handovers
      requires handovers == HandoversJudged(db)
      modifies this`handovers
      ensures ok ==> handovers == HandoversAfter(db)
      ensures HandoversFit(db) ==> ok
    {
      hide Verdict;
      var todo := before.Keys;
      while todo != {}
        invariant todo <= before.Keys
        invariant Between(before.Keys - todo, HandoversJudged(db), HandoversAfter(db), handovers)
        decreases todo
      {
        var id :| id in todo;
        var h := before[id];
        assert Concerned(db, id) <==> h.plugin in rows && rows[h.plugin].ordinary;
        if h.plugin in rows && rows[h.plugin].ordinary && id !in ended {
          var key := rows[h.plugin].siteKey;
          var legacyKey := LegacyKey(rows, h);
          if legacyKey.None? || legacyKey == Some(key) {
            if InForce(h.state)
               && exists y :: y in handovers && y != id && InForce(handovers[y].state) && handovers[y].domain == key {
              if HandoversFit(db) {
                NoClash(db, before.Keys - todo, handovers, id);
              }
              return false;
            }
            handovers := handovers[id := h.(domain := key)];
          }
        }
        todo := todo - {id};
      }
      return true;
    }

    method RekeyMethods()
      modifies this`methods
      ensures methods == Rekeyed(old(methods))
    {
      ghost var after := Rekeyed(methods);
      var todo := set id | id in methods && methods[id].ordinary;
      var all := todo;
      while todo != {}
        invariant todo <= all
        invariant Between(all - todo, old(methods), after, methods)
        decreases todo
      {
        var id :| id in todo;
        todo := todo - {id};
        methods := methods[id := methods[id].(domain := methods[id].siteKey)];
      }
    }

    /** Refused by the unique index on mapping domains if a new mapping would meet a retained one. */
    method RebuildMappings(rows: map<nat, Method>, published: set<nat>, keys: set<string>, winners: map<string, nat>,
                           ghost db: Tables)
      returns (ok: bool, toReconcile: set<nat>)
      requires Valid(db) && rows == db.methods && keys == Keys(db) && AreWinners(db, winners, keys)
      requires ArePublished(db, published)
      requires methods == MethodsUpTo(db, {}) && mappings == Retained(db)
      modifies this`methods, this`mappings
      ensures ok ==> methods == MethodsAfter(db) && mappings == MappingsAfter(db)
      ensures ok ==> toReconcile == SourcesUpTo(db, keys)
      ensures ok <==> MappingsFit(db)
    {
      hide FitsUpTo, KeysByDomain, Keys, ArePublished, AreWinners, Rebuilt, Newcomer, MethodsUpTo, MappingsUpTo, SourcesUpTo, LosersAt;
      hide MethodsAfter, MappingsAfter, Retained, MappingsFit;
      var publishedKeys := KeysByDomain(rows, published);
      toReconcile := {};
      var todo := keys;
      ghost var done := {};
      RebuildStarts(db);
      while todo != {}
        invariant todo !! done && todo + done == keys
        invariant methods == MethodsUpTo(db, done)
        invariant mappings == MappingsUpTo(db, done)
        invariant toReconcile == SourcesUpTo(db, done)
        invariant FitsUpTo(db, done)
        decreases todo
      {
        var key :| key in todo;
        todo := todo - {key};
        var losers := set id | id in rows && id in published && rows[id].siteKey == key
                               && !(key in winners && winners[key] == id);
        LosersFound(db, published, keys, winners, key);
        var choice, newcomer := ChooseFor(rows, published, publishedKeys, winners, key, db);
        MethodsStep(db, done, key);
        MappingsStep(db, done, key);
        SourcesStep(db, done, key);
        methods := map id | id in methods ::
          if id in losers && methods[id].status.Active? then methods[id].(status := Inactive) else methods[id];
        toReconcile := toReconcile + set id | id in losers && id in rows :: rows[id].source;
        if newcomer {
          toReconcile := toReconcile + {rows[choice.value].source};
        }
        if choice.Some? {
          if key in mappings {
            if MappingsFit(db) {
              FitsBelow(db, done + {key});
            }
            return false, {};
          }
          mappings := mappings[key := choice.value];
        }
        done := done + {key};
      }
      RebuildEnds(db);
      return true, toReconcile;
    }

    method ReconcileSources(toReconcile: set<nat>)
      modifies this`sources
      ensures sources == Reconcile(old(sources), toReconcile, methods, mappings)
    {
      hide Runnable;
      ghost var after := Reconcile(sources, toReconcile, methods, mappings);
      var todo := toReconcile;
      while todo != {}
        invariant todo <= toReconcile
        invariant Between(toReconcile - todo, old(sources), after, sources)
        decreases todo
      {
        var s :| s in todo;
        todo := todo - {s};
        if s in sources {
          sources := sources[s := Runnable(methods, mappings, s)];
        }
      }
    }

    /**
     * In whatever order the rows come, the upgrade either leaves the tables as the specification says, or changes nothing
     * because a unique index refused; which cannot happen while no row in the way already uses one of the new keys.
     */
    method Upgrade() returns (ok: bool)
      requires Valid(View())
      modifies this
      ensures View() == if ok then Upgraded(old(View())) else old(View())
      ensures ok ==> MappingsFit(old(View()))
      ensures MappingsFit(old(View())) && HandoversFit(old(View())) ==> ok
    {
      hide Upgraded, HandoversAfter, HandoversJudged, ComparisonsAfter, MethodsAfter, MappingsAfter, MethodsUpTo, Retained;
      hide Keys, AreWinners, ArePublished, MappingsFit, HandoversFit, Verdicts, FirstPass, SourcesUpTo;
      hide KeysOf, PublishedIds, Unpublish, Rekeyed, Reconcile, Valid;
      ghost var db := View();
      var rows, before, mapped, compared := methods, handovers, mappings, comparisons;
      var keys := KeysOf(rows);
      if keys == {} {
        NothingToDo(db);
        return true;
      }
      var published := PublishedIds(rows, mappings);
      SnapshotFacts(db);
      var winners := FindWinners(rows, published, keys, db);
      mappings := Unpublish(mappings, published);
      var first, kept := JudgeFirst(rows, before, winners, db);
      var ended := JudgeSecond(before, first, kept, db);
      EndHandovers(ended, db);
      ok := RekeyHandovers(rows, before, ended, db);
      if !ok {
        methods, mappings, handovers, comparisons := rows, mapped, before, compared;
        return;
      }
      RekeyMethods();
      RekeyedMethods(db);
      var toReconcile;
      ok, toReconcile := RebuildMappings(rows, published, keys, winners, db);
      if !ok {
        methods, mappings, handovers, comparisons := rows, mapped, before, compared;
        return;
      }
      ReconcileSources(toReconcile);
      UpgradedParts(db, sources, toReconcile);
    }
  }

  // ---------- rebuilding the mapping key by key ----------

  ghost function LosersAt(db: Tables, key: string): set<nat> {
    set id | id in db.methods && Loser(db, id) && db.methods[id].siteKey == key
  }

  ghost function MethodsUpTo(db: Tables, done: set<string>): map<nat, Method> {
    map id | id in db.methods ::
      var m := db.methods[id];
      m.(domain := if m.ordinary then m.siteKey else m.domain,
         status := if m.siteKey in done && Loser(db, id) && m.status.Active? then Inactive else m.status)
  }

  ghost function MappingsUpTo(db: Tables, done: set<string>): map<string, nat> {
    Retained(db) + map key | key in done && Rebuilt(db, key).Some? :: Rebuilt(db, key).value
  }

  ghost function SourcesUpTo(db: Tables, done: set<string>): set<nat> {
    (set id | id in db.methods && Loser(db, id) && db.methods[id].siteKey in done :: db.methods[id].source)
    + (set key | key in done && Newcomer(db, key).Some? && Newcomer(db, key).value in db.methods ::
         db.methods[Newcomer(db, key).value].source)
  }

  ghost predicate FitsUpTo(db: Tables, done: set<string>) {
    forall key :: key in done && key in Retained(db) ==> Rebuilt(db, key).None?
  }

  lemma LosersFound(db: Tables, published: set<nat>, keys: set<string>, winners: map<string, nat>, key: string)
    requires ArePublished(db, published) && AreWinners(db, winners, keys) && key in keys
    ensures LosersAt(db, key) == set id | id in db.methods && id in published && db.methods[id].siteKey == key
                                          && !(key in winners && winners[key] == id)
  {
    hide PublishedBefore, Winner;
  }

  // What one more key changes.

  lemma MethodsStep(db: Tables, done: set<string>, key: string)
    requires key !in done
    ensures var now := MethodsUpTo(db, done);
            MethodsUpTo(db, done + {key}) == map id | id in now ::
              if id in LosersAt(db, key) && now[id].status.Active? then now[id].(status := Inactive) else now[id]
  {
    hide Loser;
  }

  lemma MappingsStep(db: Tables, done: set<string>, key: string)
    requires key !in done
    ensures MappingsUpTo(db, done + {key}) ==
            if Rebuilt(db, key).Some? then MappingsUpTo(db, done)[key := Rebuilt(db, key).value] else MappingsUpTo(db, done)
    ensures FitsUpTo(db, done) ==>
              (FitsUpTo(db, done + {key}) <==> !(key in MappingsUpTo(db, done) && Rebuilt(db, key).Some?))
  {
    hide Rebuilt, Retained;
  }

  lemma SourcesStep(db: Tables, done: set<string>, key: string)
    requires key !in done
    ensures SourcesUpTo(db, done + {key}) ==
            SourcesUpTo(db, done) + (set id | id in LosersAt(db, key) && id in db.methods :: db.methods[id].source)
            + (if Newcomer(db, key).Some? && Newcomer(db, key).value in db.methods
               then {db.methods[Newcomer(db, key).value].source} else {})
  {
    hide Loser, Newcomer;
  }

  lemma FitsBelow(db: Tables, done: set<string>)
    requires done <= Keys(db) && MappingsFit(db)
    ensures FitsUpTo(db, done)
  {
  }

  lemma RebuildStarts(db: Tables)
    ensures MappingsUpTo(db, {}) == Retained(db) && SourcesUpTo(db, {}) == {} && FitsUpTo(db, {})
  {
  }

  lemma RebuildEnds(db: Tables)
    ensures MethodsUpTo(db, Keys(db)) == MethodsAfter(db)
    ensures MappingsUpTo(db, Keys(db)) == MappingsAfter(db)
    ensures FitsUpTo(db, Keys(db)) <==> MappingsFit(db)
  {
    hide Rebuilt, Winner, Retained;
    forall id | id in db.methods && Loser(db, id) ensures db.methods[id].siteKey in Keys(db) {
      assert Affected(db, id);
    }
  }

  lemma NothingToDo(db: Tables)
    requires KeysOf(db.methods) == {}
    ensures Upgraded(db) == db && MappingsFit(db)
  {
    hide Winner, Newcomer, Survives, Runnable;
    SnapshotFacts(db);
    NoneAffected(db);
    assert Retained(db) == db.mappings && MappingsAfter(db) == db.mappings;
    assert MethodsAfter(db) == db.methods;
    assert forall id :: Verdict(db, id).None?;
  }

  lemma NoneAffected(db: Tables)
    requires Keys(db) == {}
    ensures forall id :: !Affected(db, id)
    ensures forall id :: id in db.methods ==> !db.methods[id].ordinary
    ensures forall id :: !Concerned(db, id) && !PublishedBefore(db, id)
  {
    AffectedHaveKeys(db);
    assert forall id :: id in db.methods ==> (db.methods[id].ordinary <==> Affected(db, id));
  }

  lemma AffectedHaveKeys(db: Tables)
    ensures forall id :: Affected(db, id) ==> db.methods[id].siteKey in Keys(db)
  {
  }

  lemma UpgradedParts(db: Tables, sources: map<nat, bool>, toReconcile: set<nat>)
    requires toReconcile == SourcesUpTo(db, Keys(db))
    requires sources == Reconcile(db.sources, toReconcile, MethodsAfter(db), MappingsAfter(db))
    ensures Upgraded(db) == Tables(MethodsAfter(db), MappingsAfter(db), HandoversAfter(db), ComparisonsAfter(db), sources)
  {
    hide Rebuilt, Winner, Retained, Runnable, MethodsAfter, MappingsAfter, HandoverAfter, ComparisonAfter;
    forall s ensures s in toReconcile <==> Reconciled(db, s) {
      forall id | id in db.methods && Loser(db, id) ensures db.methods[id].siteKey in Keys(db) {
        assert Affected(db, id);
      }
      forall key | Newcomer(db, key).Some? ensures Newcomer(db, key).value in db.methods {
        assert Newcomer(db, key).value in Suppressed(db, key);
      }
    }
  }

  /** While the rows in done are rekeyed, no row in force stands in the way of one that survives. */
  lemma NoClash(db: Tables, done: set<nat>, now: map<nat, Handover>, id: nat)
    requires Valid(db) && HandoversFit(db) && id in db.handovers
    requires Concerned(db, id) && InForce(db.handovers[id].state) && Verdict(db, id).None?
    requires Between(done, HandoversJudged(db), HandoversAfter(db), now)
    ensures forall y :: y in now && y != id && InForce(now[y].state) ==> now[y].domain != PluginKey(db, id)
  {
    forall y | y in now && y != id && InForce(now[y].state)
      ensures now[y].domain != PluginKey(db, id)
    {
      assert PluginKey(db, id) in Keys(db);
      assert InForce(HandoverAfter(db, y).state);
      StillInForce(db, y);
      StillInForce(db, id);
    }
  }
}
