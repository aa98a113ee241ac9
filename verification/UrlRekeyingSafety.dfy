// What the rekeying upgrade conserves: publication, the agreement of every handover with the
// rebuilt mapping, the unique indexes, and the state of sources.
module UrlRekeyingSafety {
  import opened Prelude
  import opened UrlRekeying

  // ---------- publication ----------

  /**
   * A key under which a method was published has exactly one published method afterwards: one of those that were published
   * before, under that method's own new domain, and an active one if any of them was active.
   */
  lemma PublicationIsConserved(db: Tables, id: nat)
    requires Valid(db) && PublishedBefore(db, id)
    ensures var key := db.methods[id].siteKey;
            var after := Upgraded(db);
            && key in after.mappings
            && var w := after.mappings[key];
               && PublishedBefore(db, w) && after.methods[w].domain == key
               && (db.methods[id].status.Active? ==> after.methods[w].status.Active?)
               && after.methods[w].status == db.methods[w].status
  {
    hide HandoverAfter, ComparisonAfter, Reconciled, Runnable, Newcomer, Keys, Loser;
    var key := db.methods[id].siteKey;
    assert id in Publishers(db, key);
    assert Winner(db, key).Some? && Rebuilt(db, key) == Winner(db, key);
    RebuiltIsAffected(db, key);
    var w := Winner(db, key).value;
    assert Publishers(db, key)[w] == Recency(db.methods[w], if db.methods[w].status.Active? then 1 else 0, w);
    assert id != w ==> Below(Publishers(db, key)[id], Publishers(db, key)[w]);
  }

  /** No method becomes active; a method stops being active exactly when a better one publishes its key in its place. */
  lemma OnlyBeatenMethodsChangeStatus(db: Tables, id: nat)
    requires Valid(db) && id in db.methods
    ensures var m, after := db.methods[id], Upgraded(db).methods[id];
            && (after.status.Active? ==> m.status.Active?)
            && (after.status != m.status <==>
                m.status.Active? && PublishedBefore(db, id)
                && (exists w :: w in Publishers(db, m.siteKey) && Below(Recency(m, 1, id), Publishers(db, m.siteKey)[w])))
  {
    hide HandoverAfter, ComparisonAfter, Reconciled, Runnable, IsSuppressed, CollisionDomain, MappingsAfter, Keys;
    var m := db.methods[id];
    if m.status.Active? && PublishedBefore(db, id) {
      assert id in Publishers(db, m.siteKey);
      var w := Top(Publishers(db, m.siteKey));
      if w == id {
        forall v | v in Publishers(db, m.siteKey)
          ensures !Below(Recency(m, 1, id), Publishers(db, m.siteKey)[v])
        {
        }
      } else {
        assert Below(Publishers(db, m.siteKey)[id], Publishers(db, m.siteKey)[w]);
      }
    }
  }

  /** No retained mapping stands where a rebuilt one must go; the unique index on domains asks for this. */
  ghost predicate MappingsFit(db: Tables) {
    forall key :: key in Retained(db) && key in Keys(db) ==> Rebuilt(db, key).None?
  }

  lemma RebuiltIsAffected(db: Tables, key: string)
    requires Rebuilt(db, key).Some?
    ensures var w := Rebuilt(db, key).value;
            && Affected(db, w) && db.methods[w].siteKey == key && key in Keys(db) && !Loser(db, w)
            && (Winner(db, key).None? ==> IsSuppressed(db, w, key))
  {
    hide CollisionDomain;
    var w := Rebuilt(db, key).value;
    if Winner(db, key).Some? {
      assert w in Publishers(db, key);
    } else {
      assert w in Suppressed(db, key);
      assert w in Publishers(db, key) <==> PublishedBefore(db, w);
    }
    assert Affected(db, w);
  }

  /**
   * An ordinary website method is published afterwards only under its own new domain, and is published at all exactly if
   * it is the best that was published at its key or, where none was, the newest of the approved methods that the old
   * hostname had suppressed. The mappings of all other methods are as they were.
   */
  lemma PublishedAfterIff(db: Tables, domain: string, id: nat)
    requires Valid(db) && MappingsFit(db)
    ensures var after := Upgraded(db);
            (domain in after.mappings && after.mappings[domain] == id) <==>
            if Affected(db, id) then after.methods[id].domain == domain && Rebuilt(db, domain) == Some(id)
            else domain in db.mappings && db.mappings[domain] == id
  {
    hide HandoverAfter, ComparisonAfter, Reconciled, Runnable, IsSuppressed, CollisionDomain, Winner, Newcomer, Loser;
    if Rebuilt(db, domain).Some? {
      RebuiltIsAffected(db, domain);
    }
  }

  /** Where nothing was published before, a method is published only inactive, so that nothing starts to run. */
  lemma NewcomersStayInactive(db: Tables, key: string)
    requires Valid(db) && key in Upgraded(db).mappings && key in Keys(db) && Winner(db, key).None?
    requires Newcomer(db, key).Some?
    ensures var w := Upgraded(db).mappings[key];
            && IsSuppressed(db, w, key)
            && Upgraded(db).methods[w].status in {Inactive, Disabled}
            && (forall v :: IsSuppressed(db, v, key) && v != w ==>
                              Below(Recency(db.methods[v], 0, v), Recency(db.methods[w], 0, w)))
  {
    hide HandoverAfter, ComparisonAfter, Reconciled, Runnable, CollisionDomain;
    RebuiltIsAffected(db, key);
    var w := Newcomer(db, key).value;
    forall v | IsSuppressed(db, v, key) && v != w
      ensures Below(Recency(db.methods[v], 0, v), Recency(db.methods[w], 0, w))
    {
      assert v in Suppressed(db, key);
    }
  }

  // ---------- handovers ----------

  /** Key, legacy and plugin methods, and published owner of a handover agree. */
  predicate HandoverAgrees(db: Tables, id: nat)
    requires id in db.handovers
  {
    var h := db.handovers[id];
    && h.plugin in db.methods && db.methods[h.plugin].domain == h.domain
    && h.legacy.Some? && h.legacy.value in db.methods && db.methods[h.legacy.value].domain == h.domain
    && h.domain in db.mappings && Owner(h) == Some(db.mappings[h.domain])
  }

  lemma SurvivorIsSound(db: Tables, id: nat)
    requires Valid(db) && Concerned(db, id)
    requires InForce(HandoverAfter(db, id).state)
    ensures Survives(db, id)
    ensures HandoverAfter(db, id) == db.handovers[id].(domain := PluginKey(db, id))
  {
    hide OwnerPublished, Winner;
    assert Verdict(db, id).None?;
  }

  /**
   * Every handover of an ordinary website method that is still in force has its legacy and plugin methods at one key, its
   * own, where the rebuilt mapping publishes exactly the method its state implies; and it is the only one at that key.
   */
  lemma HandoversAgreeWithMapping(db: Tables, id: nat, other: nat)
    requires Valid(db)
    requires Concerned(db, id) && InForce(Upgraded(db).handovers[id].state)
    ensures HandoverAgrees(Upgraded(db), id)
    ensures Upgraded(db).handovers[id].domain == PluginKey(db, id)
    ensures Concerned(db, other) && InForce(Upgraded(db).handovers[other].state) && PluginKey(db, other) == PluginKey(db, id)
            ==> other == id
  {
    hide HandoverAfter, MethodsAfter, MappingsAfter, ComparisonAfter, Reconciled, Runnable, Sound;
    SurvivorIsSound(db, id);
    SurvivorAgrees(db, id);
    if Concerned(db, other) && InForce(Upgraded(db).handovers[other].state) {
      SurvivorIsSound(db, other);
    }
  }

  lemma SurvivorAgrees(db: Tables, id: nat)
    requires Valid(db) && Concerned(db, id) && Survives(db, id)
    ensures var h, key := db.handovers[id], PluginKey(db, id);
            var methods, mappings := MethodsAfter(db), MappingsAfter(db);
            && h.plugin in methods && methods[h.plugin].domain == key
            && h.legacy.Some? && h.legacy.value in methods && methods[h.legacy.value].domain == key
            && key in mappings && Owner(h) == Some(mappings[key])
  {
    hide Winner, Newcomer, SoundAt, Loser, Owner;
    assert PluginKey(db, id) in Keys(db);
    assert Rebuilt(db, PluginKey(db, id)) == Owner(db.handovers[id]);
  }

  /** A key with a sound handover keeps exactly one, the furthest advanced and of those the newest; no other survives. */
  lemma FurthestSoundHandoverSurvives(db: Tables, id: nat)
    requires Valid(db) && Sound(db, id)
    ensures var ranks := SoundAt(db, PluginKey(db, id));
            && ranks != map[]
            && var w := Top(ranks);
               && Concerned(db, w) && PluginKey(db, w) == PluginKey(db, id)
               && InForce(Upgraded(db).handovers[w].state)
               && (w == id || !InForce(Upgraded(db).handovers[id].state))
               && StateRank(db.handovers[id].state) <= StateRank(db.handovers[w].state)
  {
    hide ComparisonAfter, Reconciled, Runnable, IsSuppressed, CollisionDomain, Winner, MethodsAfter, MappingsAfter;
    var ranks := SoundAt(db, PluginKey(db, id));
    assert id in ranks;
    var w := Top(ranks);
    assert w in ranks;
    assert w != id ==> Below(ranks[id], ranks[w]);
    assert Verdict(db, w).None?;
  }

  /** A handover of other methods, or one no longer in force, is never ended, and an ended one loses its legacy method. */
  lemma OnlyUnsoundHandoversEnd(db: Tables, id: nat)
    requires Valid(db) && id in db.handovers
    ensures var h, after := db.handovers[id], Upgraded(db).handovers[id];
            && (InForce(h.state) && !InForce(after.state) ==>
                  Concerned(db, id) && after.state.ShadowFailed? && after.legacy.None? && after.domain == h.domain
                  && !Survives(db, id)
                  && (after.error.UrlsDiffer? <==> !SharesKey(db, id))
                  && (after.error.NotTheOwner? <==> SharesKey(db, id) && !OwnerPublished(db, id))
                  && (after.error.AnotherOwns? <==> Sound(db, id)))
            && (!InForce(h.state) || !Concerned(db, id) ==> after.state == h.state && after.legacy == h.legacy)
            && (InForce(after.state) ==> InForce(h.state))
  {
    hide ComparisonAfter, Reconciled, Runnable, IsSuppressed, CollisionDomain, Winner, MethodsAfter, MappingsAfter;
    if Sound(db, id) {
      assert id in SoundAt(db, PluginKey(db, id));
    }
  }

  /**
   * A handover that is not ended is filed afterwards where its plugin method is, exactly if it was already or its legacy
   * method, where it has one, is there too; otherwise it keeps its domain. One of other methods keeps its domain.
   */
  lemma HandoversFollowTheirMethods(db: Tables, id: nat)
    requires Valid(db) && id in db.handovers && Verdict(db, id).None?
    ensures var h, after := db.handovers[id], Upgraded(db);
            var filed, there := after.handovers[id].domain, after.methods[h.plugin].domain;
            && (Concerned(db, id) ==>
                  (filed == there <==>
                   h.domain == there || h.legacy.None? || h.legacy.value !in after.methods
                   || after.methods[h.legacy.value].domain == there))
            && (filed != there || !Concerned(db, id) ==> filed == h.domain)
  {
    hide MappingsAfter, ComparisonAfter, Reconciled, Runnable, Loser, Verdict;
  }

  /** A comparison is failed exactly if it was waiting or running for a handover that the upgrade ends. */
  lemma ComparisonsEndWithTheirHandover(db: Tables, id: nat)
    requires Valid(db) && id in db.comparisons && db.comparisons[id].handover in db.handovers
    ensures var c, after := db.comparisons[id], Upgraded(db).comparisons[id];
            var ended := InForce(db.handovers[c.handover].state) && !InForce(Upgraded(db).handovers[c.handover].state);
            && (after != c <==> ended && c.status in {Queued, Running})
            && (after != c ==> after.status.Failed? && after.error == Upgraded(db).handovers[c.handover].error)
  {
    hide Reconciled, Runnable, IsSuppressed, CollisionDomain, Winner, MethodsAfter, MappingsAfter, SoundAt;
  }

  // ---------- unique indexes ----------

  predicate BothInForce(handovers: map<nat, Handover>, x: nat, y: nat) {
    x in handovers && y in handovers && InForce(handovers[x].state) && InForce(handovers[y].state)
  }

  ghost predicate DomainsUnique(handovers: map<nat, Handover>) {
    forall x, y :: BothInForce(handovers, x, y) && handovers[x].domain == handovers[y].domain ==> x == y
  }

  ghost predicate LegaciesUnique(handovers: map<nat, Handover>) {
    forall x, y :: BothInForce(handovers, x, y) && handovers[x].legacy.Some? && handovers[x].legacy == handovers[y].legacy
                   ==> x == y
  }

  /** No handover in force of other methods already has one of the new keys as its domain. */
  predicate OthersDisjoint(db: Tables) {
    forall x :: x in db.handovers && InForce(db.handovers[x].state) && !Concerned(db, x) ==>
                  db.handovers[x].domain !in Keys(db)
  }

  lemma SurvivorIsTop(db: Tables, id: nat)
    requires Survives(db, id)
    ensures SoundAt(db, PluginKey(db, id)) != map[] && Top(SoundAt(db, PluginKey(db, id))) == id
  {
  }

  lemma StillInForce(db: Tables, id: nat)
    requires Valid(db) && id in db.handovers && InForce(HandoverAfter(db, id).state)
    ensures var h, after := db.handovers[id], HandoverAfter(db, id);
            && InForce(h.state) && after.legacy == h.legacy
            && (if Concerned(db, id) then Survives(db, id) && after.domain == PluginKey(db, id) && after.domain in Keys(db)
                else after == h)
  {
    if Concerned(db, id) {
      SurvivorIsSound(db, id);
    }
  }

  /** Both unique indexes on handovers in force hold afterwards. */
  lemma IndexesHold(db: Tables)
    requires Valid(db) && OthersDisjoint(db)
    requires DomainsUnique(db.handovers) && LegaciesUnique(db.handovers)
    ensures DomainsUnique(Upgraded(db).handovers)
    ensures LegaciesUnique(Upgraded(db).handovers)
  {
    hide HandoverAfter, MethodsAfter, MappingsAfter, ComparisonAfter, Reconciled, Runnable, Survives, Keys, Concerned;
    var after := Upgraded(db).handovers;
    forall x, y | BothInForce(after, x, y)
      ensures after[x].domain == after[y].domain ==> x == y
      ensures after[x].legacy.Some? && after[x].legacy == after[y].legacy ==> x == y
    {
      StillInForce(db, x);
      StillInForce(db, y);
      assert BothInForce(db.handovers, x, y);
      if Concerned(db, x) && Concerned(db, y) && after[x].domain == after[y].domain {
        SurvivorIsTop(db, x);
        SurvivorIsTop(db, y);
      }
    }
  }

  // ---------- sources ----------

  /** Whether some active method of a source is published changes only for reconciled sources. */
  lemma OnlyReconciledSourcesChange(db: Tables, s: nat)
    requires Valid(db) && MappingsFit(db) && !Reconciled(db, s)
    ensures Runnable(Upgraded(db).methods, Upgraded(db).mappings, s) <==> Runnable(db.methods, db.mappings, s)
  {
    if Runnable(db.methods, db.mappings, s) {
      StaysRunnable(db, s);
    }
    if Runnable(MethodsAfter(db), MappingsAfter(db), s) {
      WasRunnable(db, s);
    }
  }

  lemma StaysRunnable(db: Tables, s: nat)
    requires Valid(db) && MappingsFit(db) && !Reconciled(db, s) && Runnable(db.methods, db.mappings, s)
    ensures Runnable(MethodsAfter(db), MappingsAfter(db), s)
  {
    hide Winner, Newcomer, HandoverAfter, ComparisonAfter;
    var d :| d in db.mappings && db.methods[db.mappings[d]].source == s && db.methods[db.mappings[d]].status.Active?;
    var id := db.mappings[d];
    assert !Loser(db, id);
    if Affected(db, id) {
      assert PublishedBefore(db, id);
      var key := db.methods[id].siteKey;
      assert Winner(db, key) == Some(id);
      assert Rebuilt(db, key) == Some(id) && key in Keys(db);
      assert MappingsAfter(db)[key] == id;
    } else {
      assert MappingsAfter(db)[d] == id;
    }
  }

  lemma WasRunnable(db: Tables, s: nat)
    requires Valid(db) && MappingsFit(db) && Runnable(MethodsAfter(db), MappingsAfter(db), s)
    ensures Runnable(db.methods, db.mappings, s)
  {
    hide CollisionDomain, HandoverAfter, ComparisonAfter, Loser;
    var after, mappings := MethodsAfter(db), MappingsAfter(db);
    var d :| d in mappings && mappings[d] in after && after[mappings[d]].source == s && after[mappings[d]].status.Active?;
    var id := mappings[d];
    assert db.methods[id].status.Active?;
    if Rebuilt(db, d).Some? && d in Keys(db) {
      RebuiltIsAffected(db, d);
      assert Winner(db, d) == Some(id);
      assert id in Publishers(db, d);
      var e :| e in db.mappings && db.mappings[e] == id;
    } else {
      assert d in db.mappings && db.mappings[d] == id;
    }
  }

  /** A database whose sources are enabled exactly while an active method of theirs is published stays one. */
  lemma SourcesStayInAgreement(db: Tables)
    requires Valid(db) && MappingsFit(db)
    requires forall s :: s in db.sources ==> db.sources[s] == Runnable(db.methods, db.mappings, s)
    ensures var after := Upgraded(db);
            forall s :: s in after.sources ==> after.sources[s] == Runnable(after.methods, after.mappings, s)
  {
    forall s | s in db.sources && !Reconciled(db, s)
      ensures Runnable(Upgraded(db).methods, Upgraded(db).mappings, s) == Runnable(db.methods, db.mappings, s)
    {
      OnlyReconciledSourcesChange(db, s);
    }
  }

  // ---------- the upgraded tables are settled ----------

  /** After the upgrade the published ordinary methods are exactly the rebuilt ones. */
  lemma PublishedNext(db: Tables, id: nat)
    requires Valid(db) && MappingsFit(db)
    ensures PublishedBefore(Upgraded(db), id) <==> Affected(db, id) && Rebuilt(db, db.methods[id].siteKey) == Some(id)
  {
    hide Winner, Newcomer, Loser, Runnable, Reconciled, HandoverAfter, ComparisonAfter;
    var after := Upgraded(db);
    if PublishedBefore(after, id) {
      var d :| d in after.mappings && after.mappings[d] == id;
      PublishedAfterIff(db, d, id);
    }
    if Affected(db, id) && Rebuilt(db, db.methods[id].siteKey) == Some(id) {
      var key := db.methods[id].siteKey;
      PublishedAfterIff(db, key, id);
      assert after.mappings[key] == id;
    }
  }

  lemma UpgradedMethods(db: Tables)
    ensures Upgraded(db).methods == MethodsAfter(db)
  {
  }

  lemma SolePublisherWins(db: Tables, key: string)
    ensures Publishers(db, key).Keys == {} ==> Winner(db, key).None?
    ensures forall w :: Publishers(db, key).Keys == {w} ==> Winner(db, key) == Some(w)
  {
  }

  lemma NoNewcomer(db: Tables, key: string)
    ensures Winner(db, key).Some? || Suppressed(db, key) == map[] ==> Newcomer(db, key).None?
  {
  }

  lemma WinnerNext(db: Tables, key: string)
    requires Valid(db) && MappingsFit(db)
    ensures Winner(Upgraded(db), key) == Rebuilt(db, key)
    ensures Newcomer(Upgraded(db), key).None?
  {
    hide Winner, Newcomer, Loser, Runnable, Upgraded, PublishedBefore, Rebuilt, MappingsFit, Suppressed, Valid;
    var after := Upgraded(db);
    forall id ensures PublishedBefore(after, id) <==> Affected(db, id) && Rebuilt(db, db.methods[id].siteKey) == Some(id) {
      PublishedNext(db, id);
    }
    UpgradedMethods(db);
    if Rebuilt(db, key).Some? {
      RebuiltIsAffected(db, key);
    }
    assert Publishers(after, key).Keys == if Rebuilt(db, key).Some? then {Rebuilt(db, key).value} else {};
    SolePublisherWins(after, key);
    if Rebuilt(db, key).None? {
      NoneSuppressedNext(db, key);
    }
    NoNewcomer(after, key);
  }

  lemma NoneSuppressedNext(db: Tables, key: string)
    requires Valid(db)
    ensures Suppressed(Upgraded(db), key) == map[]
  {
    hide Runnable, Reconciled, HandoverAfter, ComparisonAfter, Winner, Newcomer, Loser, Rebuilt;
    var after := Upgraded(db);
    assert forall id :: !IsSuppressed(after, id, key);
  }

  /** Every handover that the upgrade keeps in force is kept by it again. */
  lemma SurvivorSurvivesAgain(db: Tables, id: nat)
    requires Valid(db) && MappingsFit(db) && id in db.handovers
    ensures Verdict(Upgraded(db), id).None?
    ensures InForce(Upgraded(db).handovers[id].state) ==> HandoverAfter(Upgraded(db), id) == Upgraded(db).handovers[id]
  {
    hide Winner, Newcomer, Loser, Runnable, Reconciled, ComparisonAfter, Survives, Sound, HandoverAfter, MappingsAfter;
    var after := Upgraded(db);
    if Concerned(db, id) && InForce(after.handovers[id].state) {
      var key := PluginKey(db, id);
      SurvivorIsSound(db, id);
      SoundNext(db, id);
      forall other | Sound(after, other) && PluginKey(after, other) == key ensures other == id {
        SoundsAreInForce(after, other);
        PluginStays(db, other);
        HandoversAgreeWithMapping(db, id, other);
      }
      assert SoundAt(after, key).Keys == {id} by { SoundsAreInForce(after, id); }
      SoleSoundSurvives(after, id);
    }
    assert after.handovers[id] == HandoverAfter(db, id);
    if InForce(after.handovers[id].state) {
      StillInForce(db, id);
      StaysWhereItIs(after, id);
    }
  }

  lemma PluginStays(db: Tables, id: nat)
    ensures Concerned(Upgraded(db), id) <==> Concerned(db, id)
    ensures PluginKey(Upgraded(db), id) == PluginKey(db, id)
  {
    hide Verdict, Loser, MappingsAfter, ComparisonAfter, Reconciled, Runnable;
  }

  lemma SoleSoundSurvives(db: Tables, id: nat)
    requires Sound(db, id) && SoundAt(db, PluginKey(db, id)).Keys == {id}
    ensures Survives(db, id) && Verdict(db, id).None?
  {
    hide LegacyKey, Winner, Owner;
    assert id in SoundAt(db, PluginKey(db, id));
  }

  lemma StaysWhereItIs(db: Tables, id: nat)
    requires id in db.handovers && Verdict(db, id).None?
    requires Concerned(db, id) ==> db.handovers[id].domain == PluginKey(db, id)
    ensures HandoverAfter(db, id) == db.handovers[id]
  {
    hide Verdict;
  }

  lemma SoundsAreInForce(db: Tables, id: nat)
    requires Sound(db, id)
    ensures Concerned(db, id) && InForce(db.handovers[id].state)
  {
  }

  lemma SoundNext(db: Tables, id: nat)
    requires Valid(db) && MappingsFit(db) && Concerned(db, id) && InForce(HandoverAfter(db, id).state)
    ensures Sound(Upgraded(db), id)
  {
    hide Winner, Newcomer, Loser, Runnable, Reconciled, ComparisonAfter, MappingsAfter, SoundAt, HandoverAfter;
    SurvivorIsSound(db, id);
    WinnerNext(db, PluginKey(db, id));
  }

  /**
   * The upgraded tables are settled: a second upgrade would change nothing in them but the domain of handovers that the
   * first one had ended.
   */
  lemma UpgradeSettles(db: Tables)
    requires Valid(db) && MappingsFit(db)
    ensures var once, twice := Upgraded(db), Upgraded(Upgraded(db));
            && twice == once.(handovers := twice.handovers)
            && twice.handovers.Keys == once.handovers.Keys
            && forall id :: id in once.handovers ==>
                 twice.handovers[id] == once.handovers[id].(domain := twice.handovers[id].domain)
                 && (InForce(once.handovers[id].state) ==> twice.handovers[id] == once.handovers[id])
  {
    hide Winner, Newcomer, Runnable, HandoverAfter, Verdict, PublishedBefore, Rebuilt, MappingsFit, Valid, Loser, Keys;
    hide MappingsAfter, MethodsAfter, ComparisonAfter;
    var once := Upgraded(db);
    forall key ensures Winner(once, key) == Rebuilt(db, key) && Newcomer(once, key).None? {
      WinnerNext(db, key);
    }
    forall id ensures !Loser(once, id) {
      NoLoserNext(db, id);
    }
    forall id | id in once.handovers
      ensures Verdict(once, id).None?
      ensures InForce(once.handovers[id].state) ==> HandoverAfter(once, id) == once.handovers[id]
      ensures HandoverAfter(once, id) == once.handovers[id].(domain := HandoverAfter(once, id).domain)
    {
      SurvivorSurvivesAgain(db, id);
      OnlyRekeyed(once, id);
    }
    MappingsSettle(db);
    MethodsSettle(db);
    ComparisonsSettle(once);
  }

  lemma NoLoserNext(db: Tables, id: nat)
    requires Valid(db) && MappingsFit(db)
    ensures !Loser(Upgraded(db), id)
  {
    hide Winner, Newcomer, Rebuilt, PublishedBefore, Runnable, Reconciled, HandoverAfter, ComparisonAfter, MappingsAfter;
    PublishedNext(db, id);
    if Affected(db, id) {
      WinnerNext(db, db.methods[id].siteKey);
    }
  }

  lemma OnlyRekeyed(db: Tables, id: nat)
    requires id in db.handovers && Verdict(db, id).None?
    ensures HandoverAfter(db, id) == db.handovers[id].(domain := HandoverAfter(db, id).domain)
  {
  }

  lemma SameRowsNext(db: Tables)
    ensures forall id :: Affected(Upgraded(db), id) <==> Affected(db, id)
    ensures Keys(Upgraded(db)) == Keys(db)
  {
    hide Loser, MappingsAfter, HandoverAfter, ComparisonAfter, Reconciled, Runnable;
    assert forall id :: id in db.methods ==> Upgraded(db).methods[id].siteKey == db.methods[id].siteKey;
  }

  lemma RetainedNext(db: Tables)
    requires Valid(db) && MappingsFit(db)
    ensures Retained(Upgraded(db)) == Retained(db) && Keys(Upgraded(db)) == Keys(db)
  {
    SameRowsNext(db);
    hide Affected, Keys, Rebuilt, MethodsAfter, HandoverAfter, ComparisonAfter, Reconciled, Runnable, Valid;
    forall key | Rebuilt(db, key).Some? ensures Affected(db, Rebuilt(db, key).value) {
      RebuiltIsAffected(db, key);
    }
  }

  lemma MethodsSettle(db: Tables)
    requires forall id :: !Loser(Upgraded(db), id)
    ensures MethodsAfter(Upgraded(db)) == Upgraded(db).methods
  {
    hide Loser;
  }

  lemma MappingsSettle(db: Tables)
    requires Valid(db) && MappingsFit(db)
    ensures MappingsAfter(Upgraded(db)) == MappingsAfter(db)
  {
    hide Winner, Newcomer, Retained, Keys, Upgraded;
    forall key ensures Winner(Upgraded(db), key) == Rebuilt(db, key) && Newcomer(Upgraded(db), key).None? {
      WinnerNext(db, key);
    }
    RetainedNext(db);
  }

  lemma ComparisonsSettle(db: Tables)
    requires forall id :: id in db.handovers ==> Verdict(db, id).None?
    ensures forall id :: id in db.comparisons ==> ComparisonAfter(db, db.comparisons[id]) == db.comparisons[id]
  {
  }
}
