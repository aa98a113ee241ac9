// What the item repository writes about tags: alias suggestions, the names kept as sub tags,
// and source links.
module TagAliases {
  import opened Prelude
  import opened TagRoots
  import opened Text

  datatype Alias = Alias(child: nat, parent: nat, approved: bool)

  datatype Suggestion = Suggestion(child: nat, parent: Option<nat>, parentName: string)

  datatype Tables = Tables(tags: map<nat, Tag>, nextTag: nat, aliases: seq<Alias>)

  // ---------- the alias table as a map ----------

  predicate OneRowPerChild(aliases: seq<Alias>) {
    forall i, j :: 0 <= i < j < |aliases| ==> aliases[i].child != aliases[j].child
  }

  /** The approved aliases as the dictionary that root finding uses. */
  function ParentMap(aliases: seq<Alias>): map<nat, nat> {
    if aliases == [] then map[]
    else
      var last := aliases[|aliases| - 1];
      var init := ParentMap(aliases[..|aliases| - 1]);
      if last.approved then init[last.child := last.parent] else init
  }

  predicate NamesUnique(tags: map<nat, Tag>) {
    forall i, j :: i in tags && j in tags && tags[i] == tags[j] ==> i == j
  }

  ghost predicate Valid(t: Tables) {
    && OneRowPerChild(t.aliases)
    && (forall i :: 0 <= i < |t.aliases| ==> t.aliases[i].child != t.aliases[i].parent)
    && (forall i :: 0 <= i < |t.aliases| ==> t.aliases[i].child in SubTags(t.tags) && t.aliases[i].parent in t.tags)
    && (forall id :: id in t.tags ==> id < t.nextTag)
    && NamesUnique(t.tags)
  }

  // ---------- recording suggestions ----------

  /** The suggested parent: by number if there is such a tag, otherwise the sub tag of the name, created if need be. */
  function ResolveParent(t: Tables, s: Suggestion): (r: (Tables, nat))
  {
    if s.parent.Some? && s.parent.value in t.tags then (t, s.parent.value)
    else
      match FindTag(t.tags, Tag(s.parentName, SubTag))
      case Some(id) => (t, id)
      case None => (t.(tags := t.tags[t.nextTag := Tag(s.parentName, SubTag)], nextTag := t.nextTag + 1), t.nextTag)
  }

  function RowOf(aliases: seq<Alias>, child: nat): (i: nat)
    ensures i <= |aliases|
    ensures i < |aliases| ==> aliases[i].child == child
    ensures forall k :: 0 <= k < i ==> aliases[k].child != child
  {
    if aliases == [] || aliases[0].child == child then 0 else 1 + RowOf(aliases[1..], child)
  }

  function SetParent(aliases: seq<Alias>, child: nat, parent: nat): seq<Alias> {
    var i := RowOf(aliases, child);
    if i < |aliases| then aliases[i := Alias(child, parent, true)] else aliases + [Alias(child, parent, true)]
  }

  /** The suggestion has an effect on the alias table: its child is a sub tag other than the parent. */
  predicate IsEffective(t: Tables, s: Suggestion) {
    s.child in SubTags(t.tags) && ResolveParent(t, s).1 != s.child
  }

  function Record(t: Tables, s: Suggestion): Tables {
    if s.child !in SubTags(t.tags) then t
    else
      var (resolved, parent) := ResolveParent(t, s);
      if parent == s.child then resolved else resolved.(aliases := SetParent(t.aliases, s.child, parent))
  }

  function RecordAll(t: Tables, suggestions: seq<Suggestion>): Tables {
    if suggestions == [] then t
    else Record(RecordAll(t, suggestions[..|suggestions| - 1]), suggestions[|suggestions| - 1])
  }

  lemma RecordOneMore(t: Tables, suggestions: seq<Suggestion>, n: nat)
    requires n < |suggestions|
    ensures RecordAll(t, suggestions[..n + 1]) == Record(RecordAll(t, suggestions[..n]), suggestions[n])
  {
    assert suggestions[..n + 1][..n] == suggestions[..n];
  }

  class ItemRepository {
    var tags: map<nat, Tag>
    var nextTag: nat
    var aliases: seq<Alias>
    var sourceLinks: seq<(nat, nat, string)>

    ghost function View(): Tables
      reads this
    {
      Tables(tags, nextTag, aliases)
    }

    constructor ()
      ensures View() == Tables(map[], 0, []) && sourceLinks == []
    {
      tags, nextTag, aliases, sourceLinks := map[], 0, [], [];
    }

    method GetOrCreateSubTag(name: string) returns (id: nat)
      modifies this`tags, this`nextTag
      ensures (View(), id) == match FindTag(old(tags), Tag(name, SubTag))
                              case Some(found) => (old(View()), found)
                              case None => (old(View()).(tags := old(tags)[old(nextTag) := Tag(name, SubTag)],
                                                         nextTag := old(nextTag) + 1), old(nextTag))
    {
      var found := FindTag(tags, Tag(name, SubTag));
      if found.Some? {
        return found.value;
      }
      id := nextTag;
      tags, nextTag := tags[id := Tag(name, SubTag)], nextTag + 1;
    }

    method RecordTagAliasSuggestions(suggestions: seq<Suggestion>)
      modifies this`tags, this`nextTag, this`aliases
      ensures View() == RecordAll(old(View()), suggestions)
    {
      assert suggestions[..0] == [] && RecordAll(View(), []) == View();
      hide RecordAll;
      for n := 0 to |suggestions|
        invariant View() == RecordAll(old(View()), suggestions[..n])
      {
        var s := suggestions[n];
        RecordOneMore(old(View()), suggestions, n);
        if s.child !in tags || !tags[s.child].kind.SubTag? {
          continue;
        }
        var parent;
        if s.parent.Some? && s.parent.value in tags {
          parent := s.parent.value;
        } else {
          parent := GetOrCreateSubTag(s.parentName);
        }
        if parent == s.child {
          continue;
        }
        var i := 0;
        while i < |aliases| && aliases[i].child != s.child
          invariant i <= |aliases| && forall k :: 0 <= k < i ==> aliases[k].child != s.child
        {
          i := i + 1;
        }
        assert i == RowOf(aliases, s.child);
        if i == |aliases| {
          aliases := aliases + [Alias(s.child, parent, true)];
        } else {
          aliases := aliases[i := Alias(s.child, parent, true)];
        }
      }
      assert suggestions[..|suggestions|] == suggestions;
    }

    /** Inserts the link exactly if it is not there; no link is ever there twice. */
    method AddSourceLinkIfNew(item: nat, source: nat, url: string) returns (added: bool)
      requires forall i, j :: 0 <= i < j < |sourceLinks| ==> sourceLinks[i] != sourceLinks[j]
      modifies this`sourceLinks
      ensures added <==> (item, source, url) !in old(sourceLinks)
      ensures sourceLinks == if added then old(sourceLinks) + [(item, source, url)] else old(sourceLinks)
      ensures forall i, j :: 0 <= i < j < |sourceLinks| ==> sourceLinks[i] != sourceLinks[j]
    {
      if (item, source, url) in sourceLinks {
        return false;
      }
      sourceLinks := sourceLinks + [(item, source, url)];
      return true;
    }
  }

  // ---------- what recording keeps ----------

  lemma {:induction false} SetParentAsMap(aliases: seq<Alias>, child: nat, parent: nat)
    requires OneRowPerChild(aliases)
    ensures ParentMap(SetParent(aliases, child, parent)) == ParentMap(aliases)[child := parent]
    decreases |aliases|
  {
    var i := RowOf(aliases, child);
    var after := SetParent(aliases, child, parent);
    if i == |aliases| {
      assert after[..|aliases|] == aliases;
    } else {
      var init, last := aliases[..|aliases| - 1], aliases[|aliases| - 1];
      if i == |aliases| - 1 {
        assert after[..|aliases| - 1] == init;
        NotMapped(init, child);
      } else {
        RowOfPrefix(aliases, child);
        SetParentAsMap(init, child, parent);
        assert after[..|aliases| - 1] == SetParent(init, child, parent);
        assert last.child != child;
      }
    }
  }

  lemma {:induction false} NotMapped(aliases: seq<Alias>, child: nat)
    requires forall k :: 0 <= k < |aliases| ==> aliases[k].child != child
    ensures child !in ParentMap(aliases)
    decreases |aliases|
  {
    if aliases != [] {
      NotMapped(aliases[..|aliases| - 1], child);
    }
  }

  lemma RowOfPrefix(aliases: seq<Alias>, child: nat)
    requires aliases != [] && RowOf(aliases, child) < |aliases| - 1
    ensures RowOf(aliases[..|aliases| - 1], child) == RowOf(aliases, child)
  {
    var init := aliases[..|aliases| - 1];
    var i, j := RowOf(aliases, child), RowOf(init, child);
    assert init[i] == aliases[i];
    assert j < |init| ==> init[j] == aliases[j];
  }

  /**
   * Recording a suggestion makes the alias map send the child to the parent if it is effective, and otherwise leaves the
   * map alone; no other entry changes and none is lost.
   */
  lemma RecordAsMap(t: Tables, s: Suggestion)
    requires Valid(t)
    ensures ParentMap(Record(t, s).aliases) ==
            if IsEffective(t, s) then ParentMap(t.aliases)[s.child := ResolveParent(t, s).1] else ParentMap(t.aliases)
  {
    if IsEffective(t, s) {
      SetParentAsMap(t.aliases, s.child, ResolveParent(t, s).1);
    }
  }

  lemma ResolveKeepsValid(t: Tables, s: Suggestion)
    requires Valid(t)
    ensures var (resolved, parent) := ResolveParent(t, s);
            && Valid(resolved) && parent in resolved.tags && resolved.aliases == t.aliases
            && forall id :: id in t.tags ==> id in resolved.tags && resolved.tags[id] == t.tags[id]
  {
  }

  lemma RecordKeepsValid(t: Tables, s: Suggestion)
    requires Valid(t)
    ensures Valid(Record(t, s))
  {
    ResolveKeepsValid(t, s);
    hide ResolveParent, NamesUnique;
    var i := RowOf(t.aliases, s.child);
  }

  /** However many suggestions are recorded, the alias table stays a map from sub tags to other tags, without self-aliases. */
  lemma {:induction false} AliasTableStaysValid(t: Tables, suggestions: seq<Suggestion>)
    requires Valid(t)
    ensures Valid(RecordAll(t, suggestions))
    decreases |suggestions|
  {
    if suggestions != [] {
      AliasTableStaysValid(t, suggestions[..|suggestions| - 1]);
      RecordKeepsValid(RecordAll(t, suggestions[..|suggestions| - 1]), suggestions[|suggestions| - 1]);
    }
  }

  /** The suggested parent's number names a tag that is no sub tag. */
  predicate NamesOtherKind(t: Tables, s: Suggestion) {
    s.parent.Some? && s.parent.value in t.tags && !t.tags[s.parent.value].kind.SubTag?
  }

  /**
   * Recording checks the kind of the child but not of a parent given by number: all parents stay sub tags exactly if the
   * suggestion's number does not name a tag of another kind, or its child is no sub tag.
   */
  lemma ParentsStaySubTagsIff(t: Tables, s: Suggestion)
    requires Valid(t) && ParentsAreSubTags(t.tags, ParentMap(t.aliases))
    ensures ParentsAreSubTags(Record(t, s).tags, ParentMap(Record(t, s).aliases))
            <==> !(s.child in SubTags(t.tags) && NamesOtherKind(t, s))
  {
    hide Valid, ParentMap, SetParent;
    ResolveKeepsValid(t, s);
    RecordAsMap(t, s);
    var after := Record(t, s);
    var recorded := ParentMap(after.aliases);
    if s.child in SubTags(t.tags) && NamesOtherKind(t, s) {
      assert recorded[s.child] == s.parent.value;
    } else if s.child in SubTags(t.tags) {
      assert ResolveParent(t, s).1 in SubTags(after.tags);
    }
  }

  // ---------- filters and facets after recording ----------

  lemma {:induction false} ParentMapEntries(tags: map<nat, Tag>, aliases: seq<Alias>, child: nat)
    requires forall i :: 0 <= i < |aliases| ==> aliases[i].child in SubTags(tags) && aliases[i].parent in tags
    requires child in ParentMap(aliases)
    ensures child in SubTags(tags) && ParentMap(aliases)[child] in tags
    decreases |aliases|
  {
    var last := aliases[|aliases| - 1];
    if !last.approved || last.child != child {
      ParentMapEntries(tags, aliases[..|aliases| - 1], child);
    }
  }

  /** Since only sub tags have parents, all roots are sub tags exactly if all parents are. */
  lemma RootsAreSubTagsIff(t: Tables)
    requires Valid(t)
    ensures RootsAreSubTags(t.tags, ParentMap(t.aliases)) <==> ParentsAreSubTags(t.tags, ParentMap(t.aliases))
  {
    hide Valid, ParentMap;
    var parents := ParentMap(t.aliases);
    ValidEntries(t);
    if ParentsAreSubTags(t.tags, parents) {
      SubTagParentsSuffice(t.tags, parents);
    } else {
      var child :| child in parents && parents[child] !in SubTags(t.tags);
      assert parents[child] !in parents;
      RootOneUp(parents, child);
      assert child in SubTags(t.tags);
    }
  }

  lemma ValidEntries(t: Tables)
    requires Valid(t)
    ensures forall child :: child in ParentMap(t.aliases) ==>
                              child in SubTags(t.tags) && ParentMap(t.aliases)[child] in t.tags
  {
    forall child | child in ParentMap(t.aliases)
      ensures child in SubTags(t.tags) && ParentMap(t.aliases)[child] in t.tags
    {
      ParentMapEntries(t.tags, t.aliases, child);
    }
  }

  /** The filter for every name selects exactly the sub tags that the facets show under it. */
  ghost predicate FindsAsShown(t: Tables) {
    forall name :: Selected(t.tags, ParentMap(t.aliases), name) == ShownUnder(t.tags, ParentMap(t.aliases), name)
  }

  /**
   * If filters and facets agreed before a suggestion, they agree after it exactly if it does not name a tag of another kind
   * by number as the parent of a sub tag.
   */
  lemma RecordFindsAsShownIff(t: Tables, s: Suggestion)
    requires Valid(t) && FindsAsShown(t)
    ensures FindsAsShown(Record(t, s)) <==> !(s.child in SubTags(t.tags) && NamesOtherKind(t, s))
  {
    hide Valid, ParentMap, Record, RootsAreSubTags, ParentsAreSubTags;
    var after := Record(t, s);
    RecordKeepsValid(t, s);
    FilterMatchesFacetsIff(t.tags, ParentMap(t.aliases));
    FilterMatchesFacetsIff(after.tags, ParentMap(after.aliases));
    RootsAreSubTagsIff(t);
    RootsAreSubTagsIff(after);
    ParentsStaySubTagsIff(t, s);
  }

  /** So one suggestion can make a sub tag show under the name of a category whose filter finds nothing. */
  lemma CategoryParentIsNotFound(name: string, category: string, suggested: string)
    ensures var t := Tables(map[0 := Tag(name, SubTag), 1 := Tag(category, MainCategory)], 2, []);
            var after := Record(t, Suggestion(0, Some(1), suggested));
            var parents := ParentMap(after.aliases);
            && Valid(t) && FindsAsShown(t) && Valid(after) && !FindsAsShown(after)
            && ShownName(after.tags, parents, 0) == category && Selected(after.tags, parents, category) == {}
  {
    var t := Tables(map[0 := Tag(name, SubTag), 1 := Tag(category, MainCategory)], 2, []);
    var s := Suggestion(0, Some(1), suggested);
    var after := Record(t, s);
    assert Valid(t);
    assert SubTags(t.tags) == map[0 := Tag(name, SubTag)];
    assert IsEffective(t, s) && ResolveParent(t, s) == (t, 1);
    assert after == t.(aliases := SetParent([], 0, 1));
    hide Valid, Record, SetParent, ResolveParent, IsEffective;
    RecordKeepsValid(t, s);
    RecordAsMap(t, s);
    assert ParentMap(t.aliases) == map[];
    hide ParentMap;
    assert ParentMap(after.aliases) == map[0 := 1];
    RootOneUp(map[0 := 1], 0);
    FilterMatchesFacetsIff(t.tags, map[]);
    assert RootsAreSubTags(t.tags, map[]);
    assert 0 in ShownUnder(after.tags, map[0 := 1], category);
  }

  // ---------- sub tag names ----------

  const MAX_SUB_TAGS := 4

  function DistinctNames(names: seq<string>): seq<string> {
    if names == [] then []
    else
      var init, last := DistinctNames(names[..|names| - 1]), Strip(names[|names| - 1]);
      if last == "" || last in init then init else init + [last]
  }

  function SelectSubTagNames(names: seq<string>): seq<string> {
    var all := DistinctNames(names);
    if |all| <= MAX_SUB_TAGS then all else all[..MAX_SUB_TAGS]
  }

  predicate IsGiven(names: seq<string>, n: string) {
    exists k :: 0 <= k < |names| && Strip(names[k]) == n
  }

  lemma {:induction false} DistinctNamesAre(names: seq<string>)
    ensures forall i, j :: 0 <= i < j < |DistinctNames(names)| ==> DistinctNames(names)[i] != DistinctNames(names)[j]
    ensures forall n :: n in DistinctNames(names) <==> n != "" && IsGiven(names, n)
    decreases |names|
  {
    if names != [] {
      hide IsGiven, Strip;
      var init, last := names[..|names| - 1], names[|names| - 1];
      DistinctNamesAre(init);
      forall n ensures IsGiven(names, n) <==> Strip(last) == n || IsGiven(init, n) {
        GivenSplits(names, n);
      }
    }
  }

  lemma GivenSplits(names: seq<string>, n: string)
    requires names != []
    ensures IsGiven(names, n) <==> Strip(names[|names| - 1]) == n || IsGiven(names[..|names| - 1], n)
  {
    hide Strip;
    var init := names[..|names| - 1];
    if IsGiven(init, n) {
      var k :| 0 <= k < |init| && Strip(init[k]) == n;
      assert names[k] == init[k];
    }
    assert forall k :: 0 <= k < |init| ==> init[k] == names[k];
  }

  /** At most four distinct stripped names, none blank; and every name that is not blank if there are no more than four. */
  lemma SelectedNames(names: seq<string>)
    ensures var r := SelectSubTagNames(names);
            && |r| <= MAX_SUB_TAGS
            && (forall i, j :: 0 <= i < j < |r| ==> r[i] != r[j])
            && (forall n :: n in r ==> n != "" && IsStripped(n) && IsGiven(names, n))
            && (|r| < MAX_SUB_TAGS ==> forall n :: n != "" && IsGiven(names, n) ==> n in r)
  {
    hide Strip, DistinctNames, IsStripped;
    DistinctNamesAre(names);
    forall n | n in SelectSubTagNames(names) ensures n != "" && IsStripped(n) && IsGiven(names, n) {
      assert n in DistinctNames(names);
      var k :| 0 <= k < |names| && Strip(names[k]) == n;
    }
  }
}
