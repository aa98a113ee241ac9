// Renaming a main category: the category names, the category that each item stores as text,
// and the tags and links that say the same.
module CategoryRename {
  import opened Prelude
  import opened TagRoots
  import opened Text

  datatype Link = Link(item: nat, tag: nat)

  datatype Tables = Tables(categories: map<nat, string>, items: map<nat, string>, tags: map<nat, Tag>, links: seq<Link>)

  predicate NoDuplicates(links: seq<Link>) {
    forall i, j :: 0 <= i < j < |links| ==> links[i] != links[j]
  }

  function ItemsOf(links: seq<Link>, tag: nat): set<nat> {
    set i | 0 <= i < |links| && links[i].tag == tag :: links[i].item
  }

  // A tag's name and kind are unique; a link names a tag that exists.
  ghost predicate Valid(t: Tables) {
    && NoDuplicates(t.links)
    && (forall x, y :: x in t.tags && y in t.tags && t.tags[x] == t.tags[y] ==> x == y)
    && (forall i :: 0 <= i < |t.links| ==> t.links[i].tag in t.tags)
    && (forall x, y :: x in t.categories && y in t.categories && t.categories[x] == t.categories[y] ==> x == y)
  }

  // ---------- merging two tags ----------

  /** The rows of from go over to the other tag, except for items that have that already; existing holds those items. */
  function Merge(links: seq<Link>, from: nat, to: nat, existing: set<nat>): seq<Link> {
    if links == [] then []
    else if links[0].tag != from then [links[0]] + Merge(links[1..], from, to, existing)
    else if links[0].item in existing then Merge(links[1..], from, to, existing)
    else [Link(links[0].item, to)] + Merge(links[1..], from, to, existing + {links[0].item})
  }

  lemma MergeStep(links: seq<Link>, i: nat, from: nat, to: nat, existing: set<nat>)
    requires i < |links|
    ensures var row := links[i];
            Merge(links[i..], from, to, existing) ==
            if row.tag != from then [row] + Merge(links[i + 1..], from, to, existing)
            else if row.item in existing then Merge(links[i + 1..], from, to, existing)
            else [Link(row.item, to)] + Merge(links[i + 1..], from, to, existing + {row.item})
  {
    assert links[i..][1..] == links[i + 1..];
  }

  lemma {:induction false} MergedRows(links: seq<Link>, from: nat, to: nat, existing: set<nat>, row: Link)
    requires from != to && forall i :: 0 <= i < |links| && links[i].tag == to ==> links[i].item in existing
    ensures row in Merge(links, from, to, existing) <==>
            (row.tag != from && row in links)
            || (row.tag == to && Link(row.item, from) in links && row.item !in existing)
    decreases |links|
  {
    if links != [] {
      var rest := links[1..];
      var more := if links[0].tag == from then existing + {links[0].item} else existing;
      assert forall i :: 0 <= i < |rest| ==> rest[i] == links[i + 1];
      assert links == [links[0]] + rest;
      MergedRows(rest, from, to, if links[0].tag == from && links[0].item !in existing then more else existing, row);
    }
  }

  lemma {:induction false} MergeKeepsDistinct(links: seq<Link>, from: nat, to: nat, existing: set<nat>)
    requires NoDuplicates(links)
    requires from != to && forall i :: 0 <= i < |links| && links[i].tag == to ==> links[i].item in existing
    ensures NoDuplicates(Merge(links, from, to, existing))
    decreases |links|
  {
    if links != [] {
      var rest := links[1..];
      assert forall i :: 0 <= i < |rest| ==> rest[i] == links[i + 1];
      if links[0].tag != from {
        MergeKeepsDistinct(rest, from, to, existing);
        MergedRows(rest, from, to, existing, links[0]);
      } else if links[0].item in existing {
        MergeKeepsDistinct(rest, from, to, existing);
      } else {
        MergeKeepsDistinct(rest, from, to, existing + {links[0].item});
        MergedRows(rest, from, to, existing + {links[0].item}, Link(links[0].item, to));
      }
    }
  }

  lemma {:induction false} MergeKeepsOthers(links: seq<Link>, from: nat, to: nat, existing: set<nat>, tag: nat)
    requires tag != from && tag != to
    ensures RowsOf(Merge(links, from, to, existing), tag) == RowsOf(links, tag)
    decreases |links|
  {
    if links != [] {
      var more := if links[0].tag == from && links[0].item !in existing then existing + {links[0].item} else existing;
      MergeKeepsOthers(links[1..], from, to, more, tag);
      var merged := Merge(links, from, to, existing);
      if links[0].tag != from || links[0].item !in existing {
        assert merged[1..] == Merge(links[1..], from, to, more);
      }
    }
  }

  /** The rows of one tag in order. */
  function RowsOf(links: seq<Link>, tag: nat): seq<Link> {
    if links == [] then [] else (if links[0].tag == tag then [links[0]] else []) + RowsOf(links[1..], tag)
  }

  /** After merging, the items of to are those of both tags together; from has none; other tags have the very same rows. */
  lemma MergeIsUnion(links: seq<Link>, from: nat, to: nat)
    requires NoDuplicates(links) && from != to
    ensures var merged := Merge(links, from, to, ItemsOf(links, to));
            && ItemsOf(merged, to) == ItemsOf(links, from) + ItemsOf(links, to)
            && ItemsOf(merged, from) == {}
            && NoDuplicates(merged)
            && forall tag :: tag != from && tag != to ==> RowsOf(merged, tag) == RowsOf(links, tag)
  {
    var existing := ItemsOf(links, to);
    var merged := Merge(links, from, to, existing);
    MergeKeepsDistinct(links, from, to, existing);
    forall item ensures item in ItemsOf(merged, to) <==> item in ItemsOf(links, from) + ItemsOf(links, to) {
      MergedRows(links, from, to, existing, Link(item, to));
      InItems(merged, item, to);
      InItems(links, item, to);
      InItems(links, item, from);
    }
    forall item ensures item !in ItemsOf(merged, from) {
      MergedRows(links, from, to, existing, Link(item, from));
      InItems(merged, item, from);
    }
    forall tag | tag != from && tag != to ensures RowsOf(merged, tag) == RowsOf(links, tag) {
      MergeKeepsOthers(links, from, to, existing, tag);
    }
  }

  lemma InItems(links: seq<Link>, item: nat, tag: nat)
    ensures item in ItemsOf(links, tag) <==> Link(item, tag) in links
  {
  }

  // ---------- the rename ----------

  function RenameTag(t: Tables, oldName: string, newName: string): Tables {
    match FindTag(t.tags, Tag(oldName, MainCategory))
    case None => t
    case Some(from) =>
      match FindTag(t.tags, Tag(newName, MainCategory))
      case None => t.(tags := t.tags[from := Tag(newName, MainCategory)])
      case Some(to) =>
        if to == from then t.(tags := t.tags[from := Tag(newName, MainCategory)])
        else t.(tags := t.tags - {from}, links := Merge(t.links, from, to, ItemsOf(t.links, to)))
  }

  function Renamed(t: Tables, id: nat, newName: string): Tables
    requires id in t.categories
  {
    var oldName := t.categories[id];
    var moved := t.(items := map i | i in t.items :: if t.items[i] == oldName then newName else t.items[i]);
    RenameTag(moved, oldName, newName).(categories := t.categories[id := newName])
  }

  datatype Outcome = NotFound | EmptyName | NameTaken | Unchanged | Done

  function RenameOutcome(t: Tables, id: nat, name: string): Outcome {
    if id !in t.categories then NotFound
    else if Strip(name) == "" then EmptyName
    else if Strip(name) == t.categories[id] then Unchanged
    else if exists other :: other in t.categories && other != id && t.categories[other] == Strip(name) then NameTaken
    else Done
  }

  class CategoryTables {
    var categories: map<nat, string>
    var items: map<nat, string>
    var tags: map<nat, Tag>
    var links: seq<Link>

    ghost function View(): Tables
      reads this
    {
      Tables(categories, items, tags, links)
    }

    constructor (t: Tables)
      ensures View() == t
    {
      categories, items, tags, links := t.categories, t.items, t.tags, t.links;
    }

    method RenameMainCategoryTag(oldName: string, newName: string)
      modifies this`tags, this`links
      ensures View() == RenameTag(old(View()), oldName, newName)
    {
      var from := FindTag(tags, Tag(oldName, MainCategory));
      if from.None? {
        return;
      }
      var to := FindTag(tags, Tag(newName, MainCategory));
      if to.None? || to == from {
        tags := tags[from.value := Tag(newName, MainCategory)];
        return;
      }
      MergeLinks(from.value, to.value);
      tags := tags - {from.value};
    }

    method MergeLinks(from: nat, to: nat)
      modifies this`links
      ensures links == Merge(old(links), from, to, ItemsOf(old(links), to))
    {
      hide ItemsOf;
      var existing := ItemsOf(links, to);
      var before, after := links, [];
      ghost var merged := Merge(links, from, to, existing);
      assert before[0..] == before;
      for i := 0 to |before|
        invariant merged == after + Merge(before[i..], from, to, existing)
      {
        var row := before[i];
        MergeStep(before, i, from, to, existing);
        hide Merge;
        if row.tag != from {
          after := after + [row];
        } else if row.item !in existing {
          after := after + [Link(row.item, to)];
          existing := existing + {row.item};
        }
      }
      links := after;
    }

    method UpdateMainCategory(id: nat, name: string) returns (r: Outcome)
      modifies this
      ensures r == RenameOutcome(old(View()), id, name)
      ensures View() == if r.Done? then Renamed(old(View()), id, Strip(name)) else old(View())
    {
      if id !in categories {
        return NotFound;
      }
      var newName := Strip(name);
      if newName == "" {
        return EmptyName;
      }
      var oldName := categories[id];
      if newName == oldName {
        return Unchanged;
      }
      if exists other :: other in categories && other != id && categories[other] == newName {
        return NameTaken;
      }
      items := map i | i in items :: if items[i] == oldName then newName else items[i];
      RenameMainCategoryTag(oldName, newName);
      categories := categories[id := newName];
      return Done;
    }
  }

  // ---------- agreement of text and tag ----------

  /** The item has a main category tag of the name. */
  predicate HasCategoryTag(t: Tables, item: nat, name: string) {
    exists row :: row in t.links && row.item == item && row.tag in t.tags && t.tags[row.tag] == Tag(name, MainCategory)
  }

  /** Every item has a main category tag of the name it stores, and of no other. */
  ghost predicate Agrees(t: Tables) {
    forall item, name :: item in t.items ==> (HasCategoryTag(t, item, name) <==> t.items[item] == name)
  }

  predicate IsTagOf(t: Tables, id: nat, name: string) {
    id in t.tags && t.tags[id] == Tag(name, MainCategory)
  }

  lemma HasIffLinked(t: Tables, item: nat, name: string, id: nat)
    requires IsTagOf(t, id, name) && forall other :: IsTagOf(t, other, name) ==> other == id
    ensures HasCategoryTag(t, item, name) <==> Link(item, id) in t.links
  {
    if HasCategoryTag(t, item, name) {
      var row :| row in t.links && row.item == item && row.tag in t.tags && t.tags[row.tag] == Tag(name, MainCategory);
      assert IsTagOf(t, row.tag, name) && row == Link(item, id);
    }
  }

  lemma HasNot(t: Tables, item: nat, name: string)
    requires forall id :: !IsTagOf(t, id, name)
    ensures !HasCategoryTag(t, item, name)
  {
    assert forall id :: id in t.tags && t.tags[id] == Tag(name, MainCategory) ==> IsTagOf(t, id, name);
  }

  /** A category tag of another name than the two is left with its rows as they are. */
  lemma OtherTagsKept(t: Tables, after: Tables, item: nat, name: string)
    requires forall id :: IsTagOf(t, id, name) <==> IsTagOf(after, id, name)
    requires forall id :: IsTagOf(t, id, name) ==> (Link(item, id) in t.links <==> Link(item, id) in after.links)
    ensures HasCategoryTag(after, item, name) <==> HasCategoryTag(t, item, name)
  {
    if HasCategoryTag(t, item, name) {
      var row :| row in t.links && row.item == item && row.tag in t.tags && t.tags[row.tag] == Tag(name, MainCategory);
      assert IsTagOf(t, row.tag, name) && row == Link(item, row.tag);
    }
    if HasCategoryTag(after, item, name) {
      var row :| row in after.links && row.item == item && row.tag in after.tags
                 && after.tags[row.tag] == Tag(name, MainCategory);
      assert IsTagOf(after, row.tag, name) && row == Link(item, row.tag);
    }
  }

  /** An item has a category tag after the rename exactly if it had one that the rename takes to it. */
  lemma TagsAreRenamed(t: Tables, oldName: string, newName: string, item: nat, name: string)
    requires Valid(t) && oldName != newName
    ensures HasCategoryTag(RenameTag(t, oldName, newName), item, name) <==>
            (name != oldName && HasCategoryTag(t, item, name)) || (name == newName && HasCategoryTag(t, item, oldName))
  {
    hide HasCategoryTag;
    var after := RenameTag(t, oldName, newName);
    var from, to := FindTag(t.tags, Tag(oldName, MainCategory)), FindTag(t.tags, Tag(newName, MainCategory));
    if from.None? {
      HasNot(t, item, oldName);
    } else if to.None? {
      HasNot(t, item, newName);
      HasIffLinked(t, item, oldName, from.value);
      if name == newName {
        HasIffLinked(after, item, newName, from.value);
      } else if name == oldName {
        HasNot(after, item, oldName);
      } else {
        OtherTagsKept(t, after, item, name);
      }
    } else {
      TagsAreMerged(t, from.value, to.value, oldName, newName, item, name);
    }
  }

  lemma TagsAreMerged(t: Tables, from: nat, to: nat, oldName: string, newName: string, item: nat, name: string)
    requires Valid(t) && oldName != newName && IsTagOf(t, from, oldName) && IsTagOf(t, to, newName)
    ensures var after := t.(tags := t.tags - {from}, links := Merge(t.links, from, to, ItemsOf(t.links, to)));
            HasCategoryTag(after, item, name) <==>
            (name != oldName && HasCategoryTag(t, item, name)) || (name == newName && HasCategoryTag(t, item, oldName))
  {
    hide HasCategoryTag, Merge;
    var existing := ItemsOf(t.links, to);
    var after := t.(tags := t.tags - {from}, links := Merge(t.links, from, to, existing));
    HasIffLinked(t, item, oldName, from);
    HasIffLinked(t, item, newName, to);
    if name == oldName {
      HasNot(after, item, oldName);
    } else if name == newName {
      HasIffLinked(after, item, newName, to);
      MergedRows(t.links, from, to, existing, Link(item, to));
      InItems(t.links, item, to);
    } else {
      forall id | IsTagOf(t, id, name) ensures Link(item, id) in t.links <==> Link(item, id) in after.links {
        MergedRows(t.links, from, to, existing, Link(item, id));
      }
      OtherTagsKept(t, after, item, name);
    }
  }

  /**
   * A rename keeps every item's category text and category tag in agreement, also when the new name had a tag already and
   * the two are merged, and it keeps the tables free of duplicate links, tags and category names.
   */
  lemma RenameKeepsAgreement(t: Tables, id: nat, name: string)
    requires Valid(t) && RenameOutcome(t, id, name).Done?
    ensures Valid(Renamed(t, id, Strip(name)))
    ensures Agrees(t) ==> Agrees(Renamed(t, id, Strip(name)))
  {
    var oldName, newName := t.categories[id], Strip(name);
    var moved := t.(items := map i | i in t.items :: if t.items[i] == oldName then newName else t.items[i]);
    var after := Renamed(t, id, newName);
    RenameKeepsValid(t, moved, oldName, newName, id);
    MovedIsValid(t, moved, oldName, newName);
    hide Strip, HasCategoryTag, RenameTag, Valid;
    if Agrees(t) {
      forall item, n | item in after.items
        ensures HasCategoryTag(after, item, n) <==> after.items[item] == n
      {
        RenamedTags(t, id, newName, item, n);
        RenamedTags(t, id, newName, item, oldName);
      }
    }
  }

  lemma MovedIsValid(t: Tables, moved: Tables, oldName: string, newName: string)
    requires Valid(t) && moved == t.(items := moved.items)
    ensures Valid(moved) && RenameTag(moved, oldName, newName).items == moved.items
  {
  }

  lemma SameTags(t: Tables, u: Tables, item: nat, name: string)
    requires t.tags == u.tags && t.links == u.links
    ensures HasCategoryTag(t, item, name) <==> HasCategoryTag(u, item, name)
  {
  }

  lemma RenameKeepsValid(t: Tables, moved: Tables, oldName: string, newName: string, id: nat)
    requires Valid(t) && oldName != newName && moved == t.(items := moved.items)
    requires id in t.categories && forall other :: other in t.categories && other != id ==> t.categories[other] != newName
    ensures Valid(RenameTag(moved, oldName, newName).(categories := t.categories[id := newName]))
  {
    hide Merge, HasCategoryTag;
    var from, to := FindTag(t.tags, Tag(oldName, MainCategory)), FindTag(t.tags, Tag(newName, MainCategory));
    if from.Some? && to.Some? {
      var merged := Merge(t.links, from.value, to.value, ItemsOf(t.links, to.value));
      MergeIsUnion(t.links, from.value, to.value);
      forall i | 0 <= i < |merged| ensures merged[i].tag in t.tags && merged[i].tag != from.value {
        MergedRows(t.links, from.value, to.value, ItemsOf(t.links, to.value), merged[i]);
      }
    }
  }

  // ---------- any number of renames ----------

  datatype Request = Request(id: nat, name: string)

  function Requested(t: Tables, r: Request): Tables {
    if RenameOutcome(t, r.id, r.name).Done? then Renamed(t, r.id, Strip(r.name)) else t
  }

  function RequestAll(t: Tables, requests: seq<Request>): Tables
    decreases |requests|
  {
    if requests == [] then t else RequestAll(Requested(t, requests[0]), requests[1..])
  }

  /** The item stores the category's name. */
  predicate IsIn(t: Tables, item: nat, id: nat) {
    item in t.items && id in t.categories && t.items[item] == t.categories[id]
  }

  lemma RequestKeeps(t: Tables, r: Request)
    requires Valid(t)
    ensures var u := Requested(t, r);
            && Valid(u) && u.categories.Keys == t.categories.Keys && u.items.Keys == t.items.Keys
            && (Agrees(t) ==> Agrees(u))
            && forall item, id :: IsIn(t, item, id) ==> IsIn(u, item, id)
  {
    if RenameOutcome(t, r.id, r.name).Done? {
      RenameKeepsAgreement(t, r.id, r.name);
      RenamedItems(t, r.id, Strip(r.name));
      hide Renamed, Agrees, Strip;
    }
  }

  lemma RenamedItems(t: Tables, id: nat, name: string)
    requires id in t.categories
    ensures var u := Renamed(t, id, name);
            && u.categories == t.categories[id := name] && u.items.Keys == t.items.Keys
            && forall item :: item in t.items ==>
                                u.items[item] == if t.items[item] == t.categories[id] then name else t.items[item]
  {
  }

  /**
   * Whatever renames are requested, and in whatever order, names stay unique, texts and tags stay in agreement, no category
   * or item is lost, and every item stays in the category row that it was in.
   */
  lemma {:induction false} ItemsFollowTheirCategory(t: Tables, requests: seq<Request>)
    requires Valid(t)
    ensures var u := RequestAll(t, requests);
            && Valid(u) && u.categories.Keys == t.categories.Keys && u.items.Keys == t.items.Keys
            && (Agrees(t) ==> Agrees(u))
            && forall item, id :: IsIn(t, item, id) ==> IsIn(u, item, id)
    decreases |requests|
  {
    hide Valid, Agrees, IsIn, Requested;
    if requests != [] {
      RequestKeeps(t, requests[0]);
      ItemsFollowTheirCategory(Requested(t, requests[0]), requests[1..]);
    }
  }

  /**
   * Renaming a category and then back again is accepted, and brings back its name; it brings back every item's text exactly
   * if no item stored the other name before, and every item's category tags exactly if no item had a tag of it.
   */
  lemma RenameBackRestoresIff(t: Tables, id: nat, name: string)
    requires Valid(t) && RenameOutcome(t, id, name).Done?
    requires Strip(t.categories[id]) == t.categories[id] != ""
    ensures var oldName, newName := t.categories[id], Strip(name);
            var u := Requested(t, Request(id, name));
            var v := Requested(u, Request(id, oldName));
            && RenameOutcome(u, id, oldName).Done? && v.categories == t.categories
            && (v.items == t.items <==> forall item :: item in t.items ==> t.items[item] != newName)
            && ((forall item, n :: HasCategoryTag(v, item, n) <==> HasCategoryTag(t, item, n))
                <==> forall item :: !HasCategoryTag(t, item, newName))
  {
    var oldName, newName := t.categories[id], Strip(name);
    var u := Renamed(t, id, newName);
    RenameKeepsAgreement(t, id, name);
    RenamedItems(t, id, newName);
    RenamedItems(u, id, oldName);
    hide Valid, Renamed, HasCategoryTag, Strip;
    assert RenameOutcome(u, id, oldName).Done?;
    assert Renamed(u, id, oldName).categories == t.categories;
    RenameBackTags(t, id, newName);
    ItemsRestoredIff(t.items, u.items, Renamed(u, id, oldName).items, oldName, newName);
  }

  lemma ItemsRestoredIff(was: map<nat, string>, mid: map<nat, string>, now: map<nat, string>, a: string, b: string)
    requires a != b && was.Keys == mid.Keys == now.Keys
    requires forall i :: i in was ==> mid[i] == if was[i] == a then b else was[i]
    requires forall i :: i in was ==> now[i] == if mid[i] == b then a else mid[i]
    ensures now == was <==> forall i :: i in was ==> was[i] != b
  {
    if i :| i in was && was[i] == b {
      assert now[i] == a;
    }
  }

  lemma RenameBackTags(t: Tables, id: nat, newName: string)
    requires Valid(t) && id in t.categories && t.categories[id] != newName
    requires Valid(Renamed(t, id, newName))
    ensures var v := Renamed(Renamed(t, id, newName), id, t.categories[id]);
            (forall item, n :: HasCategoryTag(v, item, n) <==> HasCategoryTag(t, item, n))
            <==> forall item :: !HasCategoryTag(t, item, newName)
  {
    var oldName := t.categories[id];
    var u := Renamed(t, id, newName);
    RenamedItems(t, id, newName);
    hide Valid, Renamed, HasCategoryTag;
    var v := Renamed(u, id, oldName);
    forall item, n
      ensures HasCategoryTag(v, item, n) <==>
              n != newName && (HasCategoryTag(t, item, n) || (n == oldName && HasCategoryTag(t, item, newName)))
    {
      RenamedTags(t, id, newName, item, n);
      RenamedTags(t, id, newName, item, newName);
      RenamedTags(u, id, oldName, item, n);
    }
    if item :| HasCategoryTag(t, item, newName) {
      assert !HasCategoryTag(v, item, newName);
    }
  }

  lemma RenamedTags(t: Tables, id: nat, newName: string, item: nat, name: string)
    requires Valid(t) && id in t.categories && t.categories[id] != newName
    ensures var oldName := t.categories[id];
            HasCategoryTag(Renamed(t, id, newName), item, name) <==>
            (name != oldName && HasCategoryTag(t, item, name)) || (name == newName && HasCategoryTag(t, item, oldName))
  {
    var oldName := t.categories[id];
    var moved := t.(items := map i | i in t.items :: if t.items[i] == oldName then newName else t.items[i]);
    MovedIsValid(t, moved, oldName, newName);
    hide HasCategoryTag, RenameTag, Valid;
    SameTags(t, moved, item, name);
    SameTags(t, moved, item, oldName);
    TagsAreRenamed(moved, oldName, newName, item, name);
    SameTags(RenameTag(moved, oldName, newName), Renamed(t, id, newName), item, name);
  }
}
