// Following tag aliases to a root, and the tags that a filter for a displayed name selects.
// parents is the approved alias map; nothing keeps it free of cycles.
module TagRoots {
  import opened Prelude

  datatype Kind = SubTag | MainCategory

  datatype Tag = Tag(name: string, kind: Kind)

  /** The tag of that name and kind. */
  function FindTag(tags: map<nat, Tag>, tag: Tag): Option<nat> {
    if id :| id in tags && tags[id] == tag && forall other :: other in tags && tags[other] == tag ==> id <= other
    then Some(id) else None
  }

  /** The walk of the source: go to the parent until there is none or the tag was seen before. */
  function Walk(parents: map<nat, nat>, current: nat, seen: set<nat>): nat
    decreases parents.Keys - seen
  {
    if current in parents && current !in seen then
      assert parents.Keys - (seen + {current}) < parents.Keys - seen by {
        assert current in parents.Keys - seen;
      }
      Walk(parents, parents[current], seen + {current})
    else current
  }

  function Root(parents: map<nat, nat>, tag: nat): nat {
    Walk(parents, tag, {})
  }

  lemma RootOneUp(parents: map<nat, nat>, tag: nat)
    requires tag in parents && parents[tag] !in parents
    ensures Root(parents, tag) == parents[tag]
  {
    assert Walk(parents, tag, {}) == Walk(parents, parents[tag], {} + {tag});
  }

  method FindRootTagId(tag: nat, parents: map<nat, nat>) returns (current: nat)
    ensures current == Root(parents, tag)
  {
    var seen: set<nat> := {};
    current := tag;
    while current in parents && current !in seen
      invariant Walk(parents, current, seen) == Root(parents, tag)
      decreases parents.Keys - seen
    {
      assert current in parents.Keys - seen;
      seen := seen + {current};
      current := parents[current];
    }
  }

  // ---------- what a root is ----------

  /** n steps up, staying where there is no parent. */
  function Up(parents: map<nat, nat>, tag: nat, n: nat): nat
    decreases n
  {
    if n == 0 || tag !in parents then tag else Up(parents, parents[tag], n - 1)
  }

  ghost predicate OnCycle(parents: map<nat, nat>, tag: nat) {
    tag in parents && exists n: nat :: n > 0 && Up(parents, tag, n) == tag
  }

  /** Where aliases lead no further: a tag without parent, or one on a cycle. */
  ghost predicate IsStop(parents: map<nat, nat>, tag: nat) {
    tag !in parents || OnCycle(parents, tag)
  }

  ghost predicate Reaches(parents: map<nat, nat>, from: nat, to: nat) {
    exists n: nat :: Up(parents, from, n) == to
  }

  lemma {:induction false} UpAdds(parents: map<nat, nat>, tag: nat, m: nat, n: nat)
    ensures Up(parents, tag, m + n) == Up(parents, Up(parents, tag, m), n)
    decreases m
  {
    if m > 0 && tag in parents {
      UpAdds(parents, parents[tag], m - 1, n);
    } else if m > 0 {
      assert Up(parents, tag, m + n) == tag && Up(parents, tag, n) == tag;
    }
  }

  lemma ReachesParent(parents: map<nat, nat>, from: nat, to: nat)
    requires Reaches(parents, from, to) && to in parents
    ensures Reaches(parents, from, parents[to])
  {
    var n: nat :| Up(parents, from, n) == to;
    UpAdds(parents, from, n, 1);
    assert Up(parents, to, 1) == parents[to];
    assert Up(parents, from, n + 1) == parents[to];
  }

  /** What the walk cannot reach makes no difference to it. */
  lemma {:induction false} WalkIgnores(parents: map<nat, nat>, current: nat, seen: set<nat>, x: nat)
    requires !Reaches(parents, current, x)
    ensures Walk(parents, current, seen + {x}) == Walk(parents, current, seen)
    decreases parents.Keys - seen
  {
    assert Up(parents, current, 0) == current;
    if current in parents && current !in seen {
      assert current in parents.Keys - seen;
      var next := parents[current];
      if Reaches(parents, next, x) {
        var n: nat :| Up(parents, next, n) == x;
        assert Up(parents, current, n + 1) == x;
      }
      WalkIgnores(parents, next, seen + {current}, x);
      assert seen + {x} + {current} == seen + {current} + {x};
    }
  }

  lemma OffCycleSharesParentsRoot(parents: map<nat, nat>, tag: nat)
    requires !IsStop(parents, tag)
    ensures Root(parents, tag) == Root(parents, parents[tag])
  {
    var next := parents[tag];
    if Reaches(parents, next, tag) {
      var n: nat :| Up(parents, next, n) == tag;
      assert Up(parents, tag, n + 1) == tag;
    }
    WalkIgnores(parents, next, {}, tag);
    assert {} + {tag} == {tag};
  }

  /** The tags on the first n steps of the walk. */
  function Trail(parents: map<nat, nat>, tag: nat, n: nat): set<nat> {
    set k: nat | k < n :: Up(parents, tag, k)
  }

  lemma {:induction false} LeastReturn(parents: map<nat, nat>, tag: nat, n: nat) returns (least: nat)
    requires n > 0 && Up(parents, tag, n) == tag
    ensures 0 < least <= n && Up(parents, tag, least) == tag
    ensures forall k :: 0 < k < least ==> Up(parents, tag, k) != tag
    decreases n
  {
    if k :| 0 < k < n && Up(parents, tag, k) == tag {
      least := LeastReturn(parents, tag, k);
    } else {
      least := n;
    }
  }

  lemma TrailIsDistinct(parents: map<nat, nat>, tag: nat, n: nat, k: nat)
    requires 0 < k < n && Up(parents, tag, n) == tag
    requires forall j :: 0 < j < n ==> Up(parents, tag, j) != tag
    ensures Up(parents, tag, k) !in Trail(parents, tag, k)
  {
    if Up(parents, tag, k) in Trail(parents, tag, k) {
      var i: nat :| i < k && Up(parents, tag, i) == Up(parents, tag, k);
      UpAdds(parents, tag, k, n - k);
      UpAdds(parents, tag, i, n - k);
    }
  }

  lemma {:induction false} WalkGoesRound(parents: map<nat, nat>, tag: nat, n: nat, k: nat)
    requires tag in parents && 0 < k <= n && Up(parents, tag, n) == tag
    requires forall j :: 0 < j < n ==> Up(parents, tag, j) != tag
    ensures Walk(parents, Up(parents, tag, k), Trail(parents, tag, k)) == tag
    decreases n - k
  {
    var at := Up(parents, tag, k);
    if k == n {
      assert Up(parents, tag, 0) in Trail(parents, tag, k);
    } else {
      TrailIsDistinct(parents, tag, n, k);
      UpAdds(parents, tag, k, n - k);
      assert at in parents;
      UpAdds(parents, tag, k, 1);
      assert Up(parents, at, 1) == parents[at];
      WalkGoesRound(parents, tag, n, k + 1);
      assert Trail(parents, tag, k + 1) == Trail(parents, tag, k) + {at};
    }
  }

  /** A tag without parent, and every tag of a cycle, is its own root. */
  lemma StopIsOwnRoot(parents: map<nat, nat>, tag: nat)
    requires IsStop(parents, tag)
    ensures Root(parents, tag) == tag
  {
    if tag in parents {
      var n: nat :| n > 0 && Up(parents, tag, n) == tag;
      var least := LeastReturn(parents, tag, n);
      WalkGoesRound(parents, tag, least, 1);
      assert Up(parents, tag, 1) == parents[tag] by { assert Up(parents, parents[tag], 0) == parents[tag]; }
      assert Trail(parents, tag, 1) == {} + {tag} by { assert Up(parents, tag, 0) == tag; }
    }
  }

  lemma {:induction false} WalkStops(parents: map<nat, nat>, current: nat, seen: set<nat>)
    requires forall s :: s in seen ==> s in parents && Reaches(parents, parents[s], current)
    ensures IsStop(parents, Walk(parents, current, seen))
    ensures Reaches(parents, current, Walk(parents, current, seen))
    decreases parents.Keys - seen
  {
    assert Up(parents, current, 0) == current;
    if current in parents && current !in seen {
      assert current in parents.Keys - seen;
      var next := parents[current];
      assert Up(parents, next, 0) == next;
      forall s | s in seen + {current} ensures s in parents && Reaches(parents, parents[s], next) {
        if s in seen {
          ReachesParent(parents, parents[s], current);
        }
      }
      WalkStops(parents, next, seen + {current});
      var n: nat :| Up(parents, next, n) == Walk(parents, next, seen + {current});
      assert Up(parents, current, n + 1) == Walk(parents, current, seen);
    } else if current in seen {
      var n: nat :| Up(parents, parents[current], n) == current;
      assert Up(parents, current, n + 1) == current;
    }
  }

  lemma {:induction false} SharedUpTo(parents: map<nat, nat>, tag: nat, n: nat)
    requires forall m: nat :: m < n ==> !IsStop(parents, Up(parents, tag, m))
    ensures Root(parents, tag) == Root(parents, Up(parents, tag, n))
    decreases n
  {
    if n > 0 {
      assert Up(parents, tag, 0) == tag;
      OffCycleSharesParentsRoot(parents, tag);
      forall m: nat | m < n - 1 ensures !IsStop(parents, Up(parents, parents[tag], m)) {
        assert Up(parents, tag, m + 1) == Up(parents, parents[tag], m);
      }
      SharedUpTo(parents, parents[tag], n - 1);
    }
  }

  ghost predicate FirstStop(parents: map<nat, nat>, tag: nat, n: nat) {
    IsStop(parents, Up(parents, tag, n)) && forall m: nat :: m < n ==> !IsStop(parents, Up(parents, tag, m))
  }

  lemma {:induction false} FirstStopExists(parents: map<nat, nat>, tag: nat, n: nat) returns (first: nat)
    requires IsStop(parents, Up(parents, tag, n))
    ensures FirstStop(parents, tag, first)
    decreases n
  {
    if m: nat :| m < n && IsStop(parents, Up(parents, tag, m)) {
      first := FirstStopExists(parents, tag, m);
    } else {
      first := n;
    }
  }

  /** The root is the first tag upwards that has no parent or lies on a cycle: of a cycle, the tag where it is entered. */
  lemma RootIsFirstStop(parents: map<nat, nat>, tag: nat)
    ensures exists n: nat :: FirstStop(parents, tag, n) && Up(parents, tag, n) == Root(parents, tag)
    ensures forall n: nat :: FirstStop(parents, tag, n) ==> Up(parents, tag, n) == Root(parents, tag)
  {
    WalkStops(parents, tag, {});
    var n: nat :| Up(parents, tag, n) == Root(parents, tag);
    assert IsStop(parents, Root(parents, tag));
    assert IsStop(parents, Up(parents, tag, n));
    var first := FirstStopExists(parents, tag, n);
    forall m: nat | FirstStop(parents, tag, m) ensures Up(parents, tag, m) == Root(parents, tag) {
      SharedUpTo(parents, tag, m);
      StopIsOwnRoot(parents, Up(parents, tag, m));
    }
  }

  lemma RootIsIdempotent(parents: map<nat, nat>, tag: nat)
    ensures Root(parents, Root(parents, tag)) == Root(parents, tag)
    ensures IsStop(parents, Root(parents, tag))
  {
    WalkStops(parents, tag, {});
    StopIsOwnRoot(parents, Root(parents, tag));
  }

  // ---------- names and filters ----------

  function SubTags(tags: map<nat, Tag>): map<nat, Tag> {
    map id | id in tags && tags[id].kind.SubTag? :: tags[id]
  }

  /** The name of the root if the table at hand has it, else the tag's own. */
  function RootName(table: map<nat, Tag>, parents: map<nat, nat>, id: nat, own: Tag): string {
    var root := Root(parents, id);
    if root in table then table[root].name else own.name
  }

  /** The name the facets show a sub tag under: looked up among all tags. */
  function ShownName(tags: map<nat, Tag>, parents: map<nat, nat>, id: nat): string
    requires id in tags
  {
    RootName(tags, parents, id, tags[id])
  }

  /** The filter: collect the sub tags with the name, looked up among sub tags only, then take all whose root is one. */
  method TagIdsForRootName(tags: map<nat, Tag>, parents: map<nat, nat>, name: string) returns (ids: set<nat>)
    ensures ids == Selected(tags, parents, name)
  {
    var subTags := SubTags(tags);
    var rootIds := set id | id in subTags && RootName(subTags, parents, id, subTags[id]) == name;
    SelectedByRoot(tags, parents, name);
    if rootIds == {} {
      return {};
    }
    return set id | id in subTags && Root(parents, id) in rootIds;
  }

  /** The sub tags whose root is itself a sub tag of the name. */
  function Selected(tags: map<nat, Tag>, parents: map<nat, nat>, name: string): set<nat> {
    set id | id in SubTags(tags) && Root(parents, id) in SubTags(tags) && tags[Root(parents, id)].name == name
  }

  lemma SelectedByRoot(tags: map<nat, Tag>, parents: map<nat, nat>, name: string)
    ensures var subTags := SubTags(tags);
            var rootIds := set id | id in subTags && RootName(subTags, parents, id, subTags[id]) == name;
            Selected(tags, parents, name) == set id | id in subTags && Root(parents, id) in rootIds
  {
    forall id ensures Root(parents, Root(parents, id)) == Root(parents, id) {
      RootIsIdempotent(parents, id);
    }
  }

  predicate RootsAreSubTags(tags: map<nat, Tag>, parents: map<nat, nat>) {
    forall id :: id in SubTags(tags) ==> Root(parents, id) in SubTags(tags)
  }

  function ShownUnder(tags: map<nat, Tag>, parents: map<nat, nat>, name: string): set<nat> {
    set id | id in SubTags(tags) && ShownName(tags, parents, id) == name
  }

  /**
   * The filter for a name selects exactly the sub tags shown under it, for every name, if and only if every sub tag's root
   * is a sub tag: a tag aliased to a main category is shown under that category's name, and found by no filter.
   */
  lemma FilterMatchesFacetsIff(tags: map<nat, Tag>, parents: map<nat, nat>)
    ensures (forall name :: Selected(tags, parents, name) == ShownUnder(tags, parents, name))
            <==> RootsAreSubTags(tags, parents)
  {
    if RootsAreSubTags(tags, parents) {
      forall name ensures Selected(tags, parents, name) == ShownUnder(tags, parents, name) {
      }
    } else {
      var id :| id in SubTags(tags) && Root(parents, id) !in SubTags(tags);
      var name := ShownName(tags, parents, id);
      assert id in ShownUnder(tags, parents, name) && id !in Selected(tags, parents, name);
    }
  }

  predicate ParentsAreSubTags(tags: map<nat, Tag>, parents: map<nat, nat>) {
    forall id :: id in parents ==> parents[id] in SubTags(tags)
  }

  lemma {:induction false} UpStaysSubTag(tags: map<nat, Tag>, parents: map<nat, nat>, id: nat, n: nat)
    requires ParentsAreSubTags(tags, parents) && id in SubTags(tags)
    ensures Up(parents, id, n) in SubTags(tags)
    decreases n
  {
    if n > 0 && id in parents {
      UpStaysSubTag(tags, parents, parents[id], n - 1);
    }
  }

  /** It is enough that every parent is a sub tag. */
  lemma SubTagParentsSuffice(tags: map<nat, Tag>, parents: map<nat, nat>)
    requires ParentsAreSubTags(tags, parents)
    ensures RootsAreSubTags(tags, parents)
  {
    forall id | id in SubTags(tags) ensures Root(parents, id) in SubTags(tags) {
      WalkStops(parents, id, {});
      var n: nat :| Up(parents, id, n) == Root(parents, id);
      UpStaysSubTag(tags, parents, id, n);
    }
  }

  /** Several names at once: the tags of each, none twice. */
  method TagIdsForRootNames(tags: map<nat, Tag>, parents: map<nat, nat>, names: seq<string>) returns (ids: seq<nat>)
    ensures forall id :: id in ids <==> exists k :: 0 <= k < |names| && id in Selected(tags, parents, names[k])
    ensures forall i, j :: 0 <= i < j < |ids| ==> ids[i] != ids[j]
  {
    ids := [];
    var seen: set<nat> := {};
    for n := 0 to |names|
      invariant forall id :: id in ids <==> id in seen
      invariant forall id :: id in seen <==> exists k :: 0 <= k < n && id in Selected(tags, parents, names[k])
      invariant forall i, j :: 0 <= i < j < |ids| ==> ids[i] != ids[j]
    {
      var found := TagIdsForRootName(tags, parents, names[n]);
      var todo := found;
      while todo != {}
        invariant todo <= found && found == Selected(tags, parents, names[n])
        invariant forall id :: id in ids <==> id in seen
        invariant forall id ::
          id in seen <==> id in found - todo || exists k :: 0 <= k < n && id in Selected(tags, parents, names[k])
        invariant forall i, j :: 0 <= i < j < |ids| ==> ids[i] != ids[j]
        decreases todo
      {
        var id :| id in todo;
        todo := todo - {id};
        if id !in seen {
          seen := seen + {id};
          ids := ids + [id];
        }
      }
    }
  }

  /** Exactly one name's filter selects the tag. */
  ghost predicate FoundOnce(tags: map<nat, Tag>, parents: map<nat, nat>, id: nat) {
    exists name :: id in Selected(tags, parents, name) && forall other | other != name :: id !in Selected(tags, parents, other)
  }

  /** No tag is selected by two names, and every sub tag is by one exactly if all roots are sub tags. */
  lemma FiltersPartitionIff(tags: map<nat, Tag>, parents: map<nat, nat>)
    ensures forall name, other :: name != other ==> Selected(tags, parents, name) !! Selected(tags, parents, other)
    ensures (forall id :: id in SubTags(tags) ==> FoundOnce(tags, parents, id)) <==> RootsAreSubTags(tags, parents)
  {
    forall id | id in SubTags(tags) ensures FoundOnce(tags, parents, id) <==> Root(parents, id) in SubTags(tags) {
      if Root(parents, id) in SubTags(tags) {
        assert id in Selected(tags, parents, tags[Root(parents, id)].name);
      }
    }
  }
}
