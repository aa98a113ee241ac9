// The counts that the facets show beside each root name, before the longest ones are picked,
// against the items that the filter for the name returns.
module TagFacets {
  import opened Prelude
  import opened TagRoots

  // Which items carry which tags, and which items may be seen.
  datatype Content = Content(tags: map<nat, Tag>, parents: map<nat, nat>, links: set<(nat, nat)>, visible: set<nat>)

  // The tags were read before the rows, so that a row may be of a tag that is not in them; it carries its own name.
  datatype Row = Row(tag: nat, name: string, count: nat)

  function ItemsOf(c: Content, tag: nat): set<nat> {
    set i | i in c.visible && (i, tag) in c.links
  }

  // What the query returns of unchanged tags, in any order: the sub tags of visible items, each with the number of those items.
  ghost predicate RowsOf(c: Content, rows: seq<Row>) {
    && (forall k :: 0 <= k < |rows| ==>
          rows[k].tag in SubTags(c.tags) && rows[k].name == c.tags[rows[k].tag].name
          && rows[k].count == |ItemsOf(c, rows[k].tag)|)
    && (forall j, k :: 0 <= j < k < |rows| ==> rows[j].tag != rows[k].tag)
    && (forall t :: t in SubTags(c.tags) && ItemsOf(c, t) != {} ==> exists k :: 0 <= k < |rows| && rows[k].tag == t)
  }

  function Shown(c: Content, row: Row): string {
    if row.tag in c.tags then ShownName(c.tags, c.parents, row.tag) else row.name
  }

  function CountFor(c: Content, rows: seq<Row>, name: string): nat {
    if rows == [] then 0
    else
      var last := rows[|rows| - 1];
      CountFor(c, rows[..|rows| - 1], name) + if Shown(c, last) == name then last.count else 0
  }

  function CountAll(rows: seq<Row>): nat {
    if rows == [] then 0 else CountAll(rows[..|rows| - 1]) + rows[|rows| - 1].count
  }

  function Total(counts: map<string, nat>, names: seq<string>): nat
    requires forall n :: n in names ==> n in counts
  {
    if names == [] then 0 else Total(counts, names[..|names| - 1]) + counts[names[|names| - 1]]
  }

  predicate Distinct(names: seq<string>) {
    forall i, j :: 0 <= i < j < |names| ==> names[i] != names[j]
  }

  lemma {:induction false} TotalWithout(counts: map<string, nat>, names: seq<string>, name: string, n: nat)
    requires (forall m :: m in names ==> m in counts) && name !in names
    ensures Total(counts[name := n], names) == Total(counts, names)
    decreases |names|
  {
    if names != [] {
      TotalWithout(counts, names[..|names| - 1], name, n);
    }
  }

  lemma {:induction false} TotalAdds(counts: map<string, nat>, names: seq<string>, name: string, n: nat)
    requires (forall m :: m in names ==> m in counts) && Distinct(names) && name in names
    ensures Total(counts[name := counts[name] + n], names) == Total(counts, names) + n
    decreases |names|
  {
    var init, last := names[..|names| - 1], names[|names| - 1];
    assert names == init + [last];
    if name == last {
      TotalWithout(counts, init, name, counts[name] + n);
    } else {
      TotalAdds(counts, init, name, n);
    }
  }

  // Each name has the sum of its rows, each name of a row is there, and the sum of all is that of the rows.
  ghost predicate CountsUpTo(c: Content, rows: seq<Row>, counts: map<string, nat>, names: seq<string>) {
    && Distinct(names) && (forall n :: n in names <==> n in counts)
    && (forall n :: n in counts <==> exists k :: 0 <= k < |rows| && Shown(c, rows[k]) == n)
    && (forall n :: (if n in counts then counts[n] else 0) == CountFor(c, rows, n))
    && Total(counts, names) == CountAll(rows)
  }

  lemma NothingCounted(c: Content, rows: seq<Row>)
    requires rows == []
    ensures CountsUpTo(c, rows, map[], [])
  {
  }

  lemma CountKnown(c: Content, rows: seq<Row>, counts: map<string, nat>, names: seq<string>, row: Row)
    requires CountsUpTo(c, rows, counts, names) && Shown(c, row) in counts
    ensures CountsUpTo(c, rows + [row], counts[Shown(c, row) := counts[Shown(c, row)] + row.count], names)
  {
    hide Shown, Distinct;
    var name := Shown(c, row);
    var after := counts[name := counts[name] + row.count];
    SplitLast(c, rows, row);
    TotalAdds(counts, names, name, row.count);
    forall n ensures n in after <==> exists k :: 0 <= k < |rows + [row]| && Shown(c, (rows + [row])[k]) == n {
      if k :| 0 <= k < |rows| && Shown(c, rows[k]) == n {
        assert (rows + [row])[k] == rows[k];
      }
    }
  }

  lemma CountNew(c: Content, rows: seq<Row>, counts: map<string, nat>, names: seq<string>, row: Row)
    requires CountsUpTo(c, rows, counts, names) && Shown(c, row) !in counts
    ensures CountsUpTo(c, rows + [row], counts[Shown(c, row) := row.count], names + [Shown(c, row)])
  {
    hide Shown;
    var name := Shown(c, row);
    var after := counts[name := row.count];
    SplitLast(c, rows, row);
    TotalWithout(counts, names, name, row.count);
    assert (names + [name])[..|names|] == names;
    forall n ensures n in after <==> exists k :: 0 <= k < |rows + [row]| && Shown(c, (rows + [row])[k]) == n {
      if n == name {
        assert (rows + [row])[|rows|] == row;
      } else if k :| 0 <= k < |rows| && Shown(c, rows[k]) == n {
        assert (rows + [row])[k] == rows[k];
      }
    }
  }

  lemma SplitLast(c: Content, rows: seq<Row>, row: Row)
    ensures forall n :: CountFor(c, rows + [row], n) == CountFor(c, rows, n) + if Shown(c, row) == n then row.count else 0
    ensures CountAll(rows + [row]) == CountAll(rows) + row.count
  {
    assert (rows + [row])[..|rows|] == rows;
  }

  /** The dictionary of the source, with its keys in order of insertion. Nothing is lost and nothing counted twice. */
  method FacetCounts(c: Content, rows: seq<Row>) returns (counts: map<string, nat>, names: seq<string>)
    ensures CountsUpTo(c, rows, counts, names)
  {
    hide CountsUpTo, Shown, CountFor, CountAll, Total, Distinct;
    counts, names := map[], [];
    NothingCounted(c, rows[..0]);
    for k := 0 to |rows|
      invariant CountsUpTo(c, rows[..k], counts, names)
    {
      var row := rows[k];
      var name := Shown(c, row);
      ghost var before := rows[..k];
      assert rows[..k + 1] == before + [row];
      if name in counts {
        CountKnown(c, before, counts, names, row);
        counts := counts[name := counts[name] + row.count];
      } else {
        CountNew(c, before, counts, names, row);
        counts, names := counts[name := row.count], names + [name];
      }
    }
    assert rows[..|rows|] == rows;
  }

  // ---------- counts against filtered items ----------

  /** The visible items that the filter for the name returns. */
  function Filtered(c: Content, name: string): set<nat> {
    set i, t | t in Selected(c.tags, c.parents, name) && i in c.visible && (i, t) in c.links :: i
  }

  function ItemsFor(c: Content, rows: seq<Row>, name: string): set<nat> {
    if rows == [] then {}
    else
      var last := rows[|rows| - 1];
      ItemsFor(c, rows[..|rows| - 1], name) + if Shown(c, last) == name then ItemsOf(c, last.tag) else {}
  }

  // No visible item carries two tags shown under the name.
  ghost predicate NoneTwice(c: Content, rows: seq<Row>, name: string) {
    forall j, k :: 0 <= j < k < |rows| && Shown(c, rows[j]) == name && Shown(c, rows[k]) == name ==>
                     ItemsOf(c, rows[j].tag) !! ItemsOf(c, rows[k].tag)
  }

  lemma {:induction false} InItemsFor(c: Content, rows: seq<Row>, name: string, i: nat)
    ensures i in ItemsFor(c, rows, name) <==>
            exists k :: 0 <= k < |rows| && Shown(c, rows[k]) == name && i in ItemsOf(c, rows[k].tag)
    decreases |rows|
  {
    if rows != [] {
      InItemsFor(c, rows[..|rows| - 1], name, i);
    }
  }

  lemma UnionSize(a: set<nat>, b: set<nat>)
    ensures |a + b| <= |a| + |b|
    ensures |a + b| == |a| + |b| <==> a !! b
  {
    assert a + b == a + (b - a);
    if x :| x in a && x in b {
      assert b == (b - a) + (b * a) && x in b * a;
    } else {
      assert b - a == b;
    }
  }

  lemma {:induction false} SumAgainstUnion(c: Content, rows: seq<Row>, name: string)
    requires forall k :: 0 <= k < |rows| ==> rows[k].count == |ItemsOf(c, rows[k].tag)|
    ensures |ItemsFor(c, rows, name)| <= CountFor(c, rows, name)
    ensures |ItemsFor(c, rows, name)| == CountFor(c, rows, name) <==> NoneTwice(c, rows, name)
    decreases |rows|
  {
    if rows != [] {
      var init, last := rows[..|rows| - 1], rows[|rows| - 1];
      SumAgainstUnion(c, init, name);
      if Shown(c, last) == name {
        UnionSize(ItemsFor(c, init, name), ItemsOf(c, last.tag));
        NoneTwiceSplits(c, rows, name);
      } else {
        assert NoneTwice(c, rows, name) <==> NoneTwice(c, init, name);
      }
    }
  }

  lemma NoneTwiceSplits(c: Content, rows: seq<Row>, name: string)
    requires rows != [] && Shown(c, rows[|rows| - 1]) == name
    ensures var init, last := rows[..|rows| - 1], rows[|rows| - 1];
            NoneTwice(c, rows, name) <==> NoneTwice(c, init, name) && ItemsFor(c, init, name) !! ItemsOf(c, last.tag)
  {
    hide ItemsFor, ItemsOf, Shown;
    var init, last := rows[..|rows| - 1], rows[|rows| - 1];
    assert forall j :: 0 <= j < |init| ==> init[j] == rows[j];
    var before := ItemsFor(c, init, name);
    forall i ensures i in before <==>
        exists k :: 0 <= k < |init| && Shown(c, init[k]) == name && i in ItemsOf(c, init[k].tag)
    {
      InItemsFor(c, init, name, i);
    }
    if NoneTwice(c, init, name) && before !! ItemsOf(c, last.tag) {
      forall j, k | 0 <= j < k < |rows| && Shown(c, rows[j]) == name && Shown(c, rows[k]) == name
        ensures ItemsOf(c, rows[j].tag) !! ItemsOf(c, rows[k].tag)
      {
        if k == |init| {
          assert ItemsOf(c, init[j].tag) <= before;
        } else {
          assert init[j] == rows[j] && init[k] == rows[k];
        }
      }
    }
  }

  /**
   * Provided roots are sub tags, the count shown for a name is at least the number of items that its filter returns, and
   * the same number exactly if no visible item carries two tags of that name.
   */
  lemma CountAgainstFilter(c: Content, rows: seq<Row>, name: string)
    requires RowsOf(c, rows) && RootsAreSubTags(c.tags, c.parents)
    ensures |Filtered(c, name)| <= CountFor(c, rows, name)
    ensures |Filtered(c, name)| == CountFor(c, rows, name) <==> NoneTwice(c, rows, name)
  {
    hide RootsAreSubTags, NoneTwice, CountFor, Filtered, ItemsFor;
    SumAgainstUnion(c, rows, name);
    FilteredAreCounted(c, rows, name);
  }

  lemma FilteredAreCounted(c: Content, rows: seq<Row>, name: string)
    requires RowsOf(c, rows) && RootsAreSubTags(c.tags, c.parents)
    ensures ItemsFor(c, rows, name) == Filtered(c, name)
  {
    hide RootsAreSubTags, ItemsFor;
    FilterMatchesFacetsIff(c.tags, c.parents);
    assert Selected(c.tags, c.parents, name) == ShownUnder(c.tags, c.parents, name);
    hide Selected;
    forall i ensures i in ItemsFor(c, rows, name) <==> i in Filtered(c, name) {
      InItemsFor(c, rows, name, i);
      if i in Filtered(c, name) {
        var t :| t in Selected(c.tags, c.parents, name) && i in c.visible && (i, t) in c.links;
        assert i in ItemsOf(c, t);
        var k :| 0 <= k < |rows| && rows[k].tag == t;
        assert Shown(c, rows[k]) == name;
      }
    }
  }
}
