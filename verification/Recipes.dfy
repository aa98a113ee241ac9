// Which crawl methods count as ordinary websites: the walk over a recipe's nested actions
// and the tests that exclude feeds, chat histories and internal forums.
module Recipes {
  import opened Prelude
  import opened Text

  datatype Json = Null | Bool(b: bool) | Num(n: int) | Str(s: string) | List(items: seq<Json>) | Obj(fields: seq<Field>)

  datatype Field = Field(name: string, value: Json)

  function Size(j: Json): nat {
    match j
    case List(items) => 1 + SizeAll(items)
    case Obj(fields) => 1 + SizeFields(fields)
    case _ => 1
  }

  function SizeAll(items: seq<Json>): nat {
    if items == [] then 0 else Size(items[0]) + SizeAll(items[1..])
  }

  function SizeFields(fields: seq<Field>): nat {
    if fields == [] then 0 else Size(fields[0].value) + SizeFields(fields[1..])
  }

  /** The value of a field, null where there is none; of repeated names the last counts. */
  function Get(fields: seq<Field>, name: string): (j: Json)
    ensures j.Null? || Size(j) <= SizeFields(fields)
  {
    if fields == [] then Null
    else
      var later := Get(fields[1..], name);
      if !later.Null? then later else if fields[0].name == name then fields[0].value else Null
  }

  function Value(j: Json, name: string): Json {
    if j.Obj? then Get(j.fields, name) else Null
  }

  /** Every action of the list in order, each loop followed by the actions nested in it. */
  function IterActions(actions: Json): seq<Json>
    decreases Size(actions), 0
  {
    if actions.List? then IterItems(actions.items) else []
  }

  function IterItems(items: seq<Json>): seq<Json>
    decreases SizeAll(items), 3, |items|
  {
    if items == [] then [] else IterItem(items[0]) + IterItems(items[1..])
  }

  function IterItem(action: Json): seq<Json>
    decreases Size(action), 2
  {
    if !action.Obj? then []
    else
      [action]
      + if Get(action.fields, "op") == Str("loop") then IterNested(action, "body") + IterNested(action, "on_each") else []
  }

  function IterNested(action: Json, name: string): seq<Json>
    requires action.Obj?
    decreases Size(action), 1
  {
    var nested := Get(action.fields, name);
    if nested.Null? then [] else IterActions(nested)
  }

  // ---------- reference: actions by their place ----------

  // One step down: into the given field of the loop at the given place.
  datatype Hop = Hop(index: nat, onEach: bool)

  function ActionAt(actions: Json, index: nat): Option<Json> {
    if actions.List? && index < |actions.items| && actions.items[index].Obj? then Some(actions.items[index]) else None
  }

  function Nested(action: Json, onEach: bool): Json {
    if Value(action, "op") == Str("loop") then Value(action, if onEach then "on_each" else "body") else Null
  }

  /** The action at the end of a path of hops through nested loops. */
  function AtPath(actions: Json, path: seq<Hop>, index: nat): Option<Json>
    decreases |path|
  {
    if path == [] then ActionAt(actions, index)
    else
      match ActionAt(actions, path[0].index)
      case None => None
      case Some(loop) => AtPath(Nested(loop, path[0].onEach), path[1..], index)
  }

  lemma {:induction false} ItemsInIter(items: seq<Json>, k: nat, a: Json)
    requires k < |items| && a in IterItem(items[k])
    ensures a in IterItems(items)
    decreases |items|
  {
    if k > 0 {
      ItemsInIter(items[1..], k - 1, a);
    }
  }

  lemma {:induction false} IterInItems(items: seq<Json>, a: Json) returns (k: nat)
    requires a in IterItems(items)
    ensures k < |items| && a in IterItem(items[k])
    decreases |items|
  {
    if a in IterItem(items[0]) {
      k := 0;
    } else {
      var j := IterInItems(items[1..], a);
      k := j + 1;
    }
  }

  lemma {:induction false} PathIsIterated(actions: Json, path: seq<Hop>, index: nat)
    requires AtPath(actions, path, index).Some?
    ensures AtPath(actions, path, index).value in IterActions(actions)
    decreases |path|
  {
    var a := AtPath(actions, path, index).value;
    if path == [] {
      ItemsInIter(actions.items, index, a);
    } else {
      var loop := ActionAt(actions, path[0].index).value;
      PathIsIterated(Nested(loop, path[0].onEach), path[1..], index);
      assert a in IterNested(loop, if path[0].onEach then "on_each" else "body");
      ItemsInIter(actions.items, path[0].index, a);
    }
  }

  lemma {:induction false} IteratedHasPath(actions: Json, a: Json) returns (path: seq<Hop>, index: nat)
    requires a in IterActions(actions)
    ensures AtPath(actions, path, index) == Some(a)
    decreases Size(actions)
  {
    var k := IterInItems(actions.items, a);
    var action := actions.items[k];
    SizeOfItem(actions.items, k);
    if a == action {
      path, index := [], k;
    } else {
      var onEach := a !in IterNested(action, "body");
      var deeper, i := IteratedHasPath(Nested(action, onEach), a);
      path, index := [Hop(k, onEach)] + deeper, i;
      assert path[1..] == deeper;
    }
  }

  lemma {:induction false} SizeOfItem(items: seq<Json>, k: nat)
    requires k < |items|
    ensures Size(items[k]) <= SizeAll(items)
    decreases |items|
  {
    if k > 0 {
      SizeOfItem(items[1..], k - 1);
    }
  }

  // ---------- feeds and ordinary websites ----------

  function LowerText(j: Json): string {
    if j.Str? then Lower(j.s) else ""
  }

  predicate IsFeedFetch(action: Json) {
    Value(action, "op") == Str("fetch") && LowerText(Value(action, "mode")) in {"feed", "rss", "atom"}
  }

  /** The loop of the source: the first feed fetch among the iterated actions decides. */
  method IsFeedRecipe(recipe: Json) returns (feed: bool)
    ensures feed <==> FetchesFeed(recipe)
  {
    var actions := IterActions(Value(recipe, "actions"));
    for i := 0 to |actions|
      invariant forall k :: 0 <= k < i ==> !IsFeedFetch(actions[k])
    {
      if IsFeedFetch(actions[i]) {
        FetchesFeedIff(recipe);
        return true;
      }
    }
    FetchesFeedIff(recipe);
    return false;
  }

  /** A recipe is a feed if an action anywhere in it, however deep inside loops, fetches one. */
  ghost predicate FetchesFeed(recipe: Json) {
    exists path, index :: var a := AtPath(Value(recipe, "actions"), path, index); a.Some? && IsFeedFetch(a.value)
  }

  lemma FetchesFeedIff(recipe: Json)
    ensures FetchesFeed(recipe) <==> exists a :: a in IterActions(Value(recipe, "actions")) && IsFeedFetch(a)
  {
    var actions := Value(recipe, "actions");
    if FetchesFeed(recipe) {
      var path, index :| var a := AtPath(actions, path, index); a.Some? && IsFeedFetch(a.value);
      PathIsIterated(actions, path, index);
    }
    if a :| a in IterActions(actions) && IsFeedFetch(a) {
      var path, index := IteratedHasPath(actions, a);
    }
  }

  predicate StartsWith(s: string, prefix: string) {
    prefix <= s
  }

  /** httpUrl says that the entry URL has scheme http or https and a host. */
  method IsOrdinaryWebsite(domain: string, recipe: Json, httpUrl: bool) returns (ordinary: bool)
    ensures ordinary <==>
              && httpUrl && !StartsWith(domain, "feed:") && !StartsWith(domain, "wechat_") && !FetchesFeed(recipe)
              && LowerText(Value(recipe, "source_kind")) !in {"wechat", "wechat_history", "internal_forum", "internal_mcp"}
              && Value(recipe, "connector_kind") != Str("shared")
  {
    if StartsWith(domain, "feed:") || StartsWith(domain, "wechat_") {
      return false;
    }
    var feed := IsFeedRecipe(recipe);
    if feed {
      return false;
    }
    if LowerText(Value(recipe, "source_kind")) in {"wechat", "wechat_history", "internal_forum", "internal_mcp"} {
      return false;
    }
    if Value(recipe, "connector_kind") == Str("shared") {
      return false;
    }
    return httpUrl;
  }
}
