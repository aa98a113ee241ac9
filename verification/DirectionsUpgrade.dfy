// The upgrade that gives every trend template, run and result its directions: the scanner as
// it runs, the choice of a direction for old results, and the three data loops.
module DirectionsUpgrade {
  import opened Prelude
  import opened Text
  import opened Directions
  import opened DirectionsSafety

  // ---------- the scanner ----------

  function Joined(pieces: seq<string>): string {
    if pieces == [] then "" else Joined(pieces[..|pieces| - 1]) + pieces[|pieces| - 1]
  }

  lemma JoinedSnoc(pieces: seq<string>, piece: string)
    ensures Joined(pieces + [piece]) == Joined(pieces) + piece
  {
    assert (pieces + [piece])[..|pieces|] == pieces;
  }

  /** No token begins in the stretch. */
  predicate IsPlain(text: string, from: nat, to: nat) {
    from <= to <= |text| && forall j :: from <= j < to ==> TokenLength(text[j..]) == 0
  }

  /** Such a stretch is only widened. */
  lemma {:induction false} PlainStretch(text: string, from: nat, n: nat)
    requires from + n <= |text| && IsPlain(text, from, from + n)
    ensures Render(text[from..]) == WidenAll(text[from..from + n]) + Render(text[from + n..])
    ensures ValidLabels(text[from..]) == ValidLabels(text[from + n..])
    decreases n
  {
    hide *;
    if n == 0 {
      assert WidenAll(text[from..from]) == "";
    } else {
      var s := text[from..];
      PlainTail(text, from, n);
      assert s[1..] == text[from + 1..];
      RenderPlain(s);
      PlainStretch(text, from + 1, n - 1);
      WidenFirst(text[from..from + n]);
      assert text[from..from + n][1..] == text[from + 1..from + n];
      SumOfSums([Widen(s[0])], WidenAll(text[from + 1..from + n]), Render(text[from + n..]));
    }
  }

  lemma PlainTail(text: string, from: nat, n: nat)
    requires 0 < n && from + n <= |text| && IsPlain(text, from, from + n)
    ensures TokenLength(text[from..]) == 0 && IsPlain(text, from + 1, from + n)
  {
  }

  lemma WidenFirst(s: string)
    requires s != ""
    ensures WidenAll(s) == [Widen(s[0])] + WidenAll(s[1..])
  {
  }

  /** The next match of the token pattern at or after from. */
  method NextToken(text: string, from: nat) returns (start: nat, length: nat)
    requires from <= |text|
    ensures from <= start <= |text| && length == TokenLength(text[start..])
    ensures IsPlain(text, from, start)
    ensures length == 0 ==> start == |text|
  {
    start := from;
    while start < |text| && TokenLength(text[start..]) == 0
      invariant IsPlain(text, from, start)
    {
      start := start + 1;
    }
    length := TokenLength(text[start..]);
  }

  lemma StretchAndToken(text: string, cursor: nat, start: nat, length: nat)
    requires cursor <= start <= |text| && IsPlain(text, cursor, start) && length == TokenLength(text[start..]) != 0
    ensures start + length <= |text|
    ensures var value := text[start + 1..start + length - 1];
            && BraceFree(value)
            && Render(text[cursor..]) == WidenAll(text[cursor..start]) + (RenderToken(value) + Render(text[start + length..]))
            && ValidLabels(text[cursor..]) == LabelOf(value) + ValidLabels(text[start + length..])
  {
    hide *;
    PlainStretch(text, cursor, start - cursor);
    var t := text[start..];
    assert t[1..length - 1] == text[start + 1..start + length - 1] && t[length..] == text[start + length..];
    RenderTokenFirst(t);
  }

  lemma WidenedToken(value: string)
    requires BraceFree(value)
    ensures WidenAll("{" + value + "}") == "（" + value + "）"
  {
    WidenFree(value);
    WidenSum("{", value);
    WidenSum("{" + value, "}");
  }

  lemma {:induction false} WidenFree(s: string)
    requires BraceFree(s)
    ensures WidenAll(s) == s
  {
    assert forall i :: 0 <= i < |s| ==> WidenAll(s)[i] == s[i];
  }

  lemma WidenSum(x: string, y: string)
    ensures WidenAll(x + y) == WidenAll(x) + WidenAll(y)
  {
    assert forall i :: 0 <= i < |x + y| ==> WidenAll(x + y)[i] == (WidenAll(x) + WidenAll(y))[i];
  }

  // The scan has come to cursor: what is printed and collected so far, and what is still to come, make up the whole.
  ghost predicate Scanned(text: string, cursor: nat, pieces: seq<string>, labels: seq<string>, all: seq<string>) {
    && cursor <= |text|
    && Render(text) == Joined(pieces) + Render(text[cursor..])
    && ValidLabels(text) == all + ValidLabels(text[cursor..])
    && labels == FirstDistinct(all)
  }

  lemma ScanStarts(text: string)
    ensures Scanned(text, 0, [], [], [])
  {
    assert text[0..] == text;
  }

  lemma ScanToken(text: string, cursor: nat, pieces: seq<string>, labels: seq<string>, all: seq<string>,
                  start: nat, length: nat)
    requires Scanned(text, cursor, pieces, labels, all) && cursor <= start <= |text|
    requires IsPlain(text, cursor, start) && length == TokenLength(text[start..]) != 0
    ensures start + length <= |text|
    ensures var value := text[start + 1..start + length - 1];
            var newPieces := pieces + [WidenAll(text[cursor..start])] + [RenderToken(value)];
            && BraceFree(value)
            && Scanned(text, start + length, newPieces,
                       if ValidLabel(value).Some? then AddLabel(labels, ValidLabel(value).value) else labels,
                       all + LabelOf(value))
  {
    hide Render, ValidLabels, Joined, WidenAll, RenderToken, LabelOf, FirstDistinct, AddLabel, ValidLabel, TokenLength,
      IsPlain, BraceFree;
    StretchAndToken(text, cursor, start, length);
    var value := text[start + 1..start + length - 1];
    var plain, token, rest := WidenAll(text[cursor..start]), RenderToken(value), Render(text[start + length..]);
    JoinedSnoc(pieces, plain);
    JoinedSnoc(pieces + [plain], token);
    FourParts(Joined(pieces), plain, token, rest);
    SumOfSums(all, LabelOf(value), ValidLabels(text[start + length..]));
    CollectsLabel(all, value);
  }

  lemma FourParts(a: string, b: string, c: string, d: string)
    ensures a + (b + (c + d)) == a + b + c + d
  {
  }

  lemma CollectsLabel(all: seq<string>, value: string)
    ensures FirstDistinct(all + LabelOf(value)) ==
            if ValidLabel(value).Some? then AddLabel(FirstDistinct(all), ValidLabel(value).value) else FirstDistinct(all)
  {
    hide ValidLabel, AddLabel;
    if ValidLabel(value).Some? {
      assert (all + [ValidLabel(value).value])[..|all|] == all;
    } else {
      assert all + [] == all;
    }
  }

  lemma ScanEnds(text: string, cursor: nat, pieces: seq<string>, labels: seq<string>, all: seq<string>)
    requires Scanned(text, cursor, pieces, labels, all) && cursor <= |text| && IsPlain(text, cursor, |text|)
    ensures Joined(pieces + [WidenAll(text[cursor..])]) == Render(text)
    ensures labels == FirstDistinct(ValidLabels(text))
  {
    RenderFree("");
    hide Render, ValidLabels, Joined, WidenAll, FirstDistinct, TokenLength, IsPlain;
    assert text[|text|..] == "" && text[cursor..|text|] == text[cursor..];
    PlainStretch(text, cursor, |text| - cursor);
    JoinedSnoc(pieces, WidenAll(text[cursor..]));
    assert WidenAll(text[cursor..]) + "" == WidenAll(text[cursor..]);
    assert all + [] == all;
  }

  /** The loop of the source, with its pieces, labels, seen labels and cursor. */
  method SanitizeAndExtract(text: string) returns (cleaned: string, labels: seq<string>)
    ensures Cleaned(cleaned, labels) == Sanitize(text)
  {
    hide Render, ValidLabels, TokenLength, Joined, WidenAll, FirstDistinct, Scanned, Strip, BraceFree, IsPlain;
    var pieces: seq<string> := [];
    var seen: set<string> := {};
    var cursor := 0;
    ghost var all: seq<string> := [];
    labels := [];
    ScanStarts(text);
    var start, length := NextToken(text, 0);
    while length != 0
      invariant Scanned(text, cursor, pieces, labels, all)
      invariant cursor <= start <= |text| && length == TokenLength(text[start..])
      invariant IsPlain(text, cursor, start)
      invariant length == 0 ==> start == |text|
      invariant forall l :: l in seen <==> l in labels
      decreases |text| - cursor
    {
      ScanToken(text, cursor, pieces, labels, all, start, length);
      var value := text[start + 1..start + length - 1];
      pieces := pieces + [WidenAll(text[cursor..start])];
      var name := ValidLabel(value);
      if name.None? {
        assert text[start..start + length] == "{" + value + "}" by { TokenText(text, start, length); }
        WidenedToken(value);
        pieces := pieces + [WidenAll(text[start..start + length])];
      } else {
        pieces := pieces + [Quote(name.value)];
        if name.value !in seen && |labels| < MAX_LABELS {
          seen := seen + {name.value};
          labels := labels + [name.value];
        }
      }
      all := all + LabelOf(value);
      cursor := start + length;
      start, length := NextToken(text, cursor);
    }
    ScanEnds(text, cursor, pieces, labels, all);
    cleaned := Strip(Joined(pieces + [WidenAll(text[cursor..])]));
    if labels == [] {
      RightStripped(cleaned);
      cleaned := cleaned[..Trailing(cleaned)] + DEFAULT_DIRECTIONS;
      labels := [AI, OS];
    }
  }

  lemma TokenText(text: string, start: nat, length: nat)
    requires start <= |text| && length == TokenLength(text[start..]) != 0
    ensures start + length <= |text| && text[start..start + length] == "{" + text[start + 1..start + length - 1] + "}"
  {
    var t := text[start..];
    assert t[0] == text[start] && t[length - 1] == text[start + length - 1];
  }

  lemma RightStripped(s: string)
    requires IsStripped(s)
    ensures s[..Trailing(s)] == s
  {
  }

  // ---------- directions of old results ----------

  const AI_TERMS := ["ai", "人工智能", "大模型", "模型", "agent", "llm", "推理", "训练", "机器学习", "生成式"]
  const OS_TERMS := ["操作系统", "系统软件", "linux", "内核", "kernel", "云原生", "容器", "kubernetes", "发行版", "虚拟化", "驱动",
                     "文件系统"]

  predicate OccursAt(text: string, term: string, i: nat) {
    i + |term| <= |text| && text[i..i + |term|] == term
  }

  predicate Contains(text: string, term: string) {
    exists i :: 0 <= i <= |text| && OccursAt(text, term, i)
  }

  predicate HasTerm(name: string, terms: seq<string>) {
    exists k :: 0 <= k < |terms| && Contains(Lower(name), terms[k])
  }

  /** Occurrences of a term that do not overlap. */
  function Count(text: string, term: string): nat {
    if term == "" || |text| < |term| then 0
    else if text[..|term|] == term then 1 + Count(text[|term|..], term)
    else Count(text[1..], term)
  }

  function Score(text: string, terms: seq<string>): nat {
    if terms == [] then 0 else Count(text, terms[0]) + Score(text, terms[1..])
  }

  function FirstWith(labels: seq<string>, terms: seq<string>): (r: Option<string>)
    ensures r.Some? ==> r.value in labels && HasTerm(r.value, terms)
    ensures r.None? ==> forall l :: l in labels ==> !HasTerm(l, terms)
  {
    if labels == [] then None
    else if HasTerm(labels[0], terms) then Some(labels[0])
    else FirstWith(labels[1..], terms)
  }

  function LegacyDirection(labels: seq<string>, text: string): string
    requires labels != []
  {
    if |labels| == 1 then labels[0]
    else
      var ai, os := FirstWith(labels, AI_TERMS), FirstWith(labels, OS_TERMS);
      if ai.None? || os.None? then labels[0]
      else if Score(Lower(text), AI_TERMS) > Score(Lower(text), OS_TERMS) then ai.value
      else os.value
  }

  /** The first of the labels that names a term. */
  ghost predicate IsFirstWith(labels: seq<string>, terms: seq<string>, d: string) {
    exists i :: 0 <= i < |labels| && labels[i] == d && HasTerm(d, terms) && forall j :: 0 <= j < i ==> !HasTerm(labels[j], terms)
  }

  ghost predicate SomeHas(labels: seq<string>, terms: seq<string>) {
    exists i :: 0 <= i < |labels| && HasTerm(labels[i], terms)
  }

  lemma {:induction false} FirstWithIs(labels: seq<string>, terms: seq<string>)
    ensures FirstWith(labels, terms).Some? <==> SomeHas(labels, terms)
    ensures FirstWith(labels, terms).Some? ==> IsFirstWith(labels, terms, FirstWith(labels, terms).value)
    decreases |labels|
  {
    hide HasTerm;
    if labels != [] && !HasTerm(labels[0], terms) {
      var rest := labels[1..];
      FirstWithIs(rest, terms);
      assert forall i :: 0 <= i < |rest| ==> rest[i] == labels[i + 1];
      if FirstWith(rest, terms).Some? {
        var i :| 0 <= i < |rest| && rest[i] == FirstWith(rest, terms).value
                 && forall j :: 0 <= j < i ==> !HasTerm(rest[j], terms);
        assert labels[i + 1] == rest[i] && forall j :: 0 < j < i + 1 ==> labels[j] == rest[j - 1];
      }
    }
  }

  /**
   * With labels of both kinds an old result gets the first of the kind that it speaks of strictly more, the second kind on a
   * tie; otherwise it gets the very first label.
   */
  lemma LegacyDirectionIs(labels: seq<string>, text: string)
    requires labels != []
    ensures LegacyDirection(labels, text) in labels
    ensures var d := LegacyDirection(labels, text);
            var more := Score(Lower(text), AI_TERMS) > Score(Lower(text), OS_TERMS);
            if SomeHas(labels, AI_TERMS) && SomeHas(labels, OS_TERMS)
            then IsFirstWith(labels, if more then AI_TERMS else OS_TERMS, d)
            else d == labels[0]
  {
    hide HasTerm, Score, AI_TERMS, OS_TERMS;
    FirstWithIs(labels, AI_TERMS);
    FirstWithIs(labels, OS_TERMS);
  }

  lemma ScoreOfNothing(terms: seq<string>)
    requires forall k :: 0 <= k < |terms| ==> terms[k] != ""
    ensures Score("", terms) == 0
  {
  }

  lemma TermsAreNotEmpty()
    ensures forall k :: 0 <= k < |AI_TERMS| ==> AI_TERMS[k] != ""
    ensures forall k :: 0 <= k < |OS_TERMS| ==> OS_TERMS[k] != ""
  {
    forall k | 0 <= k < |OS_TERMS| ensures OS_TERMS[k] != "" {
      OsTermStarts(k);
    }
  }

  /** Some text is of a label of the second kind exactly if the first label is of it or there are labels of both kinds. */
  lemma SecondKindIsReachedIff(labels: seq<string>)
    requires labels != []
    ensures (exists text: string :: HasTerm(LegacyDirection(labels, text), OS_TERMS)) <==>
            HasTerm(labels[0], OS_TERMS) || (SomeHas(labels, AI_TERMS) && SomeHas(labels, OS_TERMS))
  {
    TermsAreNotEmpty();
    hide HasTerm, Score, AI_TERMS, OS_TERMS;
    ScoreOfNothing(AI_TERMS);
    ScoreOfNothing(OS_TERMS);
    LegacyDirectionIs(labels, "");
    assert Lower("") == "";
    if text: string :| HasTerm(LegacyDirection(labels, text), OS_TERMS) {
      LegacyDirectionIs(labels, text);
    }
  }

  lemma {:induction false} CountsOnlyWhatOccurs(text: string, term: string)
    requires term != "" && term[0] !in text
    ensures Count(text, term) == 0
    decreases |text|
  {
    if |text| >= |term| {
      assert text[..|term|][0] == text[0] && text[0] in text && forall c :: c in text[1..] ==> c in text;
      CountsOnlyWhatOccurs(text[1..], term);
    }
  }

  lemma {:induction false} NoScore(text: string, terms: seq<string>)
    requires forall k :: 0 <= k < |terms| ==> terms[k] != "" && terms[k][0] !in text
    ensures Score(text, terms) == 0
    decreases |terms|
  {
    if terms != [] {
      CountsOnlyWhatOccurs(text, terms[0]);
      assert forall k :: 0 <= k < |terms| - 1 ==> terms[1..][k] == terms[k + 1];
      NoScore(text, terms[1..]);
    }
  }

  lemma AiScores()
    ensures Score(Lower("ai"), AI_TERMS) > Score(Lower("ai"), OS_TERMS)
  {
    LowerOf("ai");
    assert Lower("ai") == "ai";
    assert AI_TERMS[0] == "ai" && Count("ai", "ai") > 0;
    forall k | 0 <= k < |OS_TERMS| ensures OS_TERMS[k] != "" && OS_TERMS[k][0] !in "ai" {
      OsTermStarts(k);
    }
    NoScore("ai", OS_TERMS);
  }

  /** What an old result says matters at all exactly if the first label of one kind is not also the first of the other. */
  lemma TextDecidesIff(labels: seq<string>)
    requires labels != []
    ensures (exists a: string, b: string :: LegacyDirection(labels, a) != LegacyDirection(labels, b)) <==>
            exists x, y :: x != y && IsFirstWith(labels, AI_TERMS, x) && IsFirstWith(labels, OS_TERMS, y)
  {
    AiScores();
    TermsAreNotEmpty();
    hide HasTerm, Score, AI_TERMS, OS_TERMS;
    ScoreOfNothing(AI_TERMS);
    ScoreOfNothing(OS_TERMS);
    assert Lower("") == "";
    FirstWithIs(labels, AI_TERMS);
    FirstWithIs(labels, OS_TERMS);
    FirstIsUnique(labels, AI_TERMS);
    FirstIsUnique(labels, OS_TERMS);
    if x, y :| x != y && IsFirstWith(labels, AI_TERMS, x) && IsFirstWith(labels, OS_TERMS, y) {
      assert LegacyDirection(labels, "ai") == x && LegacyDirection(labels, "") == y;
    }
  }

  lemma FirstIsUnique(labels: seq<string>, terms: seq<string>)
    ensures forall d :: IsFirstWith(labels, terms, d) ==> FirstWith(labels, terms) == Some(d)
  {
    hide HasTerm;
    FirstWithIs(labels, terms);
  }

  /** The default labels name no term of the second kind, so that under them every old result is of the first label. */
  lemma DefaultDirectionIsAlwaysAi(text: string)
    ensures LegacyDirection([AI, OS], text) == AI
  {
    NoOsTerm();
    hide HasTerm, Score, AI_TERMS, OS_TERMS;
    assert forall l :: l in [AI, OS] ==> l == AI || l == OS;
  }

  lemma LowerOf(s: string)
    ensures |Lower(s)| == |s| && forall i :: 0 <= i < |s| ==> Lower(s)[i] == LowerChar(s[i])
  {
  }

  lemma NoOsTerm()
    ensures !HasTerm(AI, OS_TERMS) && !HasTerm(OS, OS_TERMS)
  {
    LowerOf(AI);
    LowerOf(OS);
    var chars := {'a', 'i', 'o', 's', '方', '向'};
    assert |AI| == |OS| == 4;
    assert AI[0] == 'A' && AI[1] == 'I' && AI[2] == '方' && AI[3] == '向';
    assert OS[0] == 'O' && OS[1] == 'S' && OS[2] == '方' && OS[3] == '向';
    forall k | 0 <= k < |OS_TERMS| ensures OS_TERMS[k] != "" && OS_TERMS[k][0] !in chars {
      OsTermStarts(k);
    }
    NoTermIn(Lower(AI), chars);
    NoTermIn(Lower(OS), chars);
  }

  lemma OsTermStarts(k: nat)
    requires k < |OS_TERMS|
    ensures OS_TERMS[k] != "" && OS_TERMS[k][0] !in {'a', 'i', 'o', 's', '方', '向'}
  {
  }

  lemma NoTermIn(text: string, chars: set<char>)
    requires forall i :: 0 <= i < |text| ==> text[i] in chars
    requires forall k :: 0 <= k < |OS_TERMS| ==> OS_TERMS[k] != "" && OS_TERMS[k][0] !in chars
    ensures forall k :: 0 <= k < |OS_TERMS| ==> !Contains(text, OS_TERMS[k])
  {
    hide OS_TERMS;
    forall k | 0 <= k < |OS_TERMS| ensures !Contains(text, OS_TERMS[k]) {
      var term := OS_TERMS[k];
      forall i | 0 <= i <= |text| ensures !OccursAt(text, term, i) {
        assert i + |term| <= |text| ==> text[i..i + |term|][0] == text[i];
      }
    }
  }

  // ---------- the tables ----------

  datatype Run = Run(template: nat, snapshot: string, labels: seq<string>)

  datatype Result = Result(run: nat, text: string, direction: Option<string>)

  datatype Tables = Tables(templates: map<nat, string>, runs: map<nat, Run>, results: map<nat, Result>)

  // Foreign keys.
  predicate Valid(t: Tables) {
    && (forall r :: r in t.runs ==> t.runs[r].template in t.templates)
    && (forall r :: r in t.results ==> t.results[r].run in t.runs)
  }

  function TemplatesAfter(t: Tables): map<nat, string> {
    map id | id in t.templates :: Sanitize(t.templates[id]).text
  }

  function RunAfter(t: Tables, r: nat): (run: Run)
    requires Valid(t) && r in t.runs
    ensures run.labels != []
  {
    var cleaned := Sanitize(t.templates[t.runs[r].template]);
    SanitizedLabelsAreValid(t.templates[t.runs[r].template]);
    Run(t.runs[r].template, cleaned.text, cleaned.labels)
  }

  function ResultAfter(t: Tables, r: nat): Result
    requires Valid(t) && r in t.results
  {
    var result := t.results[r];
    var labels := RunAfter(t, result.run).labels;
    if result.direction.Some? then result
    else result.(direction := Some(LegacyDirection(labels, result.text)))
  }

  function Upgraded(t: Tables): Tables
    requires Valid(t)
  {
    Tables(TemplatesAfter(t), map r | r in t.runs :: RunAfter(t, r), map r | r in t.results :: ResultAfter(t, r))
  }

  class TrendTables {
    var templates: map<nat, string>
    var runs: map<nat, Run>
    var results: map<nat, Result>

    ghost function View(): Tables
      reads this
    {
      Tables(templates, runs, results)
    }

    constructor (t: Tables)
      ensures View() == t
    {
      templates, runs, results := t.templates, t.runs, t.results;
    }

    method UpgradeTemplates() returns (data: map<nat, Cleaned>)
      modifies this`templates
      ensures data == map id | id in old(templates) :: Sanitize(old(templates)[id])
      ensures templates == map id | id in old(templates) :: Sanitize(old(templates)[id]).text
    {
      hide Sanitize;
      data := map[];
      var before := templates;
      var todo := templates.Keys;
      while todo != {}
        invariant todo <= before.Keys && templates.Keys == before.Keys && data.Keys == before.Keys - todo
        invariant forall id :: id in data ==> data[id] == Sanitize(before[id])
        invariant forall id :: id in templates ==>
                                 templates[id] == if id in todo then before[id] else Sanitize(before[id]).text
        decreases todo
      {
        var id :| id in todo;
        todo := todo - {id};
        var text, labels := SanitizeAndExtract(before[id]);
        data := data[id := Cleaned(text, labels)];
        templates := templates[id := text];
      }
    }

    method UpgradeRuns(data: map<nat, Cleaned>, ghost t: Tables)
      requires Valid(t) && runs == t.runs && data == map id | id in t.templates :: Sanitize(t.templates[id])
      modifies this`runs
      ensures runs == map r | r in t.runs :: RunAfter(t, r)
    {
      hide Sanitize;
      var todo := runs.Keys;
      while todo != {}
        invariant todo <= t.runs.Keys && runs.Keys == t.runs.Keys
        invariant forall r :: r in runs ==> runs[r] == if r in todo then t.runs[r] else RunAfter(t, r)
        decreases todo
      {
        var r :| r in todo;
        todo := todo - {r};
        var cleaned := data[runs[r].template];
        runs := runs[r := runs[r].(snapshot := cleaned.text, labels := cleaned.labels)];
      }
    }

    method UpgradeResults(ghost t: Tables)
      requires Valid(t) && results == t.results && runs == map r | r in t.runs :: RunAfter(t, r)
      modifies this`results
      ensures results == map r | r in t.results :: ResultAfter(t, r)
    {
      hide RunAfter, LegacyDirection;
      var todo := set r | r in results && results[r].direction.None?;
      while todo != {}
        invariant todo <= t.results.Keys && results.Keys == t.results.Keys
        invariant forall r :: r in results ==> results[r] == if r in todo then t.results[r] else ResultAfter(t, r)
        decreases todo
      {
        var r :| r in todo;
        todo := todo - {r};
        var labels := runs[results[r].run].labels;
        results := results[r := results[r].(direction := Some(LegacyDirection(labels, results[r].text)))];
      }
    }

    /** The three loops, each over its table in any order. */
    method Upgrade()
      requires Valid(View())
      modifies this
      ensures View() == Upgraded(old(View()))
    {
      hide Sanitize, RunAfter, ResultAfter;
      ghost var t := View();
      var data := UpgradeTemplates();
      UpgradeRuns(data, t);
      UpgradeResults(t);
    }
  }

  /**
   * After the upgrade every run's labels are exactly those that its stored text declares, its text is its template's, and
   * every result has a direction, declared by its run wherever the upgrade chose it.
   */
  lemma EveryResultIsDirected(t: Tables)
    requires Valid(t)
    ensures var after := Upgraded(t);
            && Valid(after)
            && (forall r :: r in after.runs ==>
                  && after.runs[r].snapshot == after.templates[after.runs[r].template]
                  && after.runs[r].labels == Sanitize(after.runs[r].snapshot).labels)
            && (forall r :: r in after.results ==>
                  && after.results[r].direction.Some?
                  && (t.results[r].direction.None? ==>
                        && after.results[r].direction.value in after.runs[after.results[r].run].labels
                        && |after.results[r].direction.value| <= 50)
                  && (t.results[r].direction.Some? ==> after.results[r] == t.results[r]))
  {
    hide Sanitize, LegacyDirection;
    var after := Upgraded(t);
    forall r | r in after.runs
      ensures after.runs[r].snapshot == after.templates[after.runs[r].template]
      ensures after.runs[r].labels == Sanitize(after.runs[r].snapshot).labels
    {
      ReparsesToSameLabels(t.templates[t.runs[r].template]);
    }
    forall r | r in after.results
      ensures after.results[r].direction.Some?
      ensures t.results[r].direction.None? ==>
                && after.results[r].direction.value in after.runs[after.results[r].run].labels
                && |after.results[r].direction.value| <= 50
    {
      var labels := RunAfter(t, t.results[r].run).labels;
      SanitizedLabelsAreValid(t.templates[t.runs[t.results[r].run].template]);
      LegacyDirectionIs(labels, t.results[r].text);
    }
  }
}
