// What cleaning a template text guarantees: valid labels, no stray brace, a text that parses
// back to the same labels and is stable, and no other character lost.
module DirectionsSafety {
  import opened Prelude
  import opened Text
  import opened Directions

  // ---------- labels ----------

  predicate AllLabels(all: seq<string>) {
    forall k :: 0 <= k < |all| ==> IsLabel(all[k]) && BraceFree(all[k])
  }

  predicate AllDistinct(all: seq<string>) {
    forall i, j :: 0 <= i < j < |all| ==> all[i] != all[j]
  }

  lemma {:induction false} ValidLabelsAreLabels(s: string)
    ensures AllLabels(ValidLabels(s))
    decreases |s|
  {
    NoLabels();
    hide *;
    if s != "" {
      var n := TokenLength(s);
      if n == 0 {
        ValidLabelsAreLabels(s[1..]);
        RenderPlain(s);
      } else {
        ValidLabelsAreLabels(s[n..]);
        RenderTokenFirst(s);
        LabelOfIsLabel(s[1..n - 1]);
        AllLabelsOfSum(LabelOf(s[1..n - 1]), ValidLabels(s[n..]));
      }
    }
  }

  lemma NoLabels()
    ensures ValidLabels("") == [] && AllLabels([])
  {
  }

  lemma LabelOfIsLabel(value: string)
    requires BraceFree(value)
    ensures AllLabels(LabelOf(value))
  {
    hide IsLabel, BraceFree, ValidLabel;
    if ValidLabel(value).Some? {
      ValidLabelIsLabel(value);
    }
  }

  lemma AllLabelsOfSum(a: seq<string>, b: seq<string>)
    requires AllLabels(a) && AllLabels(b)
    ensures AllLabels(a + b)
  {
    hide IsLabel, BraceFree;
  }

  lemma {:induction false} FirstDistinctAre(all: seq<string>)
    ensures var r := FirstDistinct(all);
            && |r| <= MAX_LABELS && AllDistinct(r) && (r == [] <==> all == [])
            && (forall l :: l in r ==> l in all)
            && (|r| < MAX_LABELS ==> forall l :: l in all ==> l in r)
    decreases |all|
  {
    if all != [] {
      var init, last := all[..|all| - 1], all[|all| - 1];
      FirstDistinctAre(init);
      assert all == init + [last];
    }
  }

  lemma DefaultLabels()
    ensures FirstDistinct([AI, OS]) == [AI, OS] && AI != OS
  {
    assert AI[0] == 'A' && OS[0] == 'O';
    assert [AI, OS][..1] == [AI] && [AI][..0] == [];
    assert FirstDistinct([AI]) == [AI];
  }

  /** One to twelve distinct labels, each stripped, of at most fifty characters, on one line and free of braces. */
  lemma SanitizedLabelsAreValid(s: string)
    ensures var labels := Sanitize(s).labels;
            && 1 <= |labels| <= MAX_LABELS && AllDistinct(labels) && AllLabels(labels)
            && forall k :: 0 <= k < |labels| ==>
                 labels[k] != "" && |labels[k]| <= 50 && '\n' !in labels[k] && '\r' !in labels[k] && IsStripped(labels[k])
  {
    ValidLabelsAreLabels(s);
    FirstDistinctAre(ValidLabels(s));
    AiIsLabel();
    OsIsLabel();
    DefaultLabels();
    SanitizedLabels(s);
    hide *;
    var labels := Sanitize(s).labels;
    PairOfLabels(AI, OS);
    if FirstDistinct(ValidLabels(s)) != [] {
      LabelsAmongLabels(labels, ValidLabels(s));
    }
    LabelsAreValid(labels);
  }

  lemma SanitizedLabels(s: string)
    ensures Sanitize(s).labels ==
            if FirstDistinct(ValidLabels(s)) == [] then [AI, OS] else FirstDistinct(ValidLabels(s))
  {
  }

  lemma PairOfLabels(a: string, b: string)
    requires a != b && IsLabel(a) && BraceFree(a) && IsLabel(b) && BraceFree(b)
    ensures |[a, b]| <= MAX_LABELS && AllDistinct([a, b]) && AllLabels([a, b])
  {
  }

  lemma LabelsAmongLabels(some: seq<string>, all: seq<string>)
    requires AllLabels(all) && forall l :: l in some ==> l in all
    ensures AllLabels(some)
  {
    hide IsLabel, BraceFree;
    forall k | 0 <= k < |some| ensures IsLabel(some[k]) && BraceFree(some[k]) {
      assert some[k] in some;
    }
  }

  lemma LabelsAreValid(labels: seq<string>)
    requires AllLabels(labels)
    ensures forall k :: 0 <= k < |labels| ==>
              labels[k] != "" && |labels[k]| <= 50 && '\n' !in labels[k] && '\r' !in labels[k] && IsStripped(labels[k])
  {
    hide IsLabel, IsStripped;
    forall k | 0 <= k < |labels|
      ensures labels[k] != "" && |labels[k]| <= 50 && '\n' !in labels[k] && '\r' !in labels[k] && IsStripped(labels[k])
    {
      LabelIsValid(labels[k]);
    }
  }

  lemma LabelIsValid(name: string)
    requires IsLabel(name)
    ensures name != "" && |name| <= 50 && '\n' !in name && '\r' !in name && IsStripped(name)
  {
  }

  // ---------- round trips ----------

  /** The stripped clean text: clean again, with the same labels and all braces in tokens, and blank only if the text was. */
  lemma {:induction false} CleanCore(s: string)
    ensures var t := Strip(Render(s));
            && IsClean(t) && ValidLabels(t) == ValidLabels(s) && BracesAreTokens(t) && (t == "" <==> IsBlank(s))
            && Strip(t) == t
  {
    var r := Render(s);
    RenderIsClean(s);
    BracesOfRender(s);
    StripOfClean(r);
    BlankIffBlank(s);
    StripKeepsStripped(Strip(r));
    if Strip(r) == "" {
      BracesOfFree("");
    } else {
      StripTakesSpace(r);
      BlankIsFree(r[..Leading(r)]);
      BlankIsFree(r[Trailing(r)..]);
      BracesOfCore(r[..Leading(r)], Strip(r), r[Trailing(r)..]);
    }
  }

  lemma {:induction false} BlankIffBlank(s: string)
    ensures IsBlank(s) <==> IsBlank(Render(s))
    decreases |s|
  {
    if s != "" {
      var n := TokenLength(s);
      assert !IsSpace('{') && !IsSpace('}') && !IsSpace('（') && !IsSpace('）');
      hide TokenLength, Render, IsSpace;
      if n == 0 {
        RenderPlain(s);
        BlankIffBlank(s[1..]);
        assert IsBlank(s) <==> IsSpace(s[0]) && IsBlank(s[1..]);
        var r, rest := Render(s), Render(s[1..]);
        assert r[0] == Widen(s[0]) && r[1..] == rest;
        assert IsBlank(r) <==> IsSpace(r[0]) && IsBlank(rest);
      } else {
        RenderTokenFirst(s);
        assert Render(s)[0] in {'{', '（'};
      }
    }
  }

  lemma DefaultedText(t: string)
    requires IsClean(t) && ValidLabels(t) == [] && BracesAreTokens(t) && Strip(t) == t
    ensures var u := t + DEFAULT_DIRECTIONS;
            && IsClean(u) && ValidLabels(u) == [AI, OS] && BracesAreTokens(u)
            && (Strip(u) == u <==> t != "")
  {
    DefaultIsClean();
    RenderSum(t, DEFAULT_DIRECTIONS);
    BracesOfSum(t, DEFAULT_DIRECTIONS);
    DefaultedEnds(t);
  }

  lemma DefaultedEnds(t: string)
    requires Strip(t) == t
    ensures Strip(t + DEFAULT_DIRECTIONS) == t + DEFAULT_DIRECTIONS <==> t != ""
  {
    var u := t + DEFAULT_DIRECTIONS;
    assert IsSpace(DEFAULT_DIRECTIONS[0]) by { assert LEAD[0] == ' '; }
    assert u[|u| - 1] == REST[|REST| - 1] == '。' && !IsSpace('。');
    if t != "" {
      assert IsStripped(t) && u[0] == t[0];
      StripKeepsStripped(u);
    } else {
      assert u[0] == DEFAULT_DIRECTIONS[0];
    }
  }

  /** What the text becomes, whichever case it was in. */
  lemma SanitizedText(s: string)
    ensures var r := Sanitize(s);
            && IsClean(r.text) && BracesAreTokens(r.text) && FirstDistinct(ValidLabels(r.text)) == r.labels != []
            && (Strip(r.text) == r.text <==> !(IsBlank(s)))
  {
    CleanCore(s);
    FirstDistinctAre(ValidLabels(s));
    DefaultLabels();
    var t := Strip(Render(s));
    if ValidLabels(s) == [] {
      DefaultedText(t);
    } else {
      if IsBlank(s) {
        BlankIsFree(s);
        RenderFree(s);
      }
    }
  }

  /** Every brace of the cleaned text begins or ends a token that holds a valid label. */
  lemma NoStrayBraces(s: string)
    ensures BracesAreTokens(Sanitize(s).text)
  {
    hide *;
    SanitizedText(s);
  }

  /** Cleaning the cleaned text finds the same labels in the same order. */
  lemma ReparsesToSameLabels(s: string)
    ensures Sanitize(Sanitize(s).text).labels == Sanitize(s).labels
  {
    SanitizedText(s);
    hide *;
    SanitizeClean(Sanitize(s).text);
  }

  lemma SanitizeClean(u: string)
    requires IsClean(u) && FirstDistinct(ValidLabels(u)) != []
    ensures Sanitize(u) == Cleaned(Strip(u), FirstDistinct(ValidLabels(u)))
  {
  }

  /** Cleaning is idempotent exactly on the texts that are not blank: the default declaration starts with a space. */
  lemma IdempotentIff(s: string)
    ensures Sanitize(Sanitize(s).text) == Sanitize(s) <==> !IsBlank(s)
  {
    SanitizedText(s);
    hide *;
    SanitizeClean(Sanitize(s).text);
  }

  lemma EmptyTextIsNotStable()
    ensures Sanitize(Sanitize("").text) != Sanitize("")
  {
    assert IsBlank("");
    hide *;
    IdempotentIff("");
  }

  /** From the second pass on nothing changes for any text. */
  lemma StableFromSecondPass(s: string)
    ensures var twice := Sanitize(Sanitize(s).text); Sanitize(twice.text) == twice
  {
    hide *;
    var u := Sanitize(s).text;
    SanitizedText(s);
    NotBlank(u);
    IdempotentIff(u);
  }

  lemma NotBlank(u: string)
    requires IsClean(u) && FirstDistinct(ValidLabels(u)) != []
    ensures !IsBlank(u)
  {
    if IsBlank(u) {
      BlankIsFree(u);
      RenderFree(u);
    }
  }

  // ---------- nothing else changes ----------

  predicate IsInk(c: char) {
    !IsSpace(c) && c !in {'{', '}', '（', '）'}
  }

  /** The text without whitespace and without braces of either width. */
  function Ink(s: string): string {
    if s == "" then "" else (if IsInk(s[0]) then [s[0]] else []) + Ink(s[1..])
  }

  lemma {:induction false} InkOfSum(x: string, y: string)
    ensures Ink(x + y) == Ink(x) + Ink(y)
    decreases |x|
  {
    hide IsInk;
    if x == "" {
      assert x + y == y;
    } else {
      InkOfSum(x[1..], y);
      assert (x + y)[1..] == x[1..] + y;
    }
  }

  lemma {:induction false} InkOfBlank(s: string)
    requires IsBlank(s)
    ensures Ink(s) == ""
    decreases |s|
  {
    if s != "" {
      InkOfBlank(s[1..]);
    }
  }

  lemma InkOfStrip(s: string)
    ensures Ink(Strip(s)) == Ink(s)
  {
    if Strip(s) == "" {
      InkOfBlank(s);
    } else {
      StripTakesSpace(s);
      hide Ink, IsBlank, Strip;
      var a, c, b := s[..Leading(s)], Strip(s), s[Trailing(s)..];
      InkOfBlank(a);
      InkOfBlank(b);
      InkOfSum(a, c);
      InkOfSum(a + c, b);
    }
  }

  lemma InkOfBraces()
    ensures Ink("{") == Ink("}") == Ink("（") == Ink("）") == ""
  {
  }

  lemma InkOfToken(value: string)
    ensures Ink(RenderToken(value)) == Ink(value) && Ink("{" + value + "}") == Ink(value)
  {
    hide Ink, Strip;
    InkOfBraces();
    InkOfStrip(value);
    InkWrapped("{", value, "}");
    InkWrapped("（", value, "）");
    InkWrapped("{", Strip(value), "}");
  }

  lemma InkWrapped(a: string, value: string, b: string)
    requires Ink(a) == Ink(b) == ""
    ensures Ink(a + value + b) == Ink(value)
  {
    hide *;
    InkOfSum(a, value);
    InkOfSum(a + value, b);
  }

  lemma {:induction false} InkOfRender(s: string)
    ensures Ink(Render(s)) == Ink(s)
    decreases |s|
  {
    if s != "" {
      var n := TokenLength(s);
      if n == 0 {
        InkOfRender(s[1..]);
        InkAtPlain(s);
      } else {
        InkOfRender(s[n..]);
        InkAtToken(s);
      }
    }
  }

  lemma InkAtPlain(s: string)
    requires s != "" && TokenLength(s) == 0 && Ink(Render(s[1..])) == Ink(s[1..])
    ensures Ink(Render(s)) == Ink(s)
  {
    RenderPlain(s);
    assert Ink([Widen(s[0])]) == Ink([s[0]]);
    hide *;
    assert s == [s[0]] + s[1..];
    InkOfSum([s[0]], s[1..]);
    InkOfSum([Widen(s[0])], Render(s[1..]));
  }

  lemma InkAtToken(s: string)
    requires TokenLength(s) != 0 && Ink(Render(s[TokenLength(s)..])) == Ink(s[TokenLength(s)..])
    ensures Ink(Render(s)) == Ink(s)
  {
    hide *;
    var n := TokenLength(s);
    var value := s[1..n - 1];
    RenderTokenFirst(s);
    InkOfToken(value);
    InkOfSum(RenderToken(value), Render(s[n..]));
    assert s == ("{" + value + "}") + s[n..];
    InkOfSum("{" + value + "}", s[n..]);
  }

  /** Apart from braces and whitespace the text is kept, followed by the default declaration if it declared nothing. */
  lemma NothingElseChanges(s: string)
    ensures Ink(Sanitize(s).text) == Ink(s) + if ValidLabels(s) == [] then Ink(DEFAULT_DIRECTIONS) else ""
  {
    FirstDistinctAre(ValidLabels(s));
    InkOfRender(s);
    InkOfStrip(Render(s));
    SanitizedParts(s);
    hide *;
    InkOfSum(Strip(Render(s)), DEFAULT_DIRECTIONS);
  }

  lemma SanitizedParts(s: string)
    ensures Sanitize(s).text ==
            if FirstDistinct(ValidLabels(s)) == [] then Strip(Render(s)) + DEFAULT_DIRECTIONS else Strip(Render(s))
  {
  }
}
