// Cleaning the direction declarations of a template text: braces that do not enclose a valid
// name become full-width punctuation, and what remains parses back to the same labels.
module Directions {
  import opened Prelude
  import opened Text

  // ---------- scanning ----------

  predicate IsBrace(c: char) {
    c == '{' || c == '}'
  }

  predicate BraceFree(s: string) {
    forall i :: 0 <= i < |s| ==> !IsBrace(s[i])
  }

  /** The place of the first brace, the length if there is none. */
  function FirstBrace(s: string): (n: nat)
    ensures n <= |s| && BraceFree(s[..n]) && (n < |s| ==> IsBrace(s[n]))
  {
    if s == "" || IsBrace(s[0]) then 0
    else
      var n := FirstBrace(s[1..]);
      assert s[..n + 1] == [s[0]] + s[1..][..n];
      n + 1
  }

  /** The length of the token that the text starts with, zero if it does not start with one. */
  function TokenLength(s: string): (n: nat)
    ensures n <= |s| && (n != 0 ==> n >= 2 && s[0] == '{' && s[n - 1] == '}' && BraceFree(s[1..n - 1]))
  {
    if s == "" || s[0] != '{' then 0
    else
      var k := FirstBrace(s[1..]);
      assert s[1..k + 1] == s[1..][..k];
      if k < |s| - 1 && s[1 + k] == '}' then k + 2 else 0
  }

  function ValidLabel(value: string): Option<string> {
    var name := Strip(value);
    if name == "" || '\n' in name || '\r' in name || |name| > 50 then None else Some(name)
  }

  function Widen(c: char): char {
    if c == '{' then '（' else if c == '}' then '）' else c
  }

  function WidenAll(s: string): (r: string)
    ensures |r| == |s| && BraceFree(r) && forall i :: 0 <= i < |s| ==> r[i] == Widen(s[i])
  {
    if s == "" then "" else [Widen(s[0])] + WidenAll(s[1..])
  }

  function Quote(name: string): string {
    "{" + name + "}"
  }

  function RenderToken(value: string): string {
    match ValidLabel(value)
    case None => "（" + value + "）"
    case Some(name) => Quote(name)
  }

  /** The text with every token cleaned and every other brace widened. */
  function Render(s: string): string
    decreases |s|
  {
    var n := TokenLength(s);
    if s == "" then ""
    else if n == 0 then [Widen(s[0])] + Render(s[1..])
    else RenderToken(s[1..n - 1]) + Render(s[n..])
  }

  /** The labels of the valid tokens in order, repetitions included. */
  function ValidLabels(s: string): seq<string>
    decreases |s|
  {
    var n := TokenLength(s);
    if s == "" then []
    else if n == 0 then ValidLabels(s[1..])
    else
      LabelOf(s[1..n - 1]) + ValidLabels(s[n..])
  }

  const MAX_LABELS := 12

  function AddLabel(labels: seq<string>, name: string): seq<string> {
    if name in labels || |labels| >= MAX_LABELS then labels else labels + [name]
  }

  function FirstDistinct(all: seq<string>): seq<string> {
    if all == [] then [] else AddLabel(FirstDistinct(all[..|all| - 1]), all[|all| - 1])
  }

  const AI := "AI方向"
  const OS := "OS方向"
  const LEAD := " 分类方向："
  const REST := "；每条趋势必须归入其中一个方向。"
  const DEFAULT_DIRECTIONS := LEAD + Quote(AI) + "、" + Quote(OS) + REST

  datatype Cleaned = Cleaned(text: string, labels: seq<string>)

  function Sanitize(s: string): Cleaned {
    var labels := FirstDistinct(ValidLabels(s));
    var text := Strip(Render(s));
    if labels == [] then Cleaned(text + DEFAULT_DIRECTIONS, [AI, OS]) else Cleaned(text, labels)
  }

  // ---------- rendering piece by piece ----------

  /** No closing brace comes before an opening one: a token cannot end here that began before. */
  predicate OpensFirst(s: string) {
    var n := FirstBrace(s);
    n < |s| ==> s[n] == '{'
  }

  lemma {:induction false} FirstBraceOfSum(x: string, y: string)
    ensures FirstBrace(x + y) == if FirstBrace(x) < |x| then FirstBrace(x) else |x| + FirstBrace(y)
    decreases |x|
  {
    if x == "" {
      assert x + y == y;
    } else if !IsBrace(x[0]) {
      FirstBraceOfSum(x[1..], y);
      assert (x + y)[1..] == x[1..] + y;
    }
  }

  lemma TokenOfSum(x: string, y: string)
    requires x != "" && OpensFirst(y)
    ensures TokenLength(x + y) == TokenLength(x)
    ensures TokenLength(x) != 0 ==> (x + y)[1..TokenLength(x) - 1] == x[1..TokenLength(x) - 1]
  {
    assert (x + y)[1..] == x[1..] + y;
    FirstBraceOfSum(x[1..], y);
    var n := TokenLength(x);
    assert n != 0 ==> (x + y)[1..n - 1] == x[1..n - 1];
  }

  // The two recursions, one step at a time.

  lemma RenderPlain(s: string)
    requires s != "" && TokenLength(s) == 0
    ensures Render(s) == [Widen(s[0])] + Render(s[1..]) && ValidLabels(s) == ValidLabels(s[1..])
  {
  }

  function LabelOf(value: string): seq<string> {
    match ValidLabel(value) case None => [] case Some(name) => [name]
  }

  lemma RenderTokenFirst(s: string)
    requires TokenLength(s) != 0
    ensures var n := TokenLength(s);
            && Render(s) == RenderToken(s[1..n - 1]) + Render(s[n..])
            && ValidLabels(s) == LabelOf(s[1..n - 1]) + ValidLabels(s[n..])
  {
  }

  ghost predicate Splits(x: string, y: string) {
    Render(x + y) == Render(x) + Render(y) && ValidLabels(x + y) == ValidLabels(x) + ValidLabels(y)
  }

  lemma SplitsAtPlain(x: string, y: string)
    requires x != "" && TokenLength(x) == 0 && OpensFirst(y) && Splits(x[1..], y)
    ensures Splits(x, y)
  {
    hide Render, ValidLabels, OpensFirst, TokenLength, Widen;
    TokenOfSum(x, y);
    RenderPlain(x);
    RenderPlain(x + y);
    assert (x + y)[1..] == x[1..] + y && (x + y)[0] == x[0];
    SumOfSums([Widen(x[0])], Render(x[1..]), Render(y));
  }

  lemma SplitsAtToken(x: string, y: string)
    requires TokenLength(x) != 0 && OpensFirst(y) && Splits(x[TokenLength(x)..], y)
    ensures Splits(x, y)
  {
    hide Render, ValidLabels, OpensFirst, TokenLength, RenderToken, LabelOf;
    var n := TokenLength(x);
    TokenOfSum(x, y);
    RenderTokenFirst(x);
    RenderTokenFirst(x + y);
    assert (x + y)[n..] == x[n..] + y;
    SumOfSums(RenderToken(x[1..n - 1]), Render(x[n..]), Render(y));
    SumOfSums(LabelOf(x[1..n - 1]), ValidLabels(x[n..]), ValidLabels(y));
  }

  /** Texts can be cleaned in pieces, as long as no token is cut in two. */
  lemma {:induction false} RenderSum(x: string, y: string)
    requires OpensFirst(y)
    ensures Splits(x, y)
    decreases |x|
  {
    if x == "" {
      assert x + y == y;
    } else {
      hide Splits, TokenLength;
      var n := TokenLength(x);
      if n == 0 {
        RenderSum(x[1..], y);
        SplitsAtPlain(x, y);
      } else {
        RenderSum(x[n..], y);
        SplitsAtToken(x, y);
      }
    }
  }

  lemma SumOfSums<T>(a: seq<T>, b: seq<T>, c: seq<T>)
    ensures a + (b + c) == (a + b) + c
  {
  }

  lemma {:induction false} FirstBraceOfFree(s: string)
    requires BraceFree(s)
    ensures FirstBrace(s) == |s| && OpensFirst(s)
    decreases |s|
  {
  }

  lemma {:induction false} RenderFree(s: string)
    requires BraceFree(s)
    ensures Render(s) == s && ValidLabels(s) == []
    decreases |s|
  {
    if s != "" {
      RenderFree(s[1..]);
      assert s == [s[0]] + s[1..];
    }
  }

  predicate IsLabel(s: string) {
    ValidLabel(s) == Some(s)
  }

  lemma ValidLabelIsLabel(value: string)
    requires ValidLabel(value).Some?
    ensures IsLabel(ValidLabel(value).value)
    ensures BraceFree(value) ==> BraceFree(ValidLabel(value).value)
  {
    StripKeepsStripped(Strip(value));
  }

  lemma RenderQuote(name: string)
    requires IsLabel(name) && BraceFree(name)
    ensures Render(Quote(name)) == Quote(name) && ValidLabels(Quote(name)) == [name]
    ensures OpensFirst(Quote(name))
  {
    var s := Quote(name);
    assert s[1..] == name + "}";
    FirstBraceOfFree(name);
    FirstBraceOfSum(name, "}");
    assert TokenLength(s) == |s|;
    assert s[1..|s| - 1] == name;
    assert s[|s|..] == "";
  }

  // ---------- cleaned text ----------

  /** A text that cleaning leaves alone. */
  predicate IsClean(s: string) {
    Render(s) == s
  }

  lemma RenderedToken(value: string)
    requires BraceFree(value)
    ensures IsClean(RenderToken(value)) && OpensFirst(RenderToken(value))
    ensures ValidLabels(RenderToken(value)) == LabelOf(value)
  {
    if ValidLabel(value).Some? {
      ValidLabelIsLabel(value);
      RenderQuote(ValidLabel(value).value);
    } else {
      RenderFree("（" + value + "）");
      FirstBraceOfFree("（" + value + "）");
    }
  }

  lemma OpensFirstSum(x: string, y: string)
    requires OpensFirst(x) && OpensFirst(y)
    ensures OpensFirst(x + y)
  {
    FirstBraceOfSum(x, y);
  }

  /** Cleaning once is enough, and keeps the labels. */
  lemma {:induction false} RenderIsClean(s: string)
    ensures IsClean(Render(s)) && OpensFirst(Render(s))
    ensures ValidLabels(Render(s)) == ValidLabels(s)
    decreases |s|
  {
    var n := TokenLength(s);
    if s == "" {
    } else if n == 0 {
      RenderIsClean(s[1..]);
      var c := [Widen(s[0])];
      RenderFree(c);
      FirstBraceOfFree(c);
      RenderSum(c, Render(s[1..]));
      OpensFirstSum(c, Render(s[1..]));
    } else {
      RenderIsClean(s[n..]);
      RenderedToken(s[1..n - 1]);
      RenderSum(RenderToken(s[1..n - 1]), Render(s[n..]));
      OpensFirstSum(RenderToken(s[1..n - 1]), Render(s[n..]));
    }
  }

  lemma {:induction false} BlankIsFree(s: string)
    requires IsBlank(s)
    ensures BraceFree(s)
  {
    assert !IsSpace('{') && !IsSpace('}');
  }

  /** Stripping a clean text leaves it clean, with the same labels. */
  lemma StripOfClean(t: string)
    requires IsClean(t) && OpensFirst(t)
    ensures IsClean(Strip(t)) && ValidLabels(Strip(t)) == ValidLabels(t)
  {
    var c := Strip(t);
    if c == "" {
      BlankIsFree(t);
      RenderFree(t);
    } else {
      StripTakesSpace(t);
      var a, b := t[..Leading(t)], t[Trailing(t)..];
      CoreOfClean(a, c, b);
    }
  }

  lemma CoreOfClean(a: string, c: string, b: string)
    requires IsBlank(a) && IsBlank(b) && IsClean(a + c + b) && OpensFirst(a + c + b)
    ensures IsClean(c) && ValidLabels(c) == ValidLabels(a + c + b)
  {
    hide Render, ValidLabels, IsBlank;
    BlankIsFree(a);
    BlankIsFree(b);
    FirstBraceOfFree(a);
    FirstBraceOfFree(b);
    RenderFree(a);
    RenderFree(b);
    assert a + c + b == a + (c + b);
    FirstBraceOfSum(a, c + b);
    RenderSum(a, c + b);
    RenderSum(c, b);
    assert Render(c) == (a + (Render(c) + b))[|a|..|a| + |Render(c)|];
    assert c == (a + c + b)[|a|..|a| + |c|];
  }

  // ---------- every brace belongs to a token ----------

  predicate IsTokenAt(s: string, from: nat, to: nat) {
    && from + 2 <= to <= |s|
    && s[from] == '{' && s[to - 1] == '}'
    && BraceFree(s[from + 1..to - 1]) && IsLabel(s[from + 1..to - 1])
  }

  ghost predicate BracesAreTokens(s: string) {
    forall i :: 0 <= i < |s| && IsBrace(s[i]) ==> EndsToken(s, i)
  }

  ghost predicate EndsToken(s: string, i: nat) {
    exists from: nat, to: nat :: IsTokenAt(s, from, to) && (i == from || i == to - 1)
  }

  lemma TokensShift(a: string, c: string, b: string, from: nat, to: nat)
    requires IsTokenAt(c, from, to)
    ensures IsTokenAt(a + c + b, |a| + from, |a| + to)
  {
    assert (a + c + b)[|a| + from + 1..|a| + to - 1] == c[from + 1..to - 1];
  }

  lemma BracesOfSum(x: string, y: string)
    requires BracesAreTokens(x) && BracesAreTokens(y)
    ensures BracesAreTokens(x + y)
  {
    hide IsTokenAt;
    forall i | 0 <= i < |x + y| && IsBrace((x + y)[i])
      ensures EndsToken(x + y, i)
    {
      if i < |x| {
        assert EndsToken(x, i);
        var from: nat, to: nat :| IsTokenAt(x, from, to) && (i == from || i == to - 1);
        TokensShift("", x, y, from, to);
        assert "" + x + y == x + y;
      } else {
        assert EndsToken(y, i - |x|);
        var from: nat, to: nat :| IsTokenAt(y, from, to) && (i - |x| == from || i - |x| == to - 1);
        TokensShift(x, y, "", from, to);
        assert x + y + "" == x + y;
      }
    }
  }

  lemma BracesOfFree(s: string)
    requires BraceFree(s)
    ensures BracesAreTokens(s)
  {
  }

  lemma BracesOfQuote(name: string)
    requires IsLabel(name) && BraceFree(name)
    ensures BracesAreTokens(Quote(name))
  {
    var s := Quote(name);
    assert s[1..|s| - 1] == name;
    assert IsTokenAt(s, 0, |s|);
    assert forall i :: 0 < i < |s| - 1 ==> s[i] == name[i - 1];
  }

  lemma {:induction false} BracesOfRender(s: string)
    ensures BracesAreTokens(Render(s))
    decreases |s|
  {
    if s == "" {
      BracesOfFree("");
    } else {
      hide BracesAreTokens, Render, TokenLength;
      var n := TokenLength(s);
      if n == 0 {
        BracesOfRender(s[1..]);
        BracesAtPlain(s);
      } else {
        BracesOfRender(s[n..]);
        BracesAtToken(s);
      }
    }
  }

  lemma BracesAtPlain(s: string)
    requires s != "" && TokenLength(s) == 0 && BracesAreTokens(Render(s[1..]))
    ensures BracesAreTokens(Render(s))
  {
    RenderPlain(s);
    BracesOfFree([Widen(s[0])]);
    hide *;
    BracesOfSum([Widen(s[0])], Render(s[1..]));
  }

  lemma BracesAtToken(s: string)
    requires TokenLength(s) != 0 && BracesAreTokens(Render(s[TokenLength(s)..]))
    ensures BracesAreTokens(Render(s))
  {
    hide *;
    var n := TokenLength(s);
    RenderTokenFirst(s);
    BracesOfToken(s[1..n - 1]);
    BracesOfSum(RenderToken(s[1..n - 1]), Render(s[n..]));
  }

  lemma BracesOfToken(value: string)
    requires BraceFree(value)
    ensures BracesAreTokens(RenderToken(value))
  {
    if ValidLabel(value).Some? {
      ValidLabelIsLabel(value);
      BracesOfQuote(ValidLabel(value).value);
    } else {
      BracesOfFree("（" + value + "）");
    }
  }

  lemma BracesOfCore(a: string, c: string, b: string)
    requires BraceFree(a) && BraceFree(b) && BracesAreTokens(a + c + b)
    ensures BracesAreTokens(c)
  {
    hide BraceFree, IsTokenAt;
    forall i | 0 <= i < |c| && IsBrace(c[i]) ensures EndsToken(c, i) {
      assert (a + c + b)[|a| + i] == c[i];
      assert EndsToken(a + c + b, |a| + i);
      var from: nat, to: nat :| IsTokenAt(a + c + b, from, to) && (|a| + i == from || |a| + i == to - 1);
      TokenInside(a, c, b, from, to);
      var f: nat, t: nat := from - |a|, to - |a|;
      assert IsTokenAt(c, f, t) && (i == f || i == t - 1);
    }
  }

  lemma TokenInside(a: string, c: string, b: string, from: nat, to: nat)
    requires BraceFree(a) && BraceFree(b) && IsTokenAt(a + c + b, from, to)
    ensures |a| <= from < to <= |a| + |c| && IsTokenAt(c, from - |a|, to - |a|)
  {
    hide BraceFree, IsLabel;
    OutsideIsFree(a, c, b, from);
    OutsideIsFree(a, c, b, to - 1);
    assert c[from - |a| + 1..to - |a| - 1] == (a + c + b)[from + 1..to - 1];
  }

  lemma OutsideIsFree(a: string, c: string, b: string, k: nat)
    requires BraceFree(a) && BraceFree(b) && k < |a + c + b| && IsBrace((a + c + b)[k])
    ensures |a| <= k < |a| + |c| && (a + c + b)[k] == c[k - |a|]
  {
  }

  // ---------- the default declaration ----------

  lemma AiIsLabel()
    ensures IsLabel(AI) && BraceFree(AI)
  {
    StripKeepsStripped(AI);
  }

  lemma OsIsLabel()
    ensures IsLabel(OS) && BraceFree(OS)
  {
    StripKeepsStripped(OS);
  }

  lemma ProseIsFree()
    ensures BraceFree(LEAD) && BraceFree("、") && BraceFree(REST)
  {
  }

  lemma DefaultIsClean()
    ensures IsClean(DEFAULT_DIRECTIONS) && OpensFirst(DEFAULT_DIRECTIONS) && BracesAreTokens(DEFAULT_DIRECTIONS)
    ensures ValidLabels(DEFAULT_DIRECTIONS) == [AI, OS]
  {
    AiIsLabel();
    OsIsLabel();
    ProseIsFree();
    assert DEFAULT_DIRECTIONS == LEAD + Quote(AI) + "、" + Quote(OS) + REST;
    hide *;
    TwoTokens(LEAD, AI, "、", OS, REST);
  }

  lemma TwoTokens(lead: string, a: string, mid: string, b: string, rest: string)
    requires BraceFree(lead) && BraceFree(mid) && BraceFree(rest) && IsLabel(a) && IsLabel(b) && BraceFree(a) && BraceFree(b)
    ensures var s := lead + Quote(a) + mid + Quote(b) + rest;
            IsClean(s) && OpensFirst(s) && BracesAreTokens(s) && ValidLabels(s) == [a, b]
  {
    hide Render, ValidLabels, OpensFirst, BracesAreTokens, Quote, BraceFree, IsLabel;
    RenderQuote(a);
    RenderQuote(b);
    BracesOfQuote(a);
    BracesOfQuote(b);
    Frees(lead);
    Frees(mid);
    Frees(rest);
    Joins(Quote(b), rest);
    Joins(mid, Quote(b) + rest);
    Joins(Quote(a), mid + (Quote(b) + rest));
    Joins(lead, Quote(a) + (mid + (Quote(b) + rest)));
    assert lead + Quote(a) + mid + Quote(b) + rest == lead + (Quote(a) + (mid + (Quote(b) + rest)));
    assert [a] + ([] + ([b] + [])) == [a, b];
  }

  lemma Frees(s: string)
    requires BraceFree(s)
    ensures Render(s) == s && ValidLabels(s) == [] && OpensFirst(s) && BracesAreTokens(s)
  {
    RenderFree(s);
    FirstBraceOfFree(s);
  }

  lemma Joins(x: string, y: string)
    requires OpensFirst(x) && OpensFirst(y) && BracesAreTokens(x) && BracesAreTokens(y)
    ensures Render(x + y) == Render(x) + Render(y) && ValidLabels(x + y) == ValidLabels(x) + ValidLabels(y)
    ensures OpensFirst(x + y) && BracesAreTokens(x + y)
  {
    RenderSum(x, y);
    OpensFirstSum(x, y);
    BracesOfSum(x, y);
  }
}
