// Python's notion of whitespace, and stripping it from both ends of a string.
module Text {

  predicate IsSpace(c: char) {
    var n := c as int;
    || 9 <= n <= 13 || 28 <= n <= 32 || n == 0x85 || n == 0xA0 || n == 0x1680 || 0x2000 <= n <= 0x200A
    || n == 0x2028 || n == 0x2029 || n == 0x202F || n == 0x205F || n == 0x3000
  }

  predicate IsBlank(s: string) {
    forall i :: 0 <= i < |s| ==> IsSpace(s[i])
  }

  predicate IsStripped(s: string) {
    s != "" ==> !IsSpace(s[0]) && !IsSpace(s[|s| - 1])
  }

  /** The number of leading whitespace characters. */
  function Leading(s: string): (n: nat)
    ensures n <= |s| && (forall i :: 0 <= i < n ==> IsSpace(s[i])) && (n < |s| ==> !IsSpace(s[n]))
  {
    if s == "" || !IsSpace(s[0]) then 0 else 1 + Leading(s[1..])
  }

  /** Where trailing whitespace begins. */
  function Trailing(s: string): (n: nat)
    ensures n <= |s| && (forall i :: n <= i < |s| ==> IsSpace(s[i])) && (n > 0 ==> !IsSpace(s[n - 1]))
  {
    if s == "" || !IsSpace(s[|s| - 1]) then |s| else Trailing(s[..|s| - 1])
  }

  function Strip(s: string): (r: string)
    ensures IsStripped(r) && |r| <= |s|
    ensures r == "" <==> IsBlank(s)
  {
    var i, j := Leading(s), Trailing(s);
    if i < j then s[i..j] else ""
  }

  lemma StripKeepsStripped(s: string)
    requires IsStripped(s)
    ensures Strip(s) == s
  {
    assert s[0..|s|] == s;
  }

  /** Stripping takes nothing but whitespace. */
  lemma StripTakesSpace(s: string)
    requires Strip(s) != ""
    ensures var i, j := Leading(s), Trailing(s);
            i < j && s == s[..i] + Strip(s) + s[j..] && IsBlank(s[..i]) && IsBlank(s[j..])
  {
    var i, j := Leading(s), Trailing(s);
    assert i < j && Strip(s) == s[i..j];
    hide *;
    BlankParts(s, i, j);
  }

  lemma BlankParts(s: string, i: nat, j: nat)
    requires i <= j <= |s|
    requires (forall k :: 0 <= k < i ==> IsSpace(s[k])) && (forall k :: j <= k < |s| ==> IsSpace(s[k]))
    ensures s == s[..i] + s[i..j] + s[j..] && IsBlank(s[..i]) && IsBlank(s[j..])
  {
    hide IsSpace;
    assert forall k :: 0 <= k < |s[j..]| ==> s[j..][k] == s[j + k];
  }

  // ---------- lower case, of the ASCII letters ----------

  function LowerChar(c: char): char {
    if 'A' <= c <= 'Z' then (c as int + 32) as char else c
  }

  function Lower(s: string): string {
    seq(|s|, i requires 0 <= i < |s| => LowerChar(s[i]))
  }
}
