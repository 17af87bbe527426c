/**
 Character classes and string helpers shared by the line recognisers and the
 compiled-pattern matchers. The classes are those of Go's RE2 syntax, which the
 registry's regular expressions are written in.
 */
module Text {

  datatype Option<+T> = None | Some(value: T)

  /** RE2's `\s`: tab, newline, form feed, carriage return and space (not vertical tab). */
  predicate IsSpace(c: char) {
    c == ' ' || c == '\t' || c == '\n' || c == '\U{C}' || c == '\r'
  }

  predicate IsUpper(c: char) { 'A' <= c <= 'Z' }

  predicate IsLower(c: char) { 'a' <= c <= 'z' }

  predicate IsLetter(c: char) { IsUpper(c) || IsLower(c) }

  predicate IsDigit(c: char) { '0' <= c <= '9' }

  /** RE2's `\w` (`[0-9A-Za-z_]`), the class `\b` tests the boundary of. */
  predicate IsWordChar(c: char) { IsLetter(c) || IsDigit(c) || c == '_' }

  predicate StartsWith(s: string, p: string) {
    |p| <= |s| && s[..|p|] == p
  }

  predicate EndsWith(s: string, p: string) {
    |p| <= |s| && s[|s| - |p|..] == p
  }

  /** `p` occurs in `s` starting at index `i`. */
  predicate OccursAt(s: string, p: string, i: int) {
    0 <= i && i + |p| <= |s| && s[i..i + |p|] == p
  }

  predicate Contains(s: string, p: string) {
    exists i :: 0 <= i <= |s| && OccursAt(s, p, i)
  }

  /** `t` is what is left of `s` after dropping some leading characters. */
  predicate IsSuffix(t: string, s: string) {
    |t| <= |s| && s[|s| - |t|..] == t
  }

  predicate All(s: string, p: char -> bool) {
    forall i :: 0 <= i < |s| ==> p(s[i])
  }

  predicate AllSpaces(s: string) {
    forall i :: 0 <= i < |s| ==> IsSpace(s[i])
  }

  /** Length of the longest prefix of `s` whose characters all satisfy `p` (a greedy `[p]*`). */
  function Run(s: string, p: char -> bool): (n: nat)
    ensures n <= |s|
    ensures forall i :: 0 <= i < n ==> p(s[i])
    ensures n < |s| ==> !p(s[n])
  {
    if |s| > 0 && p(s[0]) then 1 + Run(s[1..], p) else 0
  }

  /** The greedy run is the only prefix length with both properties of `Run`. */
  lemma RunUnique(s: string, p: char -> bool, k: nat)
    requires k <= |s|
    requires forall i :: 0 <= i < k ==> p(s[i])
    requires k < |s| ==> !p(s[k])
    ensures Run(s, p) == k
  {
  }

  /** `s` without its leading RE2 spaces (a greedy `\s*`). */
  function SkipSpaces(s: string): (t: string)
    ensures IsSuffix(t, s)
    ensures AllSpaces(s[..|s| - |t|])
    ensures |t| > 0 ==> !IsSpace(t[0])
  {
    s[Run(s, IsSpace)..]
  }

  /** `\s+`: at least one space, all of them consumed; `None` when `s` does not begin with a space. */
  function Spaces1(s: string): (r: Option<string>)
    ensures r.Some? <==> |s| > 0 && IsSpace(s[0])
    ensures r.Some? ==> r.value == SkipSpaces(s) && |r.value| < |s|
  {
    if |s| > 0 && IsSpace(s[0]) then Some(SkipSpaces(s)) else None
  }

  /** `kw\s+`: the keyword followed by at least one space; what follows the spaces. */
  function Keyword(s: string, kw: string): (r: Option<string>)
    ensures r.Some? <==> StartsWith(s, kw) && |s| > |kw| && IsSpace(s[|kw|])
    ensures r.Some? ==> r.value == SkipSpaces(s[|kw|..]) && IsSuffix(r.value, s)
  {
    if StartsWith(s, kw) then Spaces1(s[|kw|..]) else None
  }

  /** `(?:kw\s+)?`: the keyword and its spaces when present, otherwise nothing consumed. */
  function Optional(s: string, kw: string): (t: string)
    ensures IsSuffix(t, s)
    ensures Keyword(s, kw).Some? ==> t == Keyword(s, kw).value
    ensures Keyword(s, kw).None? ==> t == s
  {
    match Keyword(s, kw)
    case Some(rest) => rest
    case None => s
  }

  /** `kw\b`: the keyword not followed by a word character. */
  predicate WordAt(s: string, kw: string) {
    StartsWith(s, kw) && (|s| == |kw| || !IsWordChar(s[|kw|]))
  }

  lemma SuffixTransitive(a: string, b: string, c: string)
    requires IsSuffix(a, b) && IsSuffix(b, c)
    ensures IsSuffix(a, c)
  {
    assert c[|c| - |a|..] == c[|c| - |b|..][|b| - |a|..];
  }

  /** A substring of a suffix is a substring of the whole. */
  lemma ContainsFromSuffix(t: string, s: string, p: string)
    requires IsSuffix(t, s) && Contains(t, p)
    ensures Contains(s, p)
  {
    var i :| 0 <= i <= |t| && OccursAt(t, p, i);
    var k := |s| - |t|;
    var j := k + i;
    assert s[k..] == t;
    assert s[j..j + |p|] == s[k..][i..i + |p|];
    assert OccursAt(s, p, j);
  }

  /** A string that ends with `a + b` ends with `b`. */
  lemma EndsWithTail(s: string, a: string, b: string)
    requires EndsWith(s, a + b)
    ensures EndsWith(s, b)
  {
    assert s[|s| - |b|..] == s[|s| - |a + b|..][|a|..];
  }
}
