/**
 Small steps for evaluating the recognisers and matchers on particular lines:
 a keyword present with one space after it, a keyword absent because of one
 differing character, and an identifier ending at a given character.
 */
module Concrete {
  import opened Text
  import opened Lines

  /** `kw`, one space, then text that does not begin with a space: `kw\s+` consumes exactly `kw` and the space. */
  lemma KeywordAt(s: string, kw: string, rest: string)
    requires s == kw + " " + rest
    requires |rest| > 0 && !IsSpace(rest[0])
    ensures Keyword(s, kw) == Some(rest)
    ensures Optional(s, kw) == rest
  {
    assert s[..|kw|] == kw;
    var t := s[|kw|..];
    assert t == " " + rest;
    RunUnique(t, IsSpace, 1);
    assert t[1..] == rest;
  }

  /** A keyword is absent when one of its characters differs from the line's. */
  lemma NotKeyword(s: string, kw: string, i: nat)
    requires i < |kw| && i < |s| && s[i] != kw[i]
    ensures !StartsWith(s, kw)
    ensures Keyword(s, kw).None? && Optional(s, kw) == s
  {
  }

  /** The identifier at the front of `n + rest` is `n` when `rest` does not continue it. */
  lemma NameAt(s: string, n: string, rest: string, start: char -> bool, cont: char -> bool)
    requires s == n + rest && IsName(n, start, cont)
    requires |rest| == 0 || !cont(rest[0])
    ensures Name(s, start, cont) == Some(n)
    ensures s[|n|..] == rest
  {
    assert s[1..] == n[1..] + rest;
    forall i | 0 <= i < |n| - 1 ensures cont(s[1..][i]) {
      assert s[1..][i] == n[i + 1];
    }
    if |rest| > 0 {
      assert s[1..][|n| - 1] == rest[0];
    }
    RunUnique(s[1..], cont, |n| - 1);
    assert s[..|n|] == n;
  }

  /** Text that begins with `(` satisfies `\s*\(`. */
  lemma ParenNext(t: string)
    requires |t| > 0 && t[0] == '('
    ensures SkipSpaces(t) == t && OpensParen(t) && OpensParenOrAngle(t)
  {
    RunUnique(t, IsSpace, 0);
  }

  /** An identifier directly followed by `(`: the capture of `NAME\s*\(`. */
  lemma WordBeforeParen(s: string, n: string, rest: string)
    requires s == n + rest && IsWordName(n)
    requires |rest| > 0 && rest[0] == '('
    ensures WordName(Some(s), OpensParen) == Some(n)
    ensures WordName(Some(s), OpensParenOrAngle) == Some(n)
  {
    NameAt(s, n, rest, IsWordStart, IsWordChar);
    ParenNext(rest);
  }

  /** An identifier, one space and a character `ok` accepts: the greedy capture of `([start]\w*)\s*[ok]` fits at once. */
  lemma BacktrackAt(s: string, n: string, v: string, start: char -> bool, ok: char -> bool)
    requires s == n + " " + v && IsName(n, start, IsWordChar)
    requires |v| > 0 && !IsSpace(v[0]) && ok(v[0])
    ensures BacktrackName(s, start, IsWordChar, ok) == Some(n)
  {
    NameAt(s, n, " " + v, start, IsWordChar);
    RunUnique(" " + v, IsSpace, 1);
    assert (" " + v)[1..] == v;
  }

  /** Text that does not begin with a `start` character holds no capture. */
  lemma NoBacktrackName(s: string, start: char -> bool, ok: char -> bool)
    requires |s| > 0 && !start(s[0])
    ensures BacktrackName(s, start, IsWordChar, ok).None?
  {
  }
}
