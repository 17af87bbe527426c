/**
 Escaping of a search symbol before it is spliced into a pattern (Go's
 `regexp.QuoteMeta`), and its partner: the literal text a fragment made only of
 literal atoms stands for.
 */
module Quote {
  import opened Text

  /** The characters `regexp.QuoteMeta` escapes: `\.+*?()|[]{}^$`. */
  predicate IsMeta(c: char) {
    c in {'\\', '.', '+', '*', '?', '(', ')', '|', '[', ']', '{', '}', '^', '$'}
  }

  /** Each metacharacter of `s` prefixed with a backslash; every other character kept. */
  function QuoteMeta(s: string): (q: string)
    ensures |s| <= |q| <= 2 * |s|
    ensures (forall i :: 0 <= i < |s| ==> !IsMeta(s[i])) ==> q == s
  {
    if |s| == 0 then ""
    else if IsMeta(s[0]) then ['\\', s[0]] + QuoteMeta(s[1..])
    else [s[0]] + QuoteMeta(s[1..])
  }

  /**
   The literal string a pattern fragment matches when the fragment consists
   only of literal atoms: plain non-meta characters and backslash-escaped
   metacharacters. `None` for a fragment holding any operator (an unescaped
   metacharacter) or an escape of anything else.
   */
  function Unquote(q: string): (r: Option<string>)
    ensures r.Some? ==> |r.value| <= |q|
  {
    if |q| == 0 then Some("")
    else if q[0] == '\\' then
      if |q| >= 2 && IsMeta(q[1]) then
        match Unquote(q[2..])
        case Some(rest) => Some([q[1]] + rest)
        case None => None
      else None
    else if IsMeta(q[0]) then None
    else
      match Unquote(q[1..])
      case Some(rest) => Some([q[0]] + rest)
      case None => None
  }

  /** The escaped symbol is a literal fragment standing for exactly the symbol. */
  lemma {:induction false} UnquoteQuoteMeta(s: string)
    ensures Unquote(QuoteMeta(s)) == Some(s)
  {
    if |s| > 0 {
      UnquoteQuoteMeta(s[1..]);
      var q := QuoteMeta(s);
      if IsMeta(s[0]) {
        assert q[2..] == QuoteMeta(s[1..]);
      } else {
        assert q[1..] == QuoteMeta(s[1..]);
      }
      assert s == [s[0]] + s[1..];
    }
  }

  /** Distinct symbols never escape to the same text. */
  lemma QuoteMetaInjective(a: string, b: string)
    requires QuoteMeta(a) == QuoteMeta(b)
    ensures a == b
  {
    UnquoteQuoteMeta(a);
    UnquoteQuoteMeta(b);
  }
}
