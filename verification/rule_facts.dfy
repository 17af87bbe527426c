/**
 Properties of the registry's rules on their own: where two rules capture the
 same name, registry order decides the kind; the Go constant rules' shape; the
 arrow-function rules' need for an arrow and their limit of one level of
 nested parentheses.
 */
module RuleFacts {
  import opened Text
  import opened Lines
  import opened Registry
  import opened Found
  import opened Concrete

  // ---------------------------------------------------------------------------
  // Order decides the kind

  /** The rule that captures `n` before any other decides the kind. */
  lemma FirstKindIs(rules: seq<Rule>, capture: Grammar -> Option<string>, n: string, i: int)
    requires 0 <= i < |rules| && capture(rules[i].grammar) == Some(n)
    requires forall j :: 0 <= j < i ==> capture(rules[j].grammar) != Some(n)
    ensures FirstKind(rules, capture, n) == Some(rules[i].kind)
  {
    var k := FirstKind(rules, capture, n);
    var m :| 0 <= m < |rules| && rules[m].kind == k.value && capture(rules[m].grammar) == Some(n)
             && forall j :: 0 <= j < m ==> capture(rules[j].grammar) != Some(n);
    assert m == i;
  }

  /** `\s+interface\b` is not `\s+struct\b`, and is `\s+[A-Za-z]`. */
  lemma InterfaceTailOthers(t: string)
    requires InterfaceTail(t)
    ensures !StructTail(t) && NamedTypeTail(t)
  {
    var u := Spaces1(t).value;
    assert u[..9][0] == u[0];
    NotKeyword(u, "struct", 0);
  }

  /** On an interface line the struct rule captures nothing and the named-type rule the same name. */
  lemma InterfaceNames(line: string)
    requires GoInterfaceName(line).Some?
    ensures GoStructName(line).None?
    ensures GoNamedTypeName(line) == GoInterfaceName(line)
  {
    var s := Keyword(line, "type").value;
    var n := Name(s, IsWordStart, IsWordChar).value;
    InterfaceTailOthers(s[|n|..]);
  }

  /** A `type` line is no `func` line. */
  lemma TypeLineNoFunc(line: string)
    requires Keyword(line, "type").Some?
    ensures GoFuncName(line).None? && GoMethodName(line).None?
  {
    assert line[..4][0] == line[0];
    NotKeyword(line, "func", 0);
  }

  /** The first four Go rules, in registry order. */
  lemma GoLeadingRules()
    ensures GoProfile.definitions[0] == Rule(GoFunc, Function)
    ensures GoProfile.definitions[1] == Rule(GoMethod, Method)
    ensures GoProfile.definitions[2] == Rule(GoStruct, Type)
    ensures GoProfile.definitions[3] == Rule(GoInterface, Interface)
  {
  }

  /**
   An interface declaration is also captured by the named-type rule (`\s+[A-Za-z]`
   accepts the `i` of `interface`), and the interface rule, which comes first,
   decides: the kind is `Interface`.
   */
  lemma GoInterfaceBeforeNamedType(line: string, n: string)
    requires Recognise(GoInterface, line) == Some(n)
    ensures Recognise(GoNamedType, line) == Some(n)
    ensures KindOf(GoProfile, line, n) == Some(Interface)
  {
    GoInterfaceRecognised(line);
    InterfaceNames(line);
    TypeLineNoFunc(line);
    GoNamedTypeRecognised(line);
    GoFuncRecognised(line);
    GoMethodRecognised(line);
    GoStructRecognised(line);
    GoInterfaceKind(line, n);
  }

  /** Rule 3 decides when rules 0 to 2 do not capture `n`. */
  lemma GoInterfaceKind(line: string, n: string)
    requires Recognise(GoInterface, line) == Some(n)
    requires Recognise(GoFunc, line) != Some(n) && Recognise(GoMethod, line) != Some(n)
    requires Recognise(GoStruct, line) != Some(n)
    ensures KindOf(GoProfile, line, n) == Some(Interface)
  {
    GoLeadingRules();
    FirstKindFourth(GoProfile.definitions, g => Recognise(g, line), n);
  }

  /** Rule 1 decides when rule 0 does not capture `n`. */
  lemma GoMethodRuleKind(line: string, n: string)
    requires Recognise(GoMethod, line) == Some(n)
    requires Recognise(GoFunc, line) != Some(n)
    ensures KindOf(GoProfile, line, n) == Some(Method)
  {
    GoLeadingRules();
    FirstKindSecond(GoProfile.definitions, g => Recognise(g, line), n);
  }

  lemma FirstKindSecond(rules: seq<Rule>, capture: Grammar -> Option<string>, n: string)
    requires |rules| >= 2 && capture(rules[0].grammar) != Some(n) && capture(rules[1].grammar) == Some(n)
    ensures FirstKind(rules, capture, n) == Some(rules[1].kind)
  {
    FirstKindIs(rules, capture, n, 1);
  }

  lemma FirstKindFourth(rules: seq<Rule>, capture: Grammar -> Option<string>, n: string)
    requires |rules| >= 4 && capture(rules[3].grammar) == Some(n)
    requires capture(rules[0].grammar) != Some(n) && capture(rules[1].grammar) != Some(n)
    requires capture(rules[2].grammar) != Some(n)
    ensures FirstKind(rules, capture, n) == Some(rules[3].kind)
  {
    FirstKindIs(rules, capture, n, 3);
  }

  /** A method line has a `(` where the function rule needs a name: that rule captures nothing. */
  lemma MethodNotFunction(line: string)
    requires GoMethodName(line).Some?
    ensures GoFuncName(line).None?
  {
    var s := Keyword(line, "func").value;
    assert |s| > 0 && s[0] == '(' by {
      assert Receiver(s).Some?;
    }
    NoNameAtParen(s);
  }

  lemma NoNameAtParen(s: string)
    requires |s| > 0 && s[0] == '('
    ensures Name(s, IsWordStart, IsWordChar).None?
  {
    assert !IsWordStart(s[0]);
  }

  /** A method declaration is attributed the kind `Method`, not `Function`. */
  lemma GoMethodKind(line: string, n: string)
    requires Recognise(GoMethod, line) == Some(n)
    ensures Recognise(GoFunc, line).None?
    ensures KindOf(GoProfile, line, n) == Some(Method)
  {
    GoMethodRecognised(line);
    GoFuncRecognised(line);
    MethodNotFunction(line);
    GoMethodRuleKind(line, n);
  }

  // ---------------------------------------------------------------------------
  // Go constants

  /**
   A constant-block member is a tab-indented line whose name starts with an
   upper-case letter or `_`, followed after optional spaces by `=` or a letter
   (the start of a type). A space-indented line is never one.
   */
  lemma GoConstMemberShape(line: string, n: string)
    requires Recognise(GoConstInBlock, line) == Some(n)
    ensures |line| > 0 && line[0] == '\t'
    ensures |n| > 0 && IsConstStart(n[0]) && IsWordName(n)
    ensures StartsWith(line[1..], n)
    ensures var u := SkipSpaces(line[1..][|n|..]); |u| > 0 && IsAssignOrLetter(u[0])
  {
    GoConstInBlockRecognised(line);
    assert line[1..][..|n|] == n;
  }

  /** The same holds of a standalone `const` declaration after the keyword. */
  lemma GoConstShape(line: string, n: string)
    requires Recognise(GoConst, line) == Some(n)
    ensures Keyword(line, "const").Some?
    ensures |n| > 0 && IsConstStart(n[0]) && IsWordName(n)
    ensures var s := Keyword(line, "const").value;
      StartsWith(s, n) && var u := SkipSpaces(s[|n|..]); |u| > 0 && IsAssignOrLetter(u[0])
  {
    GoConstRecognised(line);
    var s := Keyword(line, "const").value;
    assert s[..|n|] == n;
  }

  // ---------------------------------------------------------------------------
  // Arrow functions

  /** `.*?=>` finds an arrow. */
  lemma {:induction false} ArrowAheadContains(s: string)
    requires ArrowAhead(s)
    ensures Contains(s, "=>")
    decreases |s|
  {
    if s[..2] == "=>" {
      assert OccursAt(s, "=>", 0);
    } else {
      ArrowAheadContains(s[1..]);
      var i :| 0 <= i <= |s[1..]| && OccursAt(s[1..], "=>", i);
      assert s[i + 1..i + 3] == s[1..][i..i + 2];
      assert OccursAt(s, "=>", i + 1);
    }
  }

  /** A parameter-list arrow tail contains `=>`. */
  lemma ArrowParenTailContains(t: string)
    requires ArrowParenTail(t)
    ensures Contains(t, "=>")
  {
    var u := SkipSpaces(t);
    var v := SkipSpaces(u[1..]);
    var w := if StartsWith(v, "async") then SkipSpaces(v[5..]) else v;
    var x := ParenGroup(w).value;
    ArrowAheadContains(x);
    ContainsFromSuffix(x, w, "=>");
    if StartsWith(v, "async") {
      SuffixTransitive(w, v[5..], v);
    }
    ContainsFromSuffix(w, v, "=>");
    SuffixTransitive(v, u[1..], u);
    ContainsFromSuffix(v, u, "=>");
    ContainsFromSuffix(u, t, "=>");
  }

  /** A bare-parameter arrow tail contains `=>`. */
  lemma ArrowBareTailContains(t: string)
    requires ArrowBareTail(t)
    ensures Contains(t, "=>")
  {
    var u := SkipSpaces(t);
    var v := SkipSpaces(u[1..]);
    var w := if Keyword(v, "async").Some? && BareParam(Keyword(v, "async").value) then Keyword(v, "async").value else v;
    assert BareParam(w);
    BareParamContains(w);
    ContainsFromSuffix(w, v, "=>");
    SuffixTransitive(v, u[1..], u);
    ContainsFromSuffix(v, u, "=>");
    ContainsFromSuffix(u, t, "=>");
  }

  lemma BareParamContains(w: string)
    requires BareParam(w)
    ensures Contains(w, "=>")
  {
    var n := ScriptName(Some(w), OpensArrow).value;
    var r := SkipSpaces(w[|n|..]);
    assert OccursAt(r, "=>", 0);
    ContainsFromSuffix(r, w[|n|..], "=>");
    ContainsFromSuffix(w[|n|..], w, "=>");
  }

  /** Both arrow-function rules capture only on lines that contain `=>`. */
  lemma ArrowRulesNeedArrow(line: string)
    requires Recognise(ArrowParen, line).Some? || Recognise(ArrowBare, line).Some?
    ensures Contains(line, "=>")
  {
    if Recognise(ArrowParen, line).Some? {
      ArrowParenRecognised(line);
      ArrowParenNeedsArrow(line);
    } else {
      ArrowBareRecognised(line);
      ArrowBareNeedsArrow(line);
    }
  }

  lemma ArrowParenNeedsArrow(line: string)
    requires ArrowParenName(line).Some?
    ensures Contains(line, "=>")
  {
    var s := Keyword(Optional(line, "export"), "const").value;
    var n := ArrowParenName(line).value;
    ArrowParenTailContains(s[|n|..]);
    ConstTailInLine(line, n);
  }

  lemma ArrowBareNeedsArrow(line: string)
    requires ArrowBareName(line).Some?
    ensures Contains(line, "=>")
  {
    var s := Keyword(Optional(line, "export"), "const").value;
    var n := ArrowBareName(line).value;
    ArrowBareTailContains(s[|n|..]);
    ConstTailInLine(line, n);
  }

  /** What follows the name of a `const` declaration is part of the line. */
  lemma ConstTailInLine(line: string, n: string)
    requires Keyword(Optional(line, "export"), "const").Some?
    requires |n| <= |Keyword(Optional(line, "export"), "const").value|
    requires Contains(Keyword(Optional(line, "export"), "const").value[|n|..], "=>")
    ensures Contains(line, "=>")
  {
    var s := Keyword(Optional(line, "export"), "const").value;
    ContainsFromSuffix(s[|n|..], s, "=>");
    SuffixTransitive(s, Optional(line, "export"), line);
    ContainsFromSuffix(s, line, "=>");
  }

  // ---------------------------------------------------------------------------
  // What the arrow-function rules capture

  /**
   `const NAME = (…)…=>`: a parameter group the rule's group accepts, followed
   by an arrow, gives the parenthesised arrow rule the declared name; the
   function-declaration rule before it captures nothing.
   */
  lemma ArrowParenCaptures(line: string, n: string, t: string)
    requires line == "const " + n + " = " + t
    requires IsScriptName(n)
    requires |t| > 0 && t[0] == '('
    requires ParenGroup(t).Some? && ArrowAhead(ParenGroup(t).value)
    ensures Recognise(TsFunction, line).None? && Recognise(JsFunction, line).None?
    ensures Recognise(ArrowParen, line) == Some(n)
  {
    ConstLine(line, n, " = ", t);
    ConstLineNoFunction(line, n + (" = " + t));
    ConstSplit(line, n, " = ", t);
    ArrowParenTailAt(t);
    ScriptNameSpaced(n, t, ArrowParenTail);
    ArrowParenRecognised(line);
  }

  /** A name, ` = ` and what `tail` accepts after the name. */
  lemma ScriptNameSpaced(n: string, t: string, tail: string -> bool)
    requires IsScriptName(n) && tail(" = " + t)
    ensures ScriptName(Some(n + (" = " + t)), tail) == Some(n)
  {
    ScriptNameThen(n + (" = " + t), n, " = " + t, tail);
  }

  /** `const NAME MID REST` with a name: `const\s+` leaves the name and what follows it. */
  lemma ConstSplit(line: string, n: string, mid: string, t: string)
    requires line == "const " + n + mid + t
    requires IsScriptName(n)
    ensures Keyword(Optional(line, "export"), "const") == Some(n + (mid + t))
  {
    ConstLine(line, n, mid, t);
    ConstDeclared(line, n + (mid + t));
  }

  /** Regrouping `const NAME MID REST` around the name. */
  lemma ConstLine(line: string, n: string, mid: string, t: string)
    requires line == "const " + n + mid + t
    ensures line == "const " + (n + (mid + t))
  {
  }

  /** An identifier that the next character does not continue, followed by what `tail` accepts. */
  lemma ScriptNameThen(s: string, n: string, rest: string, tail: string -> bool)
    requires s == n + rest && IsScriptName(n)
    requires |rest| > 0 && !IsScriptChar(rest[0]) && tail(rest)
    ensures ScriptName(Some(s), tail) == Some(n)
  {
    NameAt(s, n, rest, IsScriptStart, IsScriptChar);
  }

  /** ` = (…)…=>` is what the parenthesised arrow rule requires after the name. */
  lemma ArrowParenTailAt(t: string)
    requires |t| > 0 && t[0] == '('
    requires ParenGroup(t).Some? && ArrowAhead(ParenGroup(t).value)
    ensures ArrowParenTail(" = " + t)
  {
    EqualsThen(t);
    NoAsync(t);
  }

  /** Text that begins with `(` does not begin with `async`. */
  lemma NoAsync(t: string)
    requires |t| > 0 && t[0] == '('
    ensures !StartsWith(t, "async")
  {
    if |t| >= 5 {
      assert t[..5][0] == t[0];
    }
  }

  /** `\s*=\s*` before text that does not begin with a space. */
  lemma EqualsThen(t: string)
    requires |t| > 0 && !IsSpace(t[0])
    ensures SkipSpaces(" = " + t) == "= " + t
    ensures SkipSpaces(("= " + t)[1..]) == t
  {
    RunUnique(" = " + t, IsSpace, 1);
    assert (" = " + t)[1..] == "= " + t;
    assert ("= " + t)[1..] == " " + t;
    RunUnique(" " + t, IsSpace, 1);
    assert (" " + t)[1..] == t;
  }

  /** A line that opens with `const` and one space: the optional `export` is absent and the keyword consumed. */
  lemma ConstDeclared(line: string, s: string)
    requires line == "const " + s
    requires |s| > 0 && !IsSpace(s[0])
    ensures Optional(line, "export") == line
    ensures Keyword(Optional(line, "export"), "const") == Some(s)
  {
    NotKeyword(line, "export", 0);
    KeywordAt(line, "const", s);
  }

  /**
   `const NAME = PARAM =>`: a single bare parameter followed by an arrow gives
   the bare arrow rule the declared name; the function-declaration rule before
   it captures nothing.
   */
  lemma ArrowBareCaptures(line: string, n: string, param: string, rest: string)
    requires line == "const " + n + " = " + param + " =>" + rest
    requires IsScriptName(n) && IsScriptName(param)
    ensures Recognise(TsFunction, line).None? && Recognise(JsFunction, line).None?
    ensures Recognise(ArrowBare, line) == Some(n)
  {
    var t := param + (" =>" + rest);
    assert line == "const " + n + " = " + t;
    ConstLine(line, n, " = ", t);
    ConstLineNoFunction(line, n + (" = " + t));
    ConstSplit(line, n, " = ", t);
    ArrowBareTailAt(t, param, rest);
    ScriptNameSpaced(n, t, ArrowBareTail);
    ArrowBareRecognised(line);
  }

  /** ` = PARAM =>` is what the bare arrow rule requires after the name. */
  lemma ArrowBareTailAt(t: string, param: string, rest: string)
    requires t == param + (" =>" + rest) && IsScriptName(param)
    ensures ArrowBareTail(" = " + t)
  {
    EqualsThen(t);
    BareParamAt(t, param, rest);
  }

  /** `PARAM\s*=>` */
  lemma BareParamAt(t: string, param: string, rest: string)
    requires t == param + (" =>" + rest) && IsScriptName(param)
    ensures BareParam(t)
  {
    NameAt(t, param, " =>" + rest, IsScriptStart, IsScriptChar);
    RunUnique(" =>" + rest, IsSpace, 1);
    assert (" =>" + rest)[1..] == "=>" + rest;
    assert ("=>" + rest)[..2] == "=>";
  }

  // ---------------------------------------------------------------------------
  // Rules that come earlier in a kind and capture nothing on a line

  /** A line whose first character begins none of `export`, `async` and `function`: neither function-declaration rule captures. */
  lemma NoFunctionKeyword(line: string)
    requires |line| > 0 && line[0] != 'e' && line[0] != 'a' && line[0] != 'f'
    ensures Recognise(TsFunction, line).None? && Recognise(JsFunction, line).None?
  {
    NotKeyword(line, "export", 0);
    NotKeyword(line, "async", 0);
    NotKeyword(line, "function", 0);
    TsFunctionRecognised(line);
    JsFunctionRecognised(line);
  }

  /** A `const` declaration is not a function declaration. */
  lemma ConstLineNoFunction(line: string, rest: string)
    requires line == "const " + rest
    ensures Recognise(TsFunction, line).None? && Recognise(JsFunction, line).None?
  {
    assert line[0] == 'c';
    NoFunctionKeyword(line);
  }

  /** A line that does not begin with `c`: the `const` rule captures nothing. */
  lemma NoConstKeyword(line: string)
    requires |line| > 0 && line[0] != 'c'
    ensures Recognise(GoConst, line).None?
  {
    NotKeyword(line, "const", 0);
    GoConstRecognised(line);
  }

  /**
   `const NAME = X…` where X neither opens a parameter group nor begins
   `async`: the parenthesised arrow rule captures nothing.
   */
  lemma ArrowParenNeedsGroup(line: string, n: string, t: string)
    requires line == "const " + n + " = " + t
    requires IsScriptName(n)
    requires |t| > 0 && t[0] != '(' && t[0] != 'a' && !IsSpace(t[0])
    ensures Recognise(ArrowParen, line).None?
  {
    ConstSplit(line, n, " = ", t);
    NoGroupTail(t);
    ScriptNameRefused(n, t, ArrowParenTail);
    ArrowParenRecognised(line);
  }

  /** ` = X…` with X neither a group nor `async`: the parenthesised arrow rule's tail fails. */
  lemma NoGroupTail(t: string)
    requires |t| > 0 && t[0] != '(' && t[0] != 'a' && !IsSpace(t[0])
    ensures !ArrowParenTail(" = " + t)
  {
    EqualsThen(t);
    if |t| >= 5 {
      assert t[..5][0] == t[0];
    }
  }

  /** A name, ` = ` and what `tail` refuses: nothing is captured, since the name cannot end elsewhere. */
  lemma ScriptNameRefused(n: string, t: string, tail: string -> bool)
    requires IsScriptName(n) && !tail(" = " + t)
    ensures ScriptName(Some(n + (" = " + t)), tail).None?
  {
    NameAt(n + (" = " + t), n, " = " + t, IsScriptStart, IsScriptChar);
  }

  /** No parentheses in `s`. */
  predicate ParenFree(s: string) {
    forall i :: 0 <= i < |s| ==> s[i] != '(' && s[i] != ')'
  }

  /** Parenthesis-free text is consumed by `[^()]*` without changing the group's state. */
  lemma {:induction false} GroupBodySkip(a: string, rest: string, nested: bool)
    requires ParenFree(a)
    ensures GroupBody(a + rest, nested) == GroupBody(rest, nested)
    decreases |a|
  {
    if |a| > 0 {
      assert (a + rest)[0] == a[0];
      assert (a + rest)[1..] == a[1..] + rest;
      GroupBodySkip(a[1..], rest, nested);
    } else {
      assert a + rest == rest;
    }
  }

  /** One level of nested parentheses is accepted: the group ends after the outer `)`. */
  lemma OneLevelAccepted(a: string, b: string, c: string, d: string)
    requires ParenFree(a) && ParenFree(b) && ParenFree(c)
    ensures ParenGroup("(" + a + "(" + b + ")" + c + ")" + d) == Some(d)
  {
    var s := "(" + a + "(" + b + ")" + c + ")" + d;
    var t := "(" + b + ")" + c + ")" + d;
    assert s[1..] == a + t;
    GroupBodySkip(a, t, false);
    InnerGroup(b, c, d);
  }

  /** The inner pair, then the rest of the outer group. */
  lemma InnerGroup(b: string, c: string, d: string)
    requires ParenFree(b) && ParenFree(c)
    ensures GroupBody("(" + b + ")" + c + ")" + d, false) == Some(d)
  {
    var t := "(" + b + ")" + c + ")" + d;
    var u := ")" + c + ")" + d;
    assert t[1..] == b + u;
    GroupBodySkip(b, u, true);
    OuterClose(c, d);
  }

  /** Closing the inner pair, then the outer group. */
  lemma OuterClose(c: string, d: string)
    requires ParenFree(c)
    ensures GroupBody(")" + c + ")" + d, true) == Some(d)
  {
    var u := ")" + c + ")" + d;
    assert u[1..] == c + (")" + d);
    GroupBodySkip(c, ")" + d, false);
    assert (")" + d)[1..] == d;
  }

  /** A second level of nesting makes the group fail: `[^()]` cannot consume the third `(`. */
  lemma TwoLevelsRejected(a: string, b: string, c: string)
    requires ParenFree(a) && ParenFree(b)
    ensures ParenGroup("(" + a + "(" + b + "(" + c) == None
  {
    var s := "(" + a + "(" + b + "(" + c;
    var t := "(" + b + "(" + c;
    assert s[1..] == a + t;
    GroupBodySkip(a, t, false);
    InnerOpen(b, c);
  }

  /** Inside the inner pair, a further `(` ends the match. */
  lemma InnerOpen(b: string, c: string)
    requires ParenFree(b)
    ensures GroupBody("(" + b + "(" + c, false) == None
  {
    var t := "(" + b + "(" + c;
    assert t[1..] == b + ("(" + c);
    GroupBodySkip(b, "(" + c, true);
  }
}
