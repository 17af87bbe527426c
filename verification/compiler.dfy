/**
 The pattern compiler: given a symbol and a language, one symbol-specific
 pattern per distinct template the language's rules call for, in rule order,
 with textual duplicates dropped.

 A compiled pattern is modelled as the template it was built from plus the
 symbol. `Render` gives the pattern text the source compiles (the escaped
 symbol spliced into the template), and `Matches` says which lines that
 pattern matches, reading the escaped symbol as the literal symbol (see
 `Quote.UnquoteQuoteMeta`).
 */
module Compiler {
  import opened Text
  import opened Lines
  import opened Registry
  import opened Quote

  /** The symbol-specific pattern shapes the compiler can emit. */
  datatype Template =
    | GoFuncDecl                               // ^func\s+SYM\s*\(
    | GoMethodDecl                             // ^func\s+\([^)]+\)\s+SYM\s*\(
    | GoTypeDecl                               // ^type\s+SYM\s+
    | GoConstDecl                              // ^const\s+SYM\s*(?:=|[A-Za-z])
    | GoConstMemberDecl                        // ^\tSYM\s*(?:=|[A-Za-z])
    | GoVarDecl                                // ^var\s+SYM\s*
    | ScriptFunctionDecl                       // function, arrow-with-parens or bare-arrow form
    | ScriptTypeDecl(abstractModifier: bool)   // ^(?:export\s+)?[(?:abstract\s+)?](?:class|interface|type|enum)\s+SYM
    | PyDefDecl                                // ^(?:async\s+)?def\s+SYM\s*\(
    | PyClassDecl                              // ^class\s+SYM
    | RustFnDecl                               // ^(?:pub\s+)?(?:async\s+)?fn\s+SYM\s*[<(]
    | RustTypeDecl                             // ^(?:pub\s+)?(?:struct|enum)\s+SYM
    | RustTraitDecl                            // ^(?:pub\s+)?trait\s+SYM

  /** The pattern text of a template with the (already escaped) symbol `q` spliced in. */
  function RenderText(t: Template, q: string): string {
    match t
    case GoFuncDecl => @"^func\s+" + q + @"\s*\("
    case GoMethodDecl => @"^func\s+\([^)]+\)\s+" + q + @"\s*\("
    case GoTypeDecl => @"^type\s+" + q + @"\s+"
    case GoConstDecl => @"^const\s+" + q + @"\s*(?:=|[A-Za-z])"
    case GoConstMemberDecl => @"^\t" + q + @"\s*(?:=|[A-Za-z])"
    case GoVarDecl => @"^var\s+" + q + @"\s*"
    case ScriptFunctionDecl =>
      @"(?:^(?:export\s+)?(?:async\s+)?function\s+" + q
      + @"|^(?:export\s+)?const\s+" + q + @"\s*=\s*(?:async\s*)?\((?:[^()]*|\([^()]*\))*\).*?=>"
      + @"|^(?:export\s+)?const\s+" + q + @"\s*=\s*(?:async\s+)?[A-Za-z_$][A-Za-z0-9_$]*\s*=>)"
    case ScriptTypeDecl(abs) =>
      (if abs then @"^(?:export\s+)?(?:abstract\s+)?(?:class|interface|type|enum)\s+"
       else @"^(?:export\s+)?(?:class|interface|type|enum)\s+") + q
    case PyDefDecl => @"^(?:async\s+)?def\s+" + q + @"\s*\("
    case PyClassDecl => @"^class\s+" + q
    case RustFnDecl => @"^(?:pub\s+)?(?:async\s+)?fn\s+" + q + @"\s*[<(]"
    case RustTypeDecl => @"^(?:pub\s+)?(?:struct|enum)\s+" + q
    case RustTraitDecl => @"^(?:pub\s+)?trait\s+" + q
  }

  /** One compiled pattern: a template instantiated with a symbol. */
  datatype Compiled = Compiled(template: Template, symbol: string)

  /** The text the source compiles for `c`. */
  function Render(c: Compiled): string {
    RenderText(c.template, QuoteMeta(c.symbol))
  }

  // ---------------------------------------------------------------------------
  // Which lines a compiled pattern matches

  /**
   `\s+SYM` followed by text satisfying `tail`. The split between the spaces and
   the symbol is existential: a symbol that itself begins with a space can take
   some of the spaces.
   */
  predicate SpacedSymbol(s: string, sym: string, tail: string -> bool) {
    exists i :: 0 < i <= |s| && AllSpaces(s[..i]) && StartsWith(s[i..], sym) && tail(s[i + |sym|..])
  }

  /** `kw\s+SYM` followed by text satisfying `tail`. */
  predicate KeywordSymbol(s: string, kw: string, sym: string, tail: string -> bool) {
    StartsWith(s, kw) && SpacedSymbol(s[|kw|..], sym, tail)
  }

  /** `\s+`, with nothing required after it. */
  predicate StartsWithSpace(t: string) { |t| > 0 && IsSpace(t[0]) }

  /** `\s*(?:=|[A-Za-z])` */
  predicate AssignOrLetterNext(t: string) {
    var u := SkipSpaces(t);
    |u| > 0 && IsAssignOrLetter(u[0])
  }

  /** `(?:class|interface|type|enum)\s+SYM` */
  predicate ScriptTypeKeyword(s: string, sym: string) {
    || KeywordSymbol(s, "class", sym, Anything)
    || KeywordSymbol(s, "interface", sym, Anything)
    || KeywordSymbol(s, "type", sym, Anything)
    || KeywordSymbol(s, "enum", sym, Anything)
  }

  /** `^func\s+SYM\s*\(` */
  predicate GoFuncMatch(sym: string, line: string) { KeywordSymbol(line, "func", sym, OpensParen) }

  /** `^func\s+\([^)]+\)\s+SYM\s*\(` */
  predicate GoMethodMatch(sym: string, line: string) {
    match Keyword(line, "func")
    case Some(s) =>
      (match Receiver(s)
       case Some(t) => SpacedSymbol(t, sym, OpensParen)
       case None => false)
    case None => false
  }

  /** `^type\s+SYM\s+` */
  predicate GoTypeMatch(sym: string, line: string) { KeywordSymbol(line, "type", sym, StartsWithSpace) }

  /** `^const\s+SYM\s*(?:=|[A-Za-z])` */
  predicate GoConstMatch(sym: string, line: string) { KeywordSymbol(line, "const", sym, AssignOrLetterNext) }

  /** `^\tSYM\s*(?:=|[A-Za-z])` */
  predicate GoConstMemberMatch(sym: string, line: string) {
    |line| > 0 && line[0] == '\t' && StartsWith(line[1..], sym) && AssignOrLetterNext(line[1..][|sym|..])
  }

  /** `^var\s+SYM\s*` */
  predicate GoVarMatch(sym: string, line: string) { KeywordSymbol(line, "var", sym, Anything) }

  /** The three alternatives of the script function pattern: declaration, arrow with parameter list, bare arrow. */
  predicate ScriptFunctionMatch(sym: string, line: string) {
    || KeywordSymbol(Optional(Optional(line, "export"), "async"), "function", sym, Anything)
    || KeywordSymbol(Optional(line, "export"), "const", sym, ArrowParenTail)
    || KeywordSymbol(Optional(line, "export"), "const", sym, ArrowBareTail)
  }

  /** `^(?:export\s+)?(?:class|interface|type|enum)\s+SYM` */
  predicate ScriptTypeMatch(sym: string, line: string) { ScriptTypeKeyword(Optional(line, "export"), sym) }

  /** `^(?:export\s+)?(?:abstract\s+)?(?:class|interface|type|enum)\s+SYM` */
  predicate AbstractScriptTypeMatch(sym: string, line: string) {
    ScriptTypeKeyword(Optional(Optional(line, "export"), "abstract"), sym)
  }

  /** `^(?:async\s+)?def\s+SYM\s*\(` */
  predicate PyDefMatch(sym: string, line: string) { KeywordSymbol(Optional(line, "async"), "def", sym, OpensParen) }

  /** `^class\s+SYM` */
  predicate PyClassMatch(sym: string, line: string) { KeywordSymbol(line, "class", sym, Anything) }

  /** `^(?:pub\s+)?(?:async\s+)?fn\s+SYM\s*[<(]` */
  predicate RustFnMatch(sym: string, line: string) {
    KeywordSymbol(Optional(Optional(line, "pub"), "async"), "fn", sym, OpensParenOrAngle)
  }

  /** `^(?:pub\s+)?(?:struct|enum)\s+SYM` */
  predicate RustTypeMatch(sym: string, line: string) {
    || KeywordSymbol(Optional(line, "pub"), "struct", sym, Anything)
    || KeywordSymbol(Optional(line, "pub"), "enum", sym, Anything)
  }

  /** `^(?:pub\s+)?trait\s+SYM` */
  predicate RustTraitMatch(sym: string, line: string) { KeywordSymbol(Optional(line, "pub"), "trait", sym, Anything) }

  /** The matcher of each template: which lines the pattern for a symbol matches. */
  function MatcherOf(t: Template): (string, string) -> bool {
    match t
    case GoFuncDecl => GoFuncMatch
    case GoMethodDecl => GoMethodMatch
    case GoTypeDecl => GoTypeMatch
    case GoConstDecl => GoConstMatch
    case GoConstMemberDecl => GoConstMemberMatch
    case GoVarDecl => GoVarMatch
    case ScriptFunctionDecl => ScriptFunctionMatch
    case ScriptTypeDecl(abs) => if abs then AbstractScriptTypeMatch else ScriptTypeMatch
    case PyDefDecl => PyDefMatch
    case PyClassDecl => PyClassMatch
    case RustFnDecl => RustFnMatch
    case RustTypeDecl => RustTypeMatch
    case RustTraitDecl => RustTraitMatch
  }

  /** `line` has a prefix matched by the compiled pattern `c` (every pattern is anchored with `^`). */
  predicate Matches(c: Compiled, line: string) {
    MatcherOf(c.template)(c.symbol, line)
  }

  /** `Matches` for a template is that template's matcher. */
  lemma MatchesAt(t: Template, f: (string, string) -> bool, sym: string, line: string)
    requires MatcherOf(t) == f
    ensures Matches(Compiled(t, sym), line) == f(sym, line)
  {
  }

  // ---------------------------------------------------------------------------
  // The compiler

  /**
   The templates one rule of kind `kind` contributes in language `lang`, as the
   source's switch over language and kind chooses them. A Go const rule
   contributes the standalone and the block-member form; a kind the switch
   has no case for contributes nothing.
   */
  function TemplatesFor(lang: Language, kind: Kind): seq<Template> {
    match lang
    case Go =>
      (match kind
       case Function => [GoFuncDecl]
       case Method => [GoMethodDecl]
       case Type => [GoTypeDecl]
       case Interface => [GoTypeDecl]
       case Const => [GoConstDecl, GoConstMemberDecl]
       case Var => [GoVarDecl])
    case TypeScript => ScriptTemplates(kind)
    case JavaScript => ScriptTemplates(kind)
    case Python =>
      (match kind
       case Function => [PyDefDecl]
       case Type => [PyClassDecl]
       case _ => [])
    case Rust =>
      (match kind
       case Function => [RustFnDecl]
       case Type => [RustTypeDecl]
       case Interface => [RustTraitDecl]
       case _ => [])
    case _ => []
  }

  function ScriptTemplates(kind: Kind): seq<Template> {
    match kind
    case Function => [ScriptFunctionDecl]
    case Type => [ScriptTypeDecl(false)]
    case Interface => [ScriptTypeDecl(false)]
    case _ => []
  }

  /** The template lists of a profile's rules, in rule order. */
  function PerRule(rules: seq<Rule>, table: Kind -> seq<Template>): (r: seq<seq<Template>>)
    ensures |r| == |rules|
    ensures forall i :: 0 <= i < |rules| ==> r[i] == table(rules[i].kind)
  {
    seq(|rules|, i requires 0 <= i < |rules| => table(rules[i].kind))
  }

  /** The pattern texts of a list of compiled patterns. */
  function Texts(cs: seq<Compiled>): set<string> {
    set c | c in cs :: Render(c)
  }

  /** No two compiled patterns have the same text. */
  predicate Distinct(cs: seq<Compiled>) {
    forall i, j :: 0 <= i < j < |cs| ==> Render(cs[i]) != Render(cs[j])
  }

  /** The text `t` renders to for `symbol`. */
  function TextOf(t: Template, symbol: string): string {
    Render(Compiled(t, symbol))
  }

  /**
   One rule's step of the seen-set fold: each template in order, admitted when
   its text has not been seen; returns the admitted patterns and the new seen set.
   */
  function Admit(ts: seq<Template>, symbol: string, seen: set<string>): (r: (seq<Compiled>, set<string>))
    ensures r.1 == seen + Texts(r.0)
    ensures Distinct(r.0)
    ensures forall c :: c in r.0 ==> Render(c) !in seen && c.symbol == symbol && c.template in ts
    ensures forall t :: t in ts ==> TextOf(t, symbol) in r.1
  {
    if |ts| == 0 then ([], seen)
    else
      var c := Compiled(ts[0], symbol);
      if Render(c) in seen then
        var r := Admit(ts[1..], symbol, seen);
        AdmitSkip(ts, symbol, seen, r);
        r
      else
        var r := Admit(ts[1..], symbol, seen + {Render(c)});
        AdmitKeep(ts, symbol, seen, r);
        ([c] + r.0, r.1)
  }

  /** What `Admit` promises of `r` for the templates `ts` and the texts `seen`. */
  predicate Admitted(ts: seq<Template>, symbol: string, seen: set<string>, r: (seq<Compiled>, set<string>)) {
    && r.1 == seen + Texts(r.0)
    && Distinct(r.0)
    && (forall c :: c in r.0 ==> Render(c) !in seen && c.symbol == symbol && c.template in ts)
    && (forall t :: t in ts ==> TextOf(t, symbol) in r.1)
  }

  /** A template whose text was seen adds nothing. */
  lemma AdmitSkip(ts: seq<Template>, symbol: string, seen: set<string>, r: (seq<Compiled>, set<string>))
    requires |ts| > 0 && TextOf(ts[0], symbol) in seen
    requires Admitted(ts[1..], symbol, seen, r)
    ensures Admitted(ts, symbol, seen, r)
  {
    assert forall t :: t in ts ==> t == ts[0] || t in ts[1..];
  }

  /** A template whose text is new is admitted in front of the rest. */
  lemma AdmitKeep(ts: seq<Template>, symbol: string, seen: set<string>, r: (seq<Compiled>, set<string>))
    requires |ts| > 0 && TextOf(ts[0], symbol) !in seen
    requires Admitted(ts[1..], symbol, seen + {TextOf(ts[0], symbol)}, r)
    ensures Admitted(ts, symbol, seen, ([Compiled(ts[0], symbol)] + r.0, r.1))
  {
    var c := Compiled(ts[0], symbol);
    AdmitCons(c, r.0, seen);
    assert forall t :: t in ts ==> t == ts[0] || t in ts[1..];
  }

  lemma AdmitCons(c: Compiled, rest: seq<Compiled>, seen: set<string>)
    requires Distinct(rest)
    requires forall d :: d in rest ==> Render(d) !in seen + {Render(c)}
    ensures Distinct([c] + rest)
    ensures Texts([c] + rest) == {Render(c)} + Texts(rest)
  {
    var out := [c] + rest;
    forall i, j | 0 <= i < j < |out| ensures Render(out[i]) != Render(out[j]) {
      assert out[j] == rest[j - 1];
      if i > 0 {
        assert out[i] == rest[i - 1];
      } else {
        assert out[j] in rest;
      }
    }
  }

  /** The seen-set fold over the rules' template lists. */
  function Compile(perRule: seq<seq<Template>>, symbol: string, seen: set<string>): (r: seq<Compiled>)
    ensures Distinct(r)
    ensures forall c :: c in r ==> Render(c) !in seen && c.symbol == symbol
    ensures forall c :: c in r ==> exists i :: 0 <= i < |perRule| && c.template in perRule[i]
    ensures forall i, t :: 0 <= i < |perRule| && t in perRule[i] ==> TextOf(t, symbol) in seen + Texts(r)
  {
    if |perRule| == 0 then []
    else
      var (head, seen') := Admit(perRule[0], symbol, seen);
      var tail := Compile(perRule[1..], symbol, seen');
      ConcatDistinct(head, tail, seen');
      assert forall i :: 1 <= i < |perRule| ==> perRule[i] == perRule[1..][i - 1];
      assert Texts(head + tail) == Texts(head) + Texts(tail);
      head + tail
  }

  lemma ConcatDistinct(a: seq<Compiled>, b: seq<Compiled>, seen: set<string>)
    requires Distinct(a) && Distinct(b)
    requires Texts(a) <= seen
    requires forall c :: c in b ==> Render(c) !in seen
    ensures Distinct(a + b)
  {
    forall i, j | 0 <= i < j < |a + b| ensures Render((a + b)[i]) != Render((a + b)[j]) {
      if i < |a| && j >= |a| {
        assert (a + b)[i] in a;
        assert (a + b)[j] == b[j - |a|];
      } else if i >= |a| {
        assert (a + b)[i] == b[i - |a|];
        assert (a + b)[j] == b[j - |a|];
      }
    }
  }

  /** One step of the fold over rules, taken at rule `k`. */
  lemma CompileStep(perRule: seq<seq<Template>>, k: nat, symbol: string, seen: set<string>)
    requires k < |perRule|
    ensures var (head, seen') := Admit(perRule[k], symbol, seen);
            Compile(perRule[k..], symbol, seen) == head + Compile(perRule[k + 1..], symbol, seen')
  {
    assert perRule[k..][0] == perRule[k];
    assert perRule[k..][1..] == perRule[k + 1..];
  }

  /** A one-template rule adds its pattern exactly when the text is new. */
  lemma AdmitOne(t: Template, symbol: string, seen: set<string>)
    ensures Admit([t], symbol, seen) ==
      if TextOf(t, symbol) in seen then ([], seen) else ([Compiled(t, symbol)], seen + {TextOf(t, symbol)})
  {
    var c := Compiled(t, symbol);
    assert [t][0] == t && [t][1..] == [];
    if Render(c) !in seen {
      assert Admit([], symbol, seen + {Render(c)}) == ([], seen + {Render(c)});
      assert [c] + [] == [c];
    }
  }

  /** A two-template rule (the Go const rules) admits each template in turn. */
  lemma AdmitTwo(t: Template, u: Template, symbol: string, seen: set<string>)
    ensures var (first, seen') := Admit([t], symbol, seen);
            var (second, seen'') := Admit([u], symbol, seen');
            Admit([t, u], symbol, seen) == (first + second, seen'')
  {
    var c := Compiled(t, symbol);
    assert [t, u][0] == t && [t, u][1..] == [u];
    AdmitOne(t, symbol, seen);
    if Render(c) in seen {
      AdmitOne(u, symbol, seen);
      assert [] + Admit([u], symbol, seen).0 == Admit([u], symbol, seen).0;
    } else {
      AdmitOne(u, symbol, seen + {Render(c)});
    }
  }

  /**
   The source's compiler: no patterns for a language without a profile;
   otherwise the rules' templates in rule order, each kept only when its text
   is new.
   */
  function DefinitionPatternFor(symbol: string, lang: Language): (r: seq<Compiled>)
    ensures ForLanguage(lang).None? ==> r == []
    ensures Distinct(r)
    ensures forall c :: c in r ==> c.symbol == symbol
    ensures ForLanguage(lang).Some? ==>
      var rules := ForLanguage(lang).value.definitions;
      forall i, t :: 0 <= i < |rules| && t in TemplatesFor(lang, rules[i].kind) ==> TextOf(t, symbol) in Texts(r)
    ensures ForLanguage(lang).Some? ==>
      var rules := ForLanguage(lang).value.definitions;
      forall c :: c in r ==> exists i :: 0 <= i < |rules| && c.template in TemplatesFor(lang, rules[i].kind)
  {
    match ForLanguage(lang)
    case None => []
    case Some(p) =>
      var perRule := PerRule(p.definitions, k => TemplatesFor(lang, k));
      var r := Compile(perRule, symbol, {});
      assert forall c :: c in r ==> exists i :: 0 <= i < |p.definitions| && c.template in TemplatesFor(lang, p.definitions[i].kind) by {
        forall c | c in r ensures exists i :: 0 <= i < |p.definitions| && c.template in TemplatesFor(lang, p.definitions[i].kind) {
          var i :| 0 <= i < |perRule| && c.template in perRule[i];
          assert perRule[i] == TemplatesFor(lang, p.definitions[i].kind);
        }
      }
      r
  }
}
