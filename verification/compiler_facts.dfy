/**
 What the compiler produces for each supported language. Its de-duplication
 works on pattern texts; when distinct templates render to distinct texts for
 the symbol at hand, that is the same as keeping the first occurrence of each
 template, which is computed here on templates alone.
 */
module CompilerFacts {
  import opened Text
  import opened Lines
  import opened Registry
  import opened Quote
  import opened Compiler

  /** The templates of a list, as a set. */
  function Elems(ts: seq<Template>): set<Template> {
    set t | t in ts
  }

  /** The texts a set of templates renders to for `symbol`. */
  function TextSet(ts: set<Template>, symbol: string): set<string> {
    set t | t in ts :: TextOf(t, symbol)
  }

  /** Distinct templates of `u` render to distinct texts for `symbol`. */
  predicate TextInjective(symbol: string, u: set<Template>) {
    forall t, w :: t in u && w in u && TextOf(t, symbol) == TextOf(w, symbol) ==> t == w
  }

  /** Each template instantiated with `symbol`. */
  function Instantiate(ts: seq<Template>, symbol: string): (r: seq<Compiled>)
    ensures |r| == |ts|
    ensures forall i :: 0 <= i < |ts| ==> r[i] == Compiled(ts[i], symbol)
  {
    seq(|ts|, i requires 0 <= i < |ts| => Compiled(ts[i], symbol))
  }

  /** The first occurrence of each template not in `seen`, in order. */
  function Dedup(ts: seq<Template>, seen: set<Template>): seq<Template> {
    if |ts| == 0 then []
    else if ts[0] in seen then Dedup(ts[1..], seen)
    else [ts[0]] + Dedup(ts[1..], seen + {ts[0]})
  }

  /** `Dedup` over the rules' template lists in order, carrying the templates seen so far. */
  function Firsts(perRule: seq<seq<Template>>, seen: set<Template>): seq<Template> {
    if |perRule| == 0 then []
    else Dedup(perRule[0], seen) + Firsts(perRule[1..], seen + Elems(perRule[0]))
  }

  lemma InstantiateConcat(a: seq<Template>, b: seq<Template>, symbol: string)
    ensures Instantiate(a + b, symbol) == Instantiate(a, symbol) + Instantiate(b, symbol)
  {
    assert forall i :: 0 <= i < |a + b| ==>
      Instantiate(a + b, symbol)[i] == (Instantiate(a, symbol) + Instantiate(b, symbol))[i];
  }

  /** One rule's step of the text-level fold is the template-level `Dedup`. */
  lemma {:induction false} AdmitIsDedup(ts: seq<Template>, symbol: string, seen: set<Template>, u: set<Template>)
    requires Elems(ts) <= u && seen <= u && TextInjective(symbol, u)
    ensures Admit(ts, symbol, TextSet(seen, symbol)) ==
      (Instantiate(Dedup(ts, seen), symbol), TextSet(seen + Elems(ts), symbol))
  {
    if |ts| > 0 {
      var t := ts[0];
      var c := Compiled(t, symbol);
      assert Elems(ts) == {t} + Elems(ts[1..]);
      if t in seen {
        assert Render(c) in TextSet(seen, symbol);
        AdmitIsDedup(ts[1..], symbol, seen, u);
        assert seen + Elems(ts) == seen + Elems(ts[1..]);
      } else {
        assert Render(c) !in TextSet(seen, symbol);
        assert TextSet(seen, symbol) + {Render(c)} == TextSet(seen + {t}, symbol);
        AdmitIsDedup(ts[1..], symbol, seen + {t}, u);
        assert seen + {t} + Elems(ts[1..]) == seen + Elems(ts);
        InstantiateConcat([t], Dedup(ts[1..], seen + {t}), symbol);
        assert Instantiate([t], symbol) == [c];
        assert Dedup(ts, seen) == [t] + Dedup(ts[1..], seen + {t});
        assert Admit(ts, symbol, TextSet(seen, symbol)).0 == [c] + Admit(ts[1..], symbol, TextSet(seen + {t}, symbol)).0;
      }
    } else {
      assert seen + Elems(ts) == seen;
      assert Instantiate([], symbol) == [];
    }
  }

  /** The compiler's text-level fold is the template-level `Firsts`. */
  lemma {:induction false} CompileIsFirsts(perRule: seq<seq<Template>>, symbol: string, seen: set<Template>, u: set<Template>)
    requires seen <= u && TextInjective(symbol, u)
    requires forall i :: 0 <= i < |perRule| ==> Elems(perRule[i]) <= u
    ensures Compile(perRule, symbol, TextSet(seen, symbol)) == Instantiate(Firsts(perRule, seen), symbol)
  {
    if |perRule| > 0 {
      AdmitIsDedup(perRule[0], symbol, seen, u);
      assert forall i :: 1 <= i < |perRule| ==> perRule[1..][i - 1] == perRule[i];
      CompileIsFirsts(perRule[1..], symbol, seen + Elems(perRule[0]), u);
      InstantiateConcat(Dedup(perRule[0], seen), Firsts(perRule[1..], seen + Elems(perRule[0])), symbol);
    }
  }

  /**
   For a supported language whose templates render injectively for `symbol`,
   the compiler keeps the first occurrence of each template the rules call for.
   */
  lemma DefinitionPatternIsFirsts(symbol: string, lang: Language, u: set<Template>)
    requires ForLanguage(lang).Some?
    requires TextInjective(symbol, u)
    requires forall k :: Elems(TemplatesFor(lang, k)) <= u
    ensures DefinitionPatternFor(symbol, lang) ==
      Instantiate(Firsts(PerRule(ForLanguage(lang).value.definitions, k => TemplatesFor(lang, k)), {}), symbol)
  {
    var p := PerRule(ForLanguage(lang).value.definitions, k => TemplatesFor(lang, k));
    assert TextSet({}, symbol) == {};
    CompileIsFirsts(p, symbol, {}, u);
  }

  // ---------------------------------------------------------------------------
  // Rendering is injective within each language

  /** The length of a template's text apart from the escaped symbol. */
  function FixedLength(t: Template): nat {
    match t
    case GoFuncDecl => 13
    case GoMethodDecl => 25
    case GoTypeDecl => 11
    case GoConstDecl => 26
    case GoConstMemberDecl => 20
    case GoVarDecl => 10
    case ScriptFunctionDecl => 191
    case ScriptTypeDecl(abs) => if abs then 63 else 47
    case PyDefDecl => 25
    case PyClassDecl => 9
    case RustFnDecl => 37
    case RustTypeDecl => 30
    case RustTraitDecl => 20
  }

  /** How many times a template's text holds the escaped symbol. */
  function Copies(t: Template): nat {
    if t == ScriptFunctionDecl then 3 else 1
  }

  lemma TextLength(t: Template, symbol: string)
    ensures |TextOf(t, symbol)| == FixedLength(t) + Copies(t) * |QuoteMeta(symbol)|
  {
    match t
    case GoFuncDecl => GoFuncLength(symbol);
    case GoMethodDecl => GoMethodLength(symbol);
    case GoTypeDecl => GoTypeLength(symbol);
    case GoConstDecl => GoConstLength(symbol);
    case GoConstMemberDecl => GoConstMemberLength(symbol);
    case GoVarDecl => GoVarLength(symbol);
    case ScriptFunctionDecl => ScriptFunctionLength(symbol);
    case ScriptTypeDecl(abs) =>
      if abs { AbstractScriptTypeLength(symbol); } else { ScriptTypeLength(symbol); }
    case PyDefDecl => PyDefLength(symbol);
    case PyClassDecl => PyClassLength(symbol);
    case RustFnDecl => RustFnLength(symbol);
    case RustTypeDecl => RustTypeLength(symbol);
    case RustTraitDecl => RustTraitLength(symbol);
  }

  lemma GoFuncLength(symbol: string)
    ensures |TextOf(GoFuncDecl, symbol)| == 13 + |QuoteMeta(symbol)|
  {
  }

  lemma GoMethodLength(symbol: string)
    ensures |TextOf(GoMethodDecl, symbol)| == 25 + |QuoteMeta(symbol)|
  {
  }

  lemma GoTypeLength(symbol: string)
    ensures |TextOf(GoTypeDecl, symbol)| == 11 + |QuoteMeta(symbol)|
  {
  }

  lemma GoConstLength(symbol: string)
    ensures |TextOf(GoConstDecl, symbol)| == 26 + |QuoteMeta(symbol)|
  {
  }

  lemma GoConstMemberLength(symbol: string)
    ensures |TextOf(GoConstMemberDecl, symbol)| == 20 + |QuoteMeta(symbol)|
  {
  }

  lemma GoVarLength(symbol: string)
    ensures |TextOf(GoVarDecl, symbol)| == 10 + |QuoteMeta(symbol)|
  {
  }

  lemma ScriptFunctionLength(symbol: string)
    ensures |TextOf(ScriptFunctionDecl, symbol)| == 191 + 3 * |QuoteMeta(symbol)|
  {
  }

  lemma ScriptTypeLength(symbol: string)
    ensures |TextOf(ScriptTypeDecl(false), symbol)| == 47 + |QuoteMeta(symbol)|
  {
  }

  lemma AbstractScriptTypeLength(symbol: string)
    ensures |TextOf(ScriptTypeDecl(true), symbol)| == 63 + |QuoteMeta(symbol)|
  {
  }

  lemma PyDefLength(symbol: string)
    ensures |TextOf(PyDefDecl, symbol)| == 25 + |QuoteMeta(symbol)|
  {
  }

  lemma PyClassLength(symbol: string)
    ensures |TextOf(PyClassDecl, symbol)| == 9 + |QuoteMeta(symbol)|
  {
  }

  lemma RustFnLength(symbol: string)
    ensures |TextOf(RustFnDecl, symbol)| == 37 + |QuoteMeta(symbol)|
  {
  }

  lemma RustTypeLength(symbol: string)
    ensures |TextOf(RustTypeDecl, symbol)| == 30 + |QuoteMeta(symbol)|
  {
  }

  lemma RustTraitLength(symbol: string)
    ensures |TextOf(RustTraitDecl, symbol)| == 20 + |QuoteMeta(symbol)|
  {
  }

  /** Two templates whose text lengths differ whatever the symbol's length. */
  predicate LengthsApart(t: Template, w: Template) {
    || (Copies(t) == Copies(w) && FixedLength(t) != FixedLength(w))
    || (Copies(t) > Copies(w) && FixedLength(t) > FixedLength(w))
    || (Copies(t) < Copies(w) && FixedLength(t) < FixedLength(w))
  }

  lemma LengthsApartInjective(symbol: string, u: set<Template>)
    requires forall t, w :: t in u && w in u && t != w ==> LengthsApart(t, w)
    ensures TextInjective(symbol, u)
  {
    forall t, w | t in u && w in u && TextOf(t, symbol) == TextOf(w, symbol) ensures t == w {
      TextLength(t, symbol);
      TextLength(w, symbol);
      var q := |QuoteMeta(symbol)|;
      if Copies(t) > Copies(w) {
        ScaleMonotone(Copies(t), Copies(w), q);
      } else if Copies(t) < Copies(w) {
        ScaleMonotone(Copies(w), Copies(t), q);
      }
    }
  }

  lemma ScaleMonotone(a: nat, b: nat, q: nat)
    requires a >= b
    ensures a * q >= b * q
  {
  }

  /** Every template a language's compiler can emit. */
  function LanguageTemplates(lang: Language): (u: set<Template>)
    ensures forall k :: Elems(TemplatesFor(lang, k)) <= u
  {
    match lang
    case Go => {GoFuncDecl, GoMethodDecl, GoTypeDecl, GoConstDecl, GoConstMemberDecl, GoVarDecl}
    case TypeScript => {ScriptFunctionDecl, ScriptTypeDecl(false)}
    case JavaScript => {ScriptFunctionDecl, ScriptTypeDecl(false)}
    case Python => {PyDefDecl, PyClassDecl}
    case Rust => {RustFnDecl, RustTypeDecl, RustTraitDecl}
    case _ => {}
  }

  /** Within one language, distinct templates never render to the same text for a symbol. */
  lemma LanguageTextsInjective(symbol: string, lang: Language)
    ensures TextInjective(symbol, LanguageTemplates(lang))
  {
    LanguageLengthsApart(lang);
    LengthsApartInjective(symbol, LanguageTemplates(lang));
  }

  lemma LanguageLengthsApart(lang: Language)
    ensures forall t, w :: t in LanguageTemplates(lang) && w in LanguageTemplates(lang) && t != w ==> LengthsApart(t, w)
  {
    match lang
    case Go => GoLengthsApart();
    case _ =>
  }

  /** The six Go templates: all have one copy of the symbol and different fixed lengths. */
  lemma GoLengthsApart()
    ensures forall t, w :: t in LanguageTemplates(Go) && w in LanguageTemplates(Go) && t != w ==> LengthsApart(t, w)
  {
    forall t | t in LanguageTemplates(Go) ensures Copies(t) == 1 { }
  }

  /** The patterns of a supported language are the first occurrences of its rules' templates. */
  lemma LanguagePatterns(symbol: string, lang: Language)
    requires ForLanguage(lang).Some?
    ensures DefinitionPatternFor(symbol, lang) ==
      Instantiate(Firsts(PerRule(ForLanguage(lang).value.definitions, k => TemplatesFor(lang, k)), {}), symbol)
  {
    LanguageTextsInjective(symbol, lang);
    DefinitionPatternIsFirsts(symbol, lang, LanguageTemplates(lang));
  }

  // ---------------------------------------------------------------------------
  // The output per language

  lemma {:induction false} DedupAllSeen(ts: seq<Template>, seen: set<Template>)
    requires Elems(ts) <= seen
    ensures Dedup(ts, seen) == []
  {
    if |ts| > 0 {
      assert ts[0] in Elems(ts);
      assert Elems(ts[1..]) <= Elems(ts);
      DedupAllSeen(ts[1..], seen);
    }
  }

  lemma DedupOne(t: Template, seen: set<Template>)
    requires t !in seen
    ensures Dedup([t], seen) == [t]
    ensures Elems([t]) == {t}
  {
    assert [t][1..] == [];
  }

  lemma DedupTwo(t: Template, w: Template, seen: set<Template>)
    requires t != w && t !in seen && w !in seen
    ensures Dedup([t, w], seen) == [t, w]
    ensures Elems([t, w]) == {t, w}
  {
    assert [t, w][1..] == [w];
    DedupOne(w, seen + {t});
  }

  /** `Firsts` from rule `k` on: rule `k`'s new templates, then the rest with them seen. */
  lemma FirstsAt(perRule: seq<seq<Template>>, k: nat, seen: set<Template>)
    requires k < |perRule|
    ensures Firsts(perRule[k..], seen) == Dedup(perRule[k], seen) + Firsts(perRule[k + 1..], seen + Elems(perRule[k]))
  {
    assert perRule[k..][0] == perRule[k];
    assert perRule[k..][1..] == perRule[k + 1..];
  }

  /** Rules `a` to `b` whose templates were all emitted before add nothing. */
  lemma {:induction false} FirstsSkip(perRule: seq<seq<Template>>, a: nat, b: nat, seen: set<Template>)
    requires a <= b <= |perRule|
    requires forall i :: a <= i < b ==> Elems(perRule[i]) <= seen
    ensures Firsts(perRule[a..], seen) == Firsts(perRule[b..], seen)
    decreases b - a
  {
    if a < b {
      FirstsAt(perRule, a, seen);
      DedupAllSeen(perRule[a], seen);
      assert seen + Elems(perRule[a]) == seen;
      FirstsSkip(perRule, a + 1, b, seen);
    }
  }

  /**
   A block of `m` consecutive rules with the same template list `h`, none of
   whose templates was emitted before: the block contributes `h` once.
   */
  lemma FirstsBlock(perRule: seq<seq<Template>>, k: nat, m: nat, h: seq<Template>, seen: set<Template>)
    requires 0 < m && k + m <= |perRule|
    requires forall i :: k <= i < k + m ==> perRule[i] == h
    requires Dedup(h, seen) == h
    ensures Firsts(perRule[k..], seen) == h + Firsts(perRule[k + m..], seen + Elems(h))
  {
    FirstsAt(perRule, k, seen);
    FirstsSkip(perRule, k + 1, k + m, seen + Elems(h));
  }

  /** The Go rules' template lists. */
  function GoPerRule(): seq<seq<Template>> {
    PerRule(GoProfile.definitions, k => TemplatesFor(Go, k))
  }

  /** Function, method, four type rules, two const rules, var: the shape of the Go template lists. */
  predicate GoShape(p: seq<seq<Template>>) {
    && |p| == 9
    && p[0] == [GoFuncDecl]
    && p[1] == [GoMethodDecl]
    && (forall i :: 2 <= i < 6 ==> p[i] == [GoTypeDecl])
    && p[6] == [GoConstDecl, GoConstMemberDecl]
    && p[7] == [GoConstDecl, GoConstMemberDecl]
    && p[8] == [GoVarDecl]
  }

  lemma GoPerRuleShape()
    ensures GoShape(GoPerRule())
  {
  }

  /** The Go type and const blocks: one type pattern, then the two const patterns and the var pattern. */
  lemma GoFirstsFromTypes(p: seq<seq<Template>>)
    requires GoShape(p)
    ensures Firsts(p[2..], {GoFuncDecl, GoMethodDecl}) == [GoTypeDecl, GoConstDecl, GoConstMemberDecl, GoVarDecl]
  {
    var s2: set<Template> := {GoFuncDecl, GoMethodDecl};
    var s3 := s2 + {GoTypeDecl};
    DedupOne(GoTypeDecl, s2);
    FirstsBlock(p, 2, 4, [GoTypeDecl], s2);
    assert s2 + Elems([GoTypeDecl]) == {GoFuncDecl, GoMethodDecl, GoTypeDecl};
    GoFirstsFromConsts(p);
  }

  lemma GoFirstsFromConsts(p: seq<seq<Template>>)
    requires GoShape(p)
    ensures Firsts(p[6..], {GoFuncDecl, GoMethodDecl, GoTypeDecl}) == [GoConstDecl, GoConstMemberDecl, GoVarDecl]
  {
    var s3: set<Template> := {GoFuncDecl, GoMethodDecl, GoTypeDecl};
    var s5 := s3 + {GoConstDecl, GoConstMemberDecl};
    DedupTwo(GoConstDecl, GoConstMemberDecl, s3);
    FirstsBlock(p, 6, 2, [GoConstDecl, GoConstMemberDecl], s3);
    DedupOne(GoVarDecl, s5);
    FirstsBlock(p, 8, 1, [GoVarDecl], s5);
  }

  lemma GoFirsts(p: seq<seq<Template>>)
    requires GoShape(p)
    ensures Firsts(p, {}) == [GoFuncDecl, GoMethodDecl, GoTypeDecl, GoConstDecl, GoConstMemberDecl, GoVarDecl]
  {
    var none: set<Template> := {};
    var s1 := none + {GoFuncDecl};
    DedupOne(GoFuncDecl, none);
    FirstsBlock(p, 0, 1, [GoFuncDecl], none);
    DedupOne(GoMethodDecl, s1);
    FirstsBlock(p, 1, 1, [GoMethodDecl], s1);
    assert s1 + {GoMethodDecl} == {GoFuncDecl, GoMethodDecl};
    GoFirstsFromTypes(p);
    assert p[0..] == p;
  }

  /**
   Go: six patterns for every symbol. The struct, interface, alias and
   named-type rules share the type pattern, and the second const rule adds nothing.
   */
  lemma GoPatterns(symbol: string)
    ensures DefinitionPatternFor(symbol, Go) ==
      Instantiate([GoFuncDecl, GoMethodDecl, GoTypeDecl, GoConstDecl, GoConstMemberDecl, GoVarDecl], symbol)
  {
    LanguagePatterns(symbol, Go);
    GoPerRuleShape();
    GoFirsts(GoPerRule());
  }

  /**
   A script rule list: `functions` function rules, then type rules. Its
   patterns are one function pattern and one type pattern.
   */
  lemma ScriptFirsts(perRule: seq<seq<Template>>, functions: nat, typeDecl: Template)
    requires typeDecl != ScriptFunctionDecl
    requires 0 < functions < |perRule|
    requires forall i :: 0 <= i < functions ==> perRule[i] == [ScriptFunctionDecl]
    requires forall i :: functions <= i < |perRule| ==> perRule[i] == [typeDecl]
    ensures Firsts(perRule, {}) == [ScriptFunctionDecl, typeDecl]
  {
    var none: set<Template> := {};
    var f := none + {ScriptFunctionDecl};
    DedupOne(ScriptFunctionDecl, none);
    FirstsBlock(perRule, 0, functions, [ScriptFunctionDecl], none);
    DedupOne(typeDecl, f);
    FirstsBlock(perRule, functions, |perRule| - functions, [typeDecl], f);
    assert perRule[0..] == perRule;
  }

  /** TypeScript: one function pattern and one type pattern for every symbol. */
  lemma TsPatterns(symbol: string)
    ensures DefinitionPatternFor(symbol, TypeScript) == Instantiate([ScriptFunctionDecl, ScriptTypeDecl(false)], symbol)
  {
    LanguagePatterns(symbol, TypeScript);
    TsFirsts();
  }

  lemma TsFirsts()
    ensures Firsts(PerRule(TsProfile.definitions, k => TemplatesFor(TypeScript, k)), {}) == [ScriptFunctionDecl, ScriptTypeDecl(false)]
  {
    ScriptFirsts(PerRule(TsProfile.definitions, k => TemplatesFor(TypeScript, k)), 3, ScriptTypeDecl(false));
  }

  /** JavaScript: one function pattern and one type pattern for every symbol. */
  lemma JsPatterns(symbol: string)
    ensures DefinitionPatternFor(symbol, JavaScript) == Instantiate([ScriptFunctionDecl, ScriptTypeDecl(false)], symbol)
  {
    LanguagePatterns(symbol, JavaScript);
    JsFirsts();
  }

  lemma JsFirsts()
    ensures Firsts(PerRule(JsProfile.definitions, k => TemplatesFor(JavaScript, k)), {}) == [ScriptFunctionDecl, ScriptTypeDecl(false)]
  {
    ScriptFirsts(PerRule(JsProfile.definitions, k => TemplatesFor(JavaScript, k)), 3, ScriptTypeDecl(false));
  }

  /** Python: a def pattern and a class pattern for every symbol. */
  lemma PythonPatterns(symbol: string)
    ensures DefinitionPatternFor(symbol, Python) == Instantiate([PyDefDecl, PyClassDecl], symbol)
  {
    LanguagePatterns(symbol, Python);
    PythonFirsts();
  }

  lemma PythonFirsts()
    ensures Firsts(PerRule(PythonProfile.definitions, k => TemplatesFor(Python, k)), {}) == [PyDefDecl, PyClassDecl]
  {
    var p := PerRule(PythonProfile.definitions, k => TemplatesFor(Python, k));
    var none: set<Template> := {};
    var s1 := none + {PyDefDecl};
    DedupOne(PyDefDecl, none);
    FirstsBlock(p, 0, 1, [PyDefDecl], none);
    DedupOne(PyClassDecl, s1);
    FirstsBlock(p, 1, 1, [PyClassDecl], s1);
    assert p[0..] == p;
  }

  /** Rust: a fn pattern, one struct-or-enum pattern and a trait pattern for every symbol. */
  lemma RustPatterns(symbol: string)
    ensures DefinitionPatternFor(symbol, Rust) == Instantiate([RustFnDecl, RustTypeDecl, RustTraitDecl], symbol)
  {
    LanguagePatterns(symbol, Rust);
    RustFirsts();
  }

  /** The `impl` rule's template was emitted by the struct rule, so it adds nothing. */
  lemma RustFirsts()
    ensures Firsts(PerRule(RustProfile.definitions, k => TemplatesFor(Rust, k)), {}) == [RustFnDecl, RustTypeDecl, RustTraitDecl]
  {
    var p := PerRule(RustProfile.definitions, k => TemplatesFor(Rust, k));
    RustShapeFirsts(p);
  }

  lemma RustShapeFirsts(p: seq<seq<Template>>)
    requires |p| == 5 && p[0] == [RustFnDecl] && p[1] == p[2] == p[4] == [RustTypeDecl] && p[3] == [RustTraitDecl]
    ensures Firsts(p, {}) == [RustFnDecl, RustTypeDecl, RustTraitDecl]
  {
    var none: set<Template> := {};
    var s1 := none + {RustFnDecl};
    var s2 := s1 + {RustTypeDecl};
    var s3 := s2 + {RustTraitDecl};
    DedupOne(RustFnDecl, none);
    FirstsBlock(p, 0, 1, [RustFnDecl], none);
    DedupOne(RustTypeDecl, s1);
    FirstsBlock(p, 1, 2, [RustTypeDecl], s1);
    DedupOne(RustTraitDecl, s2);
    FirstsBlock(p, 3, 1, [RustTraitDecl], s2);
    FirstsSkip(p, 4, 5, s3);
    assert p[0..] == p;
  }

  /** The templates of a language's compiled patterns, in order. */
  function OutputTemplates(lang: Language): seq<Template> {
    match lang
    case Go => [GoFuncDecl, GoMethodDecl, GoTypeDecl, GoConstDecl, GoConstMemberDecl, GoVarDecl]
    case TypeScript => [ScriptFunctionDecl, ScriptTypeDecl(false)]
    case JavaScript => [ScriptFunctionDecl, ScriptTypeDecl(false)]
    case Python => [PyDefDecl, PyClassDecl]
    case Rust => [RustFnDecl, RustTypeDecl, RustTraitDecl]
    case _ => []
  }

  /**
   Every language's compiler output, for every symbol: Go 6 patterns, TypeScript
   and JavaScript 2, Python 2, Rust 3; nothing for a language without a profile.
   */
  lemma DefinitionPatternOutput(symbol: string, lang: Language)
    ensures DefinitionPatternFor(symbol, lang) == Instantiate(OutputTemplates(lang), symbol)
    ensures |DefinitionPatternFor(symbol, lang)| ==
      match lang
      case Go => 6
      case TypeScript => 2
      case JavaScript => 2
      case Python => 2
      case Rust => 3
      case _ => 0
  {
    match lang
    case Go => GoPatterns(symbol);
    case TypeScript => TsPatterns(symbol);
    case JavaScript => JsPatterns(symbol);
    case Python => PythonPatterns(symbol);
    case Rust => RustPatterns(symbol);
    case _ => assert Instantiate([], symbol) == [];
  }
}
