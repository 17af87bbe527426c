/**
 The TypeScript class rule accepts an `abstract` modifier, but the type
 pattern the compiler emits for TypeScript does not, so a line such as
 `abstract class Shape {` is attributed to `Shape` by the registry and yet
 none of the patterns compiled for `Shape` finds it.

 `AbstractClassMissed` exhibits the line against the compiler as written;
 `CorrectedDefinitionPatternFor` is the compiler with the modifier in the
 TypeScript type pattern, and `CorrectedKindFound` proves that it finds every
 line any profile attributes, Rust `impl` lines aside.
 */
module Findings {
  import opened Text
  import opened Lines
  import opened Registry
  import opened Compiler
  import opened CompilerFacts
  import opened Found
  import opened Agreement
  import opened Concrete

  // ---------------------------------------------------------------------------
  // As written

  /** The keywords `abstract class Shape {` does not begin with. */
  lemma ShapeLineLacks()
    ensures Optional("abstract class Shape {", "export") == "abstract class Shape {"
    ensures Optional("abstract class Shape {", "async") == "abstract class Shape {"
    ensures Keyword("abstract class Shape {", "function") == None
    ensures Keyword("abstract class Shape {", "const") == None
    ensures !StartsWith("abstract class Shape {", "function") && !StartsWith("abstract class Shape {", "const")
  {
    NotKeyword("abstract class Shape {", "export", 0);
    NotKeyword("abstract class Shape {", "async", 1);
    NotKeyword("abstract class Shape {", "function", 0);
    NotKeyword("abstract class Shape {", "const", 0);
  }

  lemma ShapeLineAbstract()
    ensures Keyword("abstract class Shape {", "abstract") == Some("class Shape {")
  {
    KeywordAt("abstract class Shape {", "abstract", "class Shape {");
  }

  lemma ShapeLineClass()
    ensures Keyword("class Shape {", "class") == Some("Shape {")
  {
    KeywordAt("class Shape {", "class", "Shape {");
  }

  lemma ShapeLineName()
    ensures ScriptName(Some("Shape {"), Anything) == Some("Shape")
  {
    NameAt("Shape {", "Shape", " {", IsScriptStart, IsScriptChar);
  }

  /** The class rule captures the name of an abstract class. */
  lemma AbstractClassCaptured()
    ensures Recognise(TsClass, "abstract class Shape {") == Some("Shape")
  {
    TsClassRecognised("abstract class Shape {");
    ShapeLineLacks();
    ShapeLineAbstract();
    ShapeLineClass();
    ShapeLineName();
  }

  /** No rule before the class rule captures anything on an abstract class line. */
  lemma AbstractClassNoFunction()
    ensures Recognise(TsFunction, "abstract class Shape {").None?
    ensures Recognise(ArrowParen, "abstract class Shape {").None?
    ensures Recognise(ArrowBare, "abstract class Shape {").None?
  {
    ShapeLineLacks();
    TsFunctionRecognised("abstract class Shape {");
    ArrowParenRecognised("abstract class Shape {");
    ArrowBareRecognised("abstract class Shape {");
  }

  /** The TypeScript profile attributes `abstract class Shape {` to the type `Shape`. */
  lemma AbstractClassAttributed()
    ensures KindOf(TsProfile, "abstract class Shape {", "Shape") == Some(Type)
  {
    AbstractClassCaptured();
    AbstractClassNoFunction();
  }

  /**
   The compiler as written misses an abstract class: the profile attributes the
   line to `Shape`, and no pattern compiled for `Shape` matches it.
   */
  lemma AbstractClassMissed()
    ensures KindOf(TsProfile, "abstract class Shape {", "Shape") == Some(Type)
    ensures forall c :: c in DefinitionPatternFor("Shape", TypeScript) ==> !Matches(c, "abstract class Shape {")
  {
    AbstractClassAttributed();
    ShapeLineLacks();
    ShapeLineAbstract();
    AbstractLinesUnmatched("Shape", "abstract class Shape {");
  }

  /** More generally, no TypeScript pattern as written matches any line with the modifier, whatever the symbol. */
  lemma AbstractLinesUnmatched(sym: string, line: string)
    requires AbstractModifier(line)
    ensures forall c :: c in DefinitionPatternFor(sym, TypeScript) ==> !Matches(c, line)
  {
    AbstractNoFunctionMatch(sym, line);
    AbstractNoTypeMatch(sym, line);
    TsOutputMembers(sym);
    ScriptFunctionDeclMatcher(sym, line);
    ScriptTypeDeclMatcher(sym, line);
  }

  /** After an optional `export`, a line with the modifier begins `ab`. */
  lemma AbstractHead(line: string)
    requires AbstractModifier(line)
    ensures var s := Optional(line, "export"); |s| > 1 && s[0] == 'a' && s[1] == 'b'
  {
    AbstractKeywordHead(Optional(line, "export"));
  }

  lemma AbstractKeywordHead(s: string)
    requires Keyword(s, "abstract").Some?
    ensures |s| > 1 && s[0] == 'a' && s[1] == 'b'
  {
    assert s[..8] == "abstract";
    assert s[..8][0] == s[0] && s[..8][1] == s[1];
  }

  lemma AbstractNoFunctionMatch(sym: string, line: string)
    requires AbstractModifier(line)
    ensures !ScriptFunctionMatch(sym, line)
  {
    var s := Optional(line, "export");
    AbstractHead(line);
    NotKeyword(s, "async", 1);
    NotKeyword(s, "function", 0);
    NotKeyword(s, "const", 0);
  }

  lemma AbstractNoTypeMatch(sym: string, line: string)
    requires AbstractModifier(line)
    ensures !ScriptTypeMatch(sym, line)
  {
    var s := Optional(line, "export");
    AbstractHead(line);
    NotKeyword(s, "class", 0);
    NotKeyword(s, "interface", 0);
    NotKeyword(s, "type", 0);
    NotKeyword(s, "enum", 0);
  }

  /**
   The exceptions of `KindFound` are exact: on a line `Missed` names, no pattern
   the compiler as written emits for the language matches, whatever the symbol.
   */
  lemma MissedUnmatched(lang: Language, line: string, sym: string)
    requires Missed(lang, line)
    ensures forall c :: c in DefinitionPatternFor(sym, lang) ==> !Matches(c, line)
  {
    if lang == Rust {
      ImplLinesUnmatched(sym, line);
    } else {
      AbstractLinesUnmatched(sym, line);
    }
  }

  /** The TypeScript output consists of the function pattern and the type pattern without the modifier. */
  lemma TsOutputMembers(symbol: string)
    ensures forall c :: c in DefinitionPatternFor(symbol, TypeScript) ==>
      c == Compiled(ScriptFunctionDecl, symbol) || c == Compiled(ScriptTypeDecl(false), symbol)
  {
    TsPatterns(symbol);
  }

  // ---------------------------------------------------------------------------
  // Corrected

  /** The compiler's template table with `(?:abstract\s+)?` in the TypeScript type pattern. */
  function CorrectedTemplatesFor(lang: Language, kind: Kind): seq<Template> {
    if lang == TypeScript && (kind == Type || kind == Interface) then [ScriptTypeDecl(true)]
    else TemplatesFor(lang, kind)
  }

  /** The compiler over the corrected table; the fold is unchanged. */
  function CorrectedDefinitionPatternFor(symbol: string, lang: Language): (r: seq<Compiled>)
    ensures ForLanguage(lang).None? ==> r == []
    ensures Distinct(r)
    ensures forall c :: c in r ==> c.symbol == symbol
    ensures ForLanguage(lang).Some? ==>
      var rules := ForLanguage(lang).value.definitions;
      forall i, t :: 0 <= i < |rules| && t in CorrectedTemplatesFor(lang, rules[i].kind) ==> TextOf(t, symbol) in Texts(r)
    ensures ForLanguage(lang).Some? ==>
      var rules := ForLanguage(lang).value.definitions;
      forall c :: c in r ==> exists i :: 0 <= i < |rules| && c.template in CorrectedTemplatesFor(lang, rules[i].kind)
  {
    match ForLanguage(lang)
    case None => []
    case Some(p) =>
      var perRule := PerRule(p.definitions, k => CorrectedTemplatesFor(lang, k));
      var r := Compile(perRule, symbol, {});
      assert forall c :: c in r ==> exists i :: 0 <= i < |p.definitions| && c.template in CorrectedTemplatesFor(lang, p.definitions[i].kind) by {
        forall c | c in r ensures exists i :: 0 <= i < |p.definitions| && c.template in CorrectedTemplatesFor(lang, p.definitions[i].kind) {
          var i :| 0 <= i < |perRule| && c.template in perRule[i];
          assert perRule[i] == CorrectedTemplatesFor(lang, p.definitions[i].kind);
        }
      }
      r
  }

  /** Outside TypeScript the correction changes nothing. */
  lemma CorrectedAgreesElsewhere(symbol: string, lang: Language)
    requires lang != TypeScript
    ensures CorrectedDefinitionPatternFor(symbol, lang) == DefinitionPatternFor(symbol, lang)
  {
    if ForLanguage(lang).Some? {
      var rules := ForLanguage(lang).value.definitions;
      var a := PerRule(rules, k => CorrectedTemplatesFor(lang, k));
      var b := PerRule(rules, k => TemplatesFor(lang, k));
      assert forall i :: 0 <= i < |rules| ==> a[i] == b[i];
      assert a == b;
    }
  }

  /** The two corrected TypeScript templates render to distinct texts. */
  lemma CorrectedTsInjective(symbol: string)
    ensures TextInjective(symbol, {ScriptFunctionDecl, ScriptTypeDecl(true)})
  {
    assert LengthsApart(ScriptFunctionDecl, ScriptTypeDecl(true));
    assert LengthsApart(ScriptTypeDecl(true), ScriptFunctionDecl);
    LengthsApartInjective(symbol, {ScriptFunctionDecl, ScriptTypeDecl(true)});
  }

  /** The TypeScript rules' template lists under the corrected table. */
  function CorrectedTsPerRule(): seq<seq<Template>> {
    PerRule(TsProfile.definitions, k => CorrectedTemplatesFor(TypeScript, k))
  }

  /** Three function rules, then four type rules, each with the one corrected template. */
  lemma CorrectedTsFirsts()
    ensures Firsts(CorrectedTsPerRule(), {}) == [ScriptFunctionDecl, ScriptTypeDecl(true)]
    ensures forall i :: 0 <= i < |CorrectedTsPerRule()| ==>
      Elems(CorrectedTsPerRule()[i]) <= {ScriptFunctionDecl, ScriptTypeDecl(true)}
  {
    ScriptFirsts(CorrectedTsPerRule(), 3, ScriptTypeDecl(true));
  }

  /** The corrected TypeScript output: the function pattern, then the type pattern with the modifier. */
  lemma CorrectedTsPatterns(symbol: string)
    ensures CorrectedDefinitionPatternFor(symbol, TypeScript) ==
      Instantiate([ScriptFunctionDecl, ScriptTypeDecl(true)], symbol)
  {
    CorrectedTsCompile(symbol);
  }

  lemma CorrectedTsCompile(symbol: string)
    ensures Compile(CorrectedTsPerRule(), symbol, {}) == Instantiate([ScriptFunctionDecl, ScriptTypeDecl(true)], symbol)
  {
    CorrectedTsInjective(symbol);
    CorrectedTsFirsts();
    assert TextSet({}, symbol) == {};
    CompileIsFirsts(CorrectedTsPerRule(), symbol, {}, {ScriptFunctionDecl, ScriptTypeDecl(true)});
  }

  /** The pattern with the modifier matches every line the pattern without it matches. */
  lemma AbstractWidens(sym: string, line: string)
    requires ScriptTypeMatch(sym, line)
    ensures AbstractScriptTypeMatch(sym, line)
  {
    var s := Optional(line, "export");
    TypeKeywordHead(s, sym);
    NotKeyword(s, "abstract", 0);
  }

  /** Text the type pattern's keyword group accepts begins with `c`, `i`, `t` or `e`, never `a`. */
  lemma TypeKeywordHead(s: string, sym: string)
    requires ScriptTypeKeyword(s, sym)
    ensures |s| > 0 && s[0] != 'a'
  {
    if StartsWith(s, "class") {
      assert s[..5][0] == s[0];
    } else if StartsWith(s, "interface") {
      assert s[..9][0] == s[0];
    } else if StartsWith(s, "type") {
      assert s[..4][0] == s[0];
    } else {
      assert StartsWith(s, "enum");
      assert s[..4][0] == s[0];
    }
  }

  /** A class line, with or without the modifier, is matched by the pattern with the modifier. */
  lemma AbstractClassFound(line: string, n: string)
    requires Recognise(TsClass, line) == Some(n)
    ensures AbstractScriptTypeMatch(n, line)
  {
    TsClassRecognised(line);
    KeywordFrom(Optional(Optional(line, "export"), "abstract"), "class", n, Anything);
  }

  /** Whatever the TypeScript profile attributes, a corrected TypeScript pattern finds. */
  lemma CorrectedTsKindFound(line: string, n: string)
    requires KindOf(TsProfile, line, n).Some?
    ensures exists c :: c in CorrectedDefinitionPatternFor(n, TypeScript) && Matches(c, line)
  {
    var i := AttributingRule(TsProfile, line, n);
    TsRuleGrammar(i);
    CorrectedTsRuleFound(TsProfile.definitions[i].grammar, line, n);
  }

  lemma TsRuleGrammar(i: int)
    requires 0 <= i < |TsProfile.definitions|
    ensures TsProfile.definitions[i].grammar in {TsFunction, ArrowParen, ArrowBare, TsClass, TsInterface, TsTypeAlias, TsEnum}
  {
  }

  /** A line a TypeScript rule captures is found by the corrected TypeScript output. */
  lemma CorrectedTsRuleFound(g: Grammar, line: string, n: string)
    requires g in {TsFunction, ArrowParen, ArrowBare, TsClass, TsInterface, TsTypeAlias, TsEnum}
    requires Recognise(g, line) == Some(n)
    ensures exists c :: c in CorrectedDefinitionPatternFor(n, TypeScript) && Matches(c, line)
  {
    CorrectedTsOutputHas(n);
    if g in {TsFunction, ArrowParen, ArrowBare} {
      CorrectedTsFunctionFound(g, line, n);
    } else {
      CorrectedTsTypeFound(g, line, n);
    }
  }

  /** A line a TypeScript function rule captures is matched by the function pattern. */
  lemma CorrectedTsFunctionFound(g: Grammar, line: string, n: string)
    requires g in {TsFunction, ArrowParen, ArrowBare}
    requires Recognise(g, line) == Some(n)
    ensures Matches(Compiled(ScriptFunctionDecl, n), line)
  {
    ScriptRuleFound(g, line, n);
  }

  lemma CorrectedTsOutputHas(n: string)
    ensures Compiled(ScriptFunctionDecl, n) in CorrectedDefinitionPatternFor(n, TypeScript)
    ensures Compiled(ScriptTypeDecl(true), n) in CorrectedDefinitionPatternFor(n, TypeScript)
  {
    CorrectedTsPatterns(n);
    var out := CorrectedDefinitionPatternFor(n, TypeScript);
    assert out[0] == Compiled(ScriptFunctionDecl, n);
    assert out[1] == Compiled(ScriptTypeDecl(true), n);
  }

  /** A line a TypeScript type rule captures is matched by the type pattern with the modifier. */
  lemma CorrectedTsTypeFound(g: Grammar, line: string, n: string)
    requires g in {TsClass, TsInterface, TsTypeAlias, TsEnum}
    requires Recognise(g, line) == Some(n)
    ensures Matches(Compiled(ScriptTypeDecl(true), n), line)
  {
    AbstractScriptTypeDeclMatcher(n, line);
    if g == TsClass {
      AbstractClassFound(line, n);
    } else {
      ScriptRuleFound(g, line, n);
      ScriptTypeDeclMatcher(n, line);
      AbstractWidens(n, line);
    }
  }

  /**
   With the correction, whenever a profile attributes a line to a kind for the
   name `n`, a pattern compiled for `n` finds the line; only Rust `impl` lines
   remain unmatched: their rule has the `type` kind, for which the compiler
   emits the struct-or-enum pattern, and no `impl` line begins that way.
   */
  lemma CorrectedKindFound(lang: Language, line: string, n: string)
    requires ForLanguage(lang).Some?
    requires KindOf(ForLanguage(lang).value, line, n).Some?
    requires !(lang == Rust && Keyword(line, "impl").Some?)
    ensures exists c :: c in CorrectedDefinitionPatternFor(n, lang) && Matches(c, line)
  {
    if lang == TypeScript {
      CorrectedTsKindFound(line, n);
    } else {
      KindFound(lang, line, n);
      CorrectedAgreesElsewhere(n, lang);
    }
  }

  /** The corrected compiler finds `abstract class Shape {` under `Shape`. */
  lemma AbstractClassFixed()
    ensures exists c :: c in CorrectedDefinitionPatternFor("Shape", TypeScript) && Matches(c, "abstract class Shape {")
  {
    AbstractClassAttributed();
    CorrectedTsKindFound("abstract class Shape {", "Shape");
  }
}
