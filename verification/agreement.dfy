/**
 How the search patterns `DefinitionPatternFor` compiles relate to the
 registry's rules: whenever a language's profile attributes a line to a name,
 one of the patterns compiled for that name and language finds the line, with
 the two exceptions `Missed` states.
 */
module Agreement {
  import opened Text
  import opened Lines
  import opened Registry
  import opened Compiler
  import opened CompilerFacts
  import opened Found
  import opened Concrete

  /** The two kinds of line the compiled patterns are known to miss. */
  predicate Missed(lang: Language, line: string) {
    || (lang == Rust && Keyword(line, "impl").Some?)
    || (lang == TypeScript && AbstractModifier(line))
  }

  /** Rule `i` of the language's profile is followed by a template of the language's output. */
  lemma PatternForInOutput(lang: Language, i: int)
    requires ForLanguage(lang).Some? && 0 <= i < |ForLanguage(lang).value.definitions|
    ensures PatternFor(ForLanguage(lang).value.definitions[i].grammar) in OutputTemplates(lang)
  {
    match lang
    case Go => GoRulesInOutput(i);
    case TypeScript => TsRulesInOutput(i);
    case JavaScript => JsRulesInOutput(i);
    case Python => PythonRulesInOutput(i);
    case Rust => RustRulesInOutput(i);
  }

  lemma GoRulesInOutput(i: int)
    requires 0 <= i < |GoProfile.definitions|
    ensures PatternFor(GoProfile.definitions[i].grammar) in OutputTemplates(Go)
  {
  }

  lemma TsRulesInOutput(i: int)
    requires 0 <= i < |TsProfile.definitions|
    ensures PatternFor(TsProfile.definitions[i].grammar) in OutputTemplates(TypeScript)
  {
  }

  lemma JsRulesInOutput(i: int)
    requires 0 <= i < |JsProfile.definitions|
    ensures PatternFor(JsProfile.definitions[i].grammar) in OutputTemplates(JavaScript)
  {
  }

  lemma PythonRulesInOutput(i: int)
    requires 0 <= i < |PythonProfile.definitions|
    ensures PatternFor(PythonProfile.definitions[i].grammar) in OutputTemplates(Python)
  {
  }

  lemma RustRulesInOutput(i: int)
    requires 0 <= i < |RustProfile.definitions|
    ensures PatternFor(RustProfile.definitions[i].grammar) in OutputTemplates(Rust)
  {
  }

  /** The rule a recognised line is attributed by: the `impl` rule only recognises `impl` lines. */
  lemma ImplRecognisedOnImplLines(line: string)
    requires Recognise(RustImpl, line).Some?
    ensures Keyword(line, "impl").Some?
  {
    RustImplRecognised(line);
  }

  /** Only the Rust profile has the `impl` rule, and only the TypeScript profile the class rule with `abstract`. */
  lemma RuleLanguage(lang: Language, i: int)
    requires ForLanguage(lang).Some? && 0 <= i < |ForLanguage(lang).value.definitions|
    ensures ForLanguage(lang).value.definitions[i].grammar == RustImpl ==> lang == Rust
    ensures ForLanguage(lang).value.definitions[i].grammar == TsClass ==> lang == TypeScript
  {
  }

  /** The rule a kind attribution comes from. */
  lemma AttributingRule(p: Profile, line: string, n: string) returns (i: int)
    requires KindOf(p, line, n).Some?
    ensures 0 <= i < |p.definitions| && Recognise(p.definitions[i].grammar, line) == Some(n)
  {
    var capture := g => Recognise(g, line);
    assert FirstKind(p.definitions, capture, n).Some?;
    i :| 0 <= i < |p.definitions| && capture(p.definitions[i].grammar) == Some(n);
  }

  /**
   Whenever a profile attributes a line to a kind for the name `n`, one of the
   patterns compiled for `n` matches that line, except for Rust `impl` lines and
   TypeScript abstract classes.
   */
  lemma KindFound(lang: Language, line: string, n: string)
    requires ForLanguage(lang).Some?
    requires KindOf(ForLanguage(lang).value, line, n).Some?
    requires !Missed(lang, line)
    ensures exists c :: c in DefinitionPatternFor(n, lang) && Matches(c, line)
  {
    var rules := ForLanguage(lang).value.definitions;
    var i := AttributingRule(ForLanguage(lang).value, line, n);
    var g := rules[i].grammar;
    RuleLanguage(lang, i);
    if g == RustImpl {
      ImplRecognisedOnImplLines(line);
      assert false;
    }
    RuleFound(g, line, n);
    PatternForInOutput(lang, i);
    OutputFinds(lang, PatternFor(g), line, n);
  }

  /** A template of a language's output that matches the line gives a compiled pattern that does. */
  lemma OutputFinds(lang: Language, t: Template, line: string, n: string)
    requires t in OutputTemplates(lang)
    requires Matches(Compiled(t, n), line)
    ensures exists c :: c in DefinitionPatternFor(n, lang) && Matches(c, line)
  {
    DefinitionPatternOutput(n, lang);
    var ts := OutputTemplates(lang);
    var j :| 0 <= j < |ts| && ts[j] == t;
    assert DefinitionPatternFor(n, lang)[j] == Compiled(t, n);
  }

  /** The Rust output consists of the function, the struct-or-enum and the trait pattern. */
  lemma RustOutputMembers(symbol: string)
    ensures forall c :: c in DefinitionPatternFor(symbol, Rust) ==>
      c == Compiled(RustFnDecl, symbol) || c == Compiled(RustTypeDecl, symbol) || c == Compiled(RustTraitDecl, symbol)
  {
    RustPatterns(symbol);
    InstantiatedMembers(DefinitionPatternFor(symbol, Rust), [RustFnDecl, RustTypeDecl, RustTraitDecl], symbol);
  }

  /** The members of an instantiated template list are those templates with the symbol. */
  lemma InstantiatedMembers(r: seq<Compiled>, ts: seq<Template>, symbol: string)
    requires r == Instantiate(ts, symbol)
    ensures forall c :: c in r ==> c.symbol == symbol && c.template in ts
  {
    forall c | c in r ensures c.symbol == symbol && c.template in ts {
      var i :| 0 <= i < |r| && r[i] == c;
      assert ts[i] == c.template;
    }
  }

  /**
   No Rust pattern matches an `impl` line, whatever the symbol: the `impl` rule
   leads the search to the struct or enum, not to the block itself.
   */
  lemma ImplLinesUnmatched(sym: string, line: string)
    requires Keyword(line, "impl").Some?
    ensures forall c :: c in DefinitionPatternFor(sym, Rust) ==> !Matches(c, line)
  {
    ImplNoFnMatch(sym, line);
    ImplNoTypeMatch(sym, line);
    RustOutputMembers(sym);
    RustFnDeclMatcher(sym, line);
    RustTypeDeclMatcher(sym, line);
    RustTraitDeclMatcher(sym, line);
  }

  /** An `impl` line begins with `i`. */
  lemma ImplHead(line: string)
    requires Keyword(line, "impl").Some?
    ensures |line| > 0 && line[0] == 'i'
  {
    assert line[..4][0] == line[0];
  }

  lemma ImplNoFnMatch(sym: string, line: string)
    requires Keyword(line, "impl").Some?
    ensures !RustFnMatch(sym, line)
  {
    ImplHead(line);
    NotKeyword(line, "pub", 0);
    NotKeyword(line, "async", 0);
    NotKeyword(line, "fn", 0);
  }

  lemma ImplNoTypeMatch(sym: string, line: string)
    requires Keyword(line, "impl").Some?
    ensures !RustTypeMatch(sym, line) && !RustTraitMatch(sym, line)
  {
    ImplHead(line);
    NotKeyword(line, "pub", 0);
    NotKeyword(line, "struct", 0);
    NotKeyword(line, "enum", 0);
    NotKeyword(line, "trait", 0);
  }
}
