/**
 The compiled search patterns against the line grammars: every name a
 definition rule captures on a line is found on that line by the pattern
 compiled for that name (two documented exceptions aside), and for the
 function templates the pattern for an identifier matches exactly the lines
 on which the rule captures that identifier.
 */
module Found {
  import opened Text
  import opened Lines
  import opened Compiler

  // ---------------------------------------------------------------------------
  // `\s+SYM` against the greedy `\s+`

  /** The split after the greedy run of spaces is a valid split. */
  lemma SpacedFromSpaces(s: string, sym: string, tail: string -> bool)
    requires Spaces1(s).Some?
    requires StartsWith(Spaces1(s).value, sym) && tail(Spaces1(s).value[|sym|..])
    ensures SpacedSymbol(s, sym, tail)
  {
    var i := Run(s, IsSpace);
    assert s[i..] == Spaces1(s).value;
    assert s[i..][|sym|..] == s[i + |sym|..];
    assert AllSpaces(s[..i]);
  }

  /** For a symbol that does not begin with a space, the greedy split is the only one. */
  lemma SpacesFromSpaced(s: string, sym: string, tail: string -> bool)
    requires |sym| > 0 && !IsSpace(sym[0])
    requires SpacedSymbol(s, sym, tail)
    ensures Spaces1(s).Some? && StartsWith(Spaces1(s).value, sym) && tail(Spaces1(s).value[|sym|..])
  {
    var i :| 0 < i <= |s| && AllSpaces(s[..i]) && StartsWith(s[i..], sym) && tail(s[i + |sym|..]);
    assert s[..i][0] == s[0];
    assert s[i..][0] == sym[0];
    assert forall j :: 0 <= j < i ==> s[..i][j] == s[j];
    RunUnique(s, IsSpace, i);
    assert s[i..][|sym|..] == s[i + |sym|..];
  }

  /** `kw\s+SYM` holds when the keyword's greedy spaces are followed by the symbol. */
  lemma KeywordFrom(s: string, kw: string, sym: string, tail: string -> bool)
    requires Keyword(s, kw).Some?
    requires StartsWith(Keyword(s, kw).value, sym) && tail(Keyword(s, kw).value[|sym|..])
    ensures KeywordSymbol(s, kw, sym, tail)
  {
    SpacedFromSpaces(s[|kw|..], sym, tail);
  }

  /** For a symbol that does not begin with a space, `kw\s+SYM` is the keyword's greedy spaces and the symbol. */
  lemma KeywordOnly(s: string, kw: string, sym: string, tail: string -> bool)
    requires |sym| > 0 && !IsSpace(sym[0])
    requires KeywordSymbol(s, kw, sym, tail)
    ensures Keyword(s, kw).Some?
    ensures StartsWith(Keyword(s, kw).value, sym) && tail(Keyword(s, kw).value[|sym|..])
  {
    SpacesFromSpaced(s[|kw|..], sym, tail);
  }

  // ---------------------------------------------------------------------------
  // Dispatch at each grammar and each template

  lemma GoFuncRecognised(line: string)
    ensures Recognise(GoFunc, line) == GoFuncName(line)
  {
    RecogniseAt(GoFunc, GoFuncName, line);
  }

  lemma GoMethodRecognised(line: string)
    ensures Recognise(GoMethod, line) == GoMethodName(line)
  {
    RecogniseAt(GoMethod, GoMethodName, line);
  }

  lemma GoStructRecognised(line: string)
    ensures Recognise(GoStruct, line) == GoStructName(line)
  {
    RecogniseAt(GoStruct, GoStructName, line);
  }

  lemma GoInterfaceRecognised(line: string)
    ensures Recognise(GoInterface, line) == GoInterfaceName(line)
  {
    RecogniseAt(GoInterface, GoInterfaceName, line);
  }

  lemma GoAliasRecognised(line: string)
    ensures Recognise(GoAlias, line) == GoAliasName(line)
  {
    RecogniseAt(GoAlias, GoAliasName, line);
  }

  lemma GoNamedTypeRecognised(line: string)
    ensures Recognise(GoNamedType, line) == GoNamedTypeName(line)
  {
    RecogniseAt(GoNamedType, GoNamedTypeName, line);
  }

  lemma GoConstRecognised(line: string)
    ensures Recognise(GoConst, line) == GoConstName(line)
  {
    RecogniseAt(GoConst, GoConstName, line);
  }

  lemma GoConstInBlockRecognised(line: string)
    ensures Recognise(GoConstInBlock, line) == GoConstMemberName(line)
  {
    RecogniseAt(GoConstInBlock, GoConstMemberName, line);
  }

  lemma GoVarRecognised(line: string)
    ensures Recognise(GoVar, line) == GoVarName(line)
  {
    RecogniseAt(GoVar, GoVarName, line);
  }

  lemma TsFunctionRecognised(line: string)
    ensures Recognise(TsFunction, line) == TsFunctionName(line)
  {
    RecogniseAt(TsFunction, TsFunctionName, line);
  }

  lemma JsFunctionRecognised(line: string)
    ensures Recognise(JsFunction, line) == JsFunctionName(line)
  {
    RecogniseAt(JsFunction, JsFunctionName, line);
  }

  lemma ArrowParenRecognised(line: string)
    ensures Recognise(ArrowParen, line) == ArrowParenName(line)
  {
    RecogniseAt(ArrowParen, ArrowParenName, line);
  }

  lemma ArrowBareRecognised(line: string)
    ensures Recognise(ArrowBare, line) == ArrowBareName(line)
  {
    RecogniseAt(ArrowBare, ArrowBareName, line);
  }

  lemma TsClassRecognised(line: string)
    ensures Recognise(TsClass, line) == TsClassName(line)
  {
    RecogniseAt(TsClass, TsClassName, line);
  }

  lemma JsClassRecognised(line: string)
    ensures Recognise(JsClass, line) == JsClassName(line)
  {
    RecogniseAt(JsClass, JsClassName, line);
  }

  lemma TsInterfaceRecognised(line: string)
    ensures Recognise(TsInterface, line) == TsInterfaceName(line)
  {
    RecogniseAt(TsInterface, TsInterfaceName, line);
  }

  lemma TsTypeAliasRecognised(line: string)
    ensures Recognise(TsTypeAlias, line) == TsTypeAliasName(line)
  {
    RecogniseAt(TsTypeAlias, TsTypeAliasName, line);
  }

  lemma TsEnumRecognised(line: string)
    ensures Recognise(TsEnum, line) == TsEnumName(line)
  {
    RecogniseAt(TsEnum, TsEnumName, line);
  }

  lemma PyDefRecognised(line: string)
    ensures Recognise(PyDef, line) == PyDefName(line)
  {
    RecogniseAt(PyDef, PyDefName, line);
  }

  lemma PyClassRecognised(line: string)
    ensures Recognise(PyClass, line) == PyClassName(line)
  {
    RecogniseAt(PyClass, PyClassName, line);
  }

  lemma RustFnRecognised(line: string)
    ensures Recognise(RustFn, line) == RustFnName(line)
  {
    RecogniseAt(RustFn, RustFnName, line);
  }

  lemma RustStructRecognised(line: string)
    ensures Recognise(RustStruct, line) == RustStructName(line)
  {
    RecogniseAt(RustStruct, RustStructName, line);
  }

  lemma RustEnumRecognised(line: string)
    ensures Recognise(RustEnum, line) == RustEnumName(line)
  {
    RecogniseAt(RustEnum, RustEnumName, line);
  }

  lemma RustTraitRecognised(line: string)
    ensures Recognise(RustTrait, line) == RustTraitName(line)
  {
    RecogniseAt(RustTrait, RustTraitName, line);
  }

  lemma RustImplRecognised(line: string)
    ensures Recognise(RustImpl, line) == RustImplName(line)
  {
    RecogniseAt(RustImpl, RustImplName, line);
  }

  lemma GoFuncDeclMatcher(sym: string, line: string)
    ensures Matches(Compiled(GoFuncDecl, sym), line) == GoFuncMatch(sym, line)
  {
    MatchesAt(GoFuncDecl, GoFuncMatch, sym, line);
  }

  lemma GoMethodDeclMatcher(sym: string, line: string)
    ensures Matches(Compiled(GoMethodDecl, sym), line) == GoMethodMatch(sym, line)
  {
    MatchesAt(GoMethodDecl, GoMethodMatch, sym, line);
  }

  lemma GoTypeDeclMatcher(sym: string, line: string)
    ensures Matches(Compiled(GoTypeDecl, sym), line) == GoTypeMatch(sym, line)
  {
    MatchesAt(GoTypeDecl, GoTypeMatch, sym, line);
  }

  lemma GoConstDeclMatcher(sym: string, line: string)
    ensures Matches(Compiled(GoConstDecl, sym), line) == GoConstMatch(sym, line)
  {
    MatchesAt(GoConstDecl, GoConstMatch, sym, line);
  }

  lemma GoConstMemberDeclMatcher(sym: string, line: string)
    ensures Matches(Compiled(GoConstMemberDecl, sym), line) == GoConstMemberMatch(sym, line)
  {
    MatchesAt(GoConstMemberDecl, GoConstMemberMatch, sym, line);
  }

  lemma GoVarDeclMatcher(sym: string, line: string)
    ensures Matches(Compiled(GoVarDecl, sym), line) == GoVarMatch(sym, line)
  {
    MatchesAt(GoVarDecl, GoVarMatch, sym, line);
  }

  lemma ScriptFunctionDeclMatcher(sym: string, line: string)
    ensures Matches(Compiled(ScriptFunctionDecl, sym), line) == ScriptFunctionMatch(sym, line)
  {
    MatchesAt(ScriptFunctionDecl, ScriptFunctionMatch, sym, line);
  }

  lemma ScriptTypeDeclMatcher(sym: string, line: string)
    ensures Matches(Compiled(ScriptTypeDecl(false), sym), line) == ScriptTypeMatch(sym, line)
  {
    MatchesAt(ScriptTypeDecl(false), ScriptTypeMatch, sym, line);
  }

  lemma PyDefDeclMatcher(sym: string, line: string)
    ensures Matches(Compiled(PyDefDecl, sym), line) == PyDefMatch(sym, line)
  {
    MatchesAt(PyDefDecl, PyDefMatch, sym, line);
  }

  lemma PyClassDeclMatcher(sym: string, line: string)
    ensures Matches(Compiled(PyClassDecl, sym), line) == PyClassMatch(sym, line)
  {
    MatchesAt(PyClassDecl, PyClassMatch, sym, line);
  }

  lemma RustFnDeclMatcher(sym: string, line: string)
    ensures Matches(Compiled(RustFnDecl, sym), line) == RustFnMatch(sym, line)
  {
    MatchesAt(RustFnDecl, RustFnMatch, sym, line);
  }

  lemma RustTypeDeclMatcher(sym: string, line: string)
    ensures Matches(Compiled(RustTypeDecl, sym), line) == RustTypeMatch(sym, line)
  {
    MatchesAt(RustTypeDecl, RustTypeMatch, sym, line);
  }

  lemma RustTraitDeclMatcher(sym: string, line: string)
    ensures Matches(Compiled(RustTraitDecl, sym), line) == RustTraitMatch(sym, line)
  {
    MatchesAt(RustTraitDecl, RustTraitMatch, sym, line);
  }

  lemma AbstractScriptTypeDeclMatcher(sym: string, line: string)
    ensures Matches(Compiled(ScriptTypeDecl(true), sym), line) == AbstractScriptTypeMatch(sym, line)
  {
    MatchesAt(ScriptTypeDecl(true), AbstractScriptTypeMatch, sym, line);
  }

  // ---------------------------------------------------------------------------
  // Every recognised definition is found

  /**
   The template whose compiled pattern finds the definitions a rule recognises.
   For the Rust `impl` rule it is the struct-or-enum template its kind selects,
   which does not match `impl` lines (see `Agreement.ImplLinesUnmatched`).
   */
  function PatternFor(g: Grammar): Template {
    match g
    case GoFunc => GoFuncDecl
    case GoMethod => GoMethodDecl
    case GoStruct => GoTypeDecl
    case GoInterface => GoTypeDecl
    case GoAlias => GoTypeDecl
    case GoNamedType => GoTypeDecl
    case GoConst => GoConstDecl
    case GoConstInBlock => GoConstMemberDecl
    case GoVar => GoVarDecl
    case TsFunction => ScriptFunctionDecl
    case JsFunction => ScriptFunctionDecl
    case ArrowParen => ScriptFunctionDecl
    case ArrowBare => ScriptFunctionDecl
    case TsClass => ScriptTypeDecl(false)
    case JsClass => ScriptTypeDecl(false)
    case TsInterface => ScriptTypeDecl(false)
    case TsTypeAlias => ScriptTypeDecl(false)
    case TsEnum => ScriptTypeDecl(false)
    case PyDef => PyDefDecl
    case PyClass => PyClassDecl
    case RustFn => RustFnDecl
    case RustStruct => RustTypeDecl
    case RustEnum => RustTypeDecl
    case RustTrait => RustTraitDecl
    case RustImpl => RustTypeDecl
  }

  /** The line starts, after an optional `export`, with the `abstract` modifier. */
  predicate AbstractModifier(line: string) {
    Keyword(Optional(line, "export"), "abstract").Some?
  }

  /**
   A name a rule recognises on a line is found on that line by the pattern
   compiled for the name, except for `impl` lines and abstract classes.
   */
  lemma RuleFound(g: Grammar, line: string, n: string)
    requires Recognise(g, line) == Some(n)
    requires g != RustImpl
    requires g == TsClass ==> !AbstractModifier(line)
    ensures Matches(Compiled(PatternFor(g), n), line)
  {
    if g in {GoFunc, GoMethod, GoStruct, GoInterface, GoAlias, GoNamedType, GoConst, GoConstInBlock, GoVar} {
      GoRuleFound(g, line, n);
    } else if g in {TsFunction, JsFunction, ArrowParen, ArrowBare, TsClass, JsClass, TsInterface, TsTypeAlias, TsEnum} {
      ScriptRuleFound(g, line, n);
    } else {
      WordRuleFound(g, line, n);
    }
  }

  lemma GoRuleFound(g: Grammar, line: string, n: string)
    requires g in {GoFunc, GoMethod, GoStruct, GoInterface, GoAlias, GoNamedType, GoConst, GoConstInBlock, GoVar}
    requires Recognise(g, line) == Some(n)
    ensures Matches(Compiled(PatternFor(g), n), line)
  {
    match g
    case GoFunc => GoFuncRule(line, n);
    case GoMethod => GoMethodRule(line, n);
    case GoStruct => GoStructRule(line, n);
    case GoInterface => GoInterfaceRule(line, n);
    case GoAlias => GoAliasRule(line, n);
    case GoNamedType => GoNamedTypeRule(line, n);
    case GoConst => GoConstRule(line, n);
    case GoConstInBlock => GoConstInBlockRule(line, n);
    case GoVar => GoVarRule(line, n);
  }

  lemma ScriptRuleFound(g: Grammar, line: string, n: string)
    requires g in {TsFunction, JsFunction, ArrowParen, ArrowBare, TsClass, JsClass, TsInterface, TsTypeAlias, TsEnum}
    requires Recognise(g, line) == Some(n)
    requires g == TsClass ==> !AbstractModifier(line)
    ensures Matches(Compiled(PatternFor(g), n), line)
  {
    match g
    case TsFunction => TsFunctionRule(line, n);
    case JsFunction => JsFunctionRule(line, n);
    case ArrowParen => ArrowParenRule(line, n);
    case ArrowBare => ArrowBareRule(line, n);
    case TsClass => TsClassRule(line, n);
    case JsClass => JsClassRule(line, n);
    case TsInterface => TsInterfaceRule(line, n);
    case TsTypeAlias => TsTypeAliasRule(line, n);
    case TsEnum => TsEnumRule(line, n);
  }

  lemma WordRuleFound(g: Grammar, line: string, n: string)
    requires g in {PyDef, PyClass, RustFn, RustStruct, RustEnum, RustTrait}
    requires Recognise(g, line) == Some(n)
    ensures Matches(Compiled(PatternFor(g), n), line)
  {
    match g
    case PyDef => PyDefRule(line, n);
    case PyClass => PyClassRule(line, n);
    case RustFn => RustFnRule(line, n);
    case RustStruct => RustStructRule(line, n);
    case RustEnum => RustEnumRule(line, n);
    case RustTrait => RustTraitRule(line, n);
  }

  lemma GoFuncRule(line: string, n: string)
    requires Recognise(GoFunc, line) == Some(n)
    ensures Matches(Compiled(GoFuncDecl, n), line)
  {
    GoFuncRecognised(line);
    GoFuncFound(line, n);
    GoFuncDeclMatcher(n, line);
  }

  lemma GoMethodRule(line: string, n: string)
    requires Recognise(GoMethod, line) == Some(n)
    ensures Matches(Compiled(GoMethodDecl, n), line)
  {
    GoMethodRecognised(line);
    GoMethodFound(line, n);
    GoMethodDeclMatcher(n, line);
  }

  lemma GoStructRule(line: string, n: string)
    requires Recognise(GoStruct, line) == Some(n)
    ensures Matches(Compiled(GoTypeDecl, n), line)
  {
    GoStructRecognised(line);
    GoStructFound(line, n);
    GoTypeDeclMatcher(n, line);
  }

  lemma GoInterfaceRule(line: string, n: string)
    requires Recognise(GoInterface, line) == Some(n)
    ensures Matches(Compiled(GoTypeDecl, n), line)
  {
    GoInterfaceRecognised(line);
    GoInterfaceFound(line, n);
    GoTypeDeclMatcher(n, line);
  }

  lemma GoAliasRule(line: string, n: string)
    requires Recognise(GoAlias, line) == Some(n)
    ensures Matches(Compiled(GoTypeDecl, n), line)
  {
    GoAliasRecognised(line);
    GoAliasFound(line, n);
    GoTypeDeclMatcher(n, line);
  }

  lemma GoNamedTypeRule(line: string, n: string)
    requires Recognise(GoNamedType, line) == Some(n)
    ensures Matches(Compiled(GoTypeDecl, n), line)
  {
    GoNamedTypeRecognised(line);
    GoNamedTypeFound(line, n);
    GoTypeDeclMatcher(n, line);
  }

  lemma GoConstRule(line: string, n: string)
    requires Recognise(GoConst, line) == Some(n)
    ensures Matches(Compiled(GoConstDecl, n), line)
  {
    GoConstRecognised(line);
    GoConstFound(line, n);
    GoConstDeclMatcher(n, line);
  }

  lemma GoConstInBlockRule(line: string, n: string)
    requires Recognise(GoConstInBlock, line) == Some(n)
    ensures Matches(Compiled(GoConstMemberDecl, n), line)
  {
    GoConstInBlockRecognised(line);
    GoConstMemberFound(line, n);
    GoConstMemberDeclMatcher(n, line);
  }

  lemma GoVarRule(line: string, n: string)
    requires Recognise(GoVar, line) == Some(n)
    ensures Matches(Compiled(GoVarDecl, n), line)
  {
    GoVarRecognised(line);
    GoVarFound(line, n);
    GoVarDeclMatcher(n, line);
  }

  lemma TsFunctionRule(line: string, n: string)
    requires Recognise(TsFunction, line) == Some(n)
    ensures Matches(Compiled(ScriptFunctionDecl, n), line)
  {
    TsFunctionRecognised(line);
    TsFunctionFound(line, n);
    ScriptFunctionDeclMatcher(n, line);
  }

  lemma JsFunctionRule(line: string, n: string)
    requires Recognise(JsFunction, line) == Some(n)
    ensures Matches(Compiled(ScriptFunctionDecl, n), line)
  {
    JsFunctionRecognised(line);
    JsFunctionFound(line, n);
    ScriptFunctionDeclMatcher(n, line);
  }

  lemma ArrowParenRule(line: string, n: string)
    requires Recognise(ArrowParen, line) == Some(n)
    ensures Matches(Compiled(ScriptFunctionDecl, n), line)
  {
    ArrowParenRecognised(line);
    ArrowParenFound(line, n);
    ScriptFunctionDeclMatcher(n, line);
  }

  lemma ArrowBareRule(line: string, n: string)
    requires Recognise(ArrowBare, line) == Some(n)
    ensures Matches(Compiled(ScriptFunctionDecl, n), line)
  {
    ArrowBareRecognised(line);
    ArrowBareFound(line, n);
    ScriptFunctionDeclMatcher(n, line);
  }

  lemma TsClassRule(line: string, n: string)
    requires Recognise(TsClass, line) == Some(n)
    requires !AbstractModifier(line)
    ensures Matches(Compiled(ScriptTypeDecl(false), n), line)
  {
    TsClassRecognised(line);
    TsClassFound(line, n);
    ScriptTypeDeclMatcher(n, line);
  }

  lemma JsClassRule(line: string, n: string)
    requires Recognise(JsClass, line) == Some(n)
    ensures Matches(Compiled(ScriptTypeDecl(false), n), line)
  {
    JsClassRecognised(line);
    JsClassFound(line, n);
    ScriptTypeDeclMatcher(n, line);
  }

  lemma TsInterfaceRule(line: string, n: string)
    requires Recognise(TsInterface, line) == Some(n)
    ensures Matches(Compiled(ScriptTypeDecl(false), n), line)
  {
    TsInterfaceRecognised(line);
    TsInterfaceFound(line, n);
    ScriptTypeDeclMatcher(n, line);
  }

  lemma TsTypeAliasRule(line: string, n: string)
    requires Recognise(TsTypeAlias, line) == Some(n)
    ensures Matches(Compiled(ScriptTypeDecl(false), n), line)
  {
    TsTypeAliasRecognised(line);
    TsTypeAliasFound(line, n);
    ScriptTypeDeclMatcher(n, line);
  }

  lemma TsEnumRule(line: string, n: string)
    requires Recognise(TsEnum, line) == Some(n)
    ensures Matches(Compiled(ScriptTypeDecl(false), n), line)
  {
    TsEnumRecognised(line);
    TsEnumFound(line, n);
    ScriptTypeDeclMatcher(n, line);
  }

  lemma PyDefRule(line: string, n: string)
    requires Recognise(PyDef, line) == Some(n)
    ensures Matches(Compiled(PyDefDecl, n), line)
  {
    PyDefRecognised(line);
    PyDefFound(line, n);
    PyDefDeclMatcher(n, line);
  }

  lemma PyClassRule(line: string, n: string)
    requires Recognise(PyClass, line) == Some(n)
    ensures Matches(Compiled(PyClassDecl, n), line)
  {
    PyClassRecognised(line);
    PyClassFound(line, n);
    PyClassDeclMatcher(n, line);
  }

  lemma RustFnRule(line: string, n: string)
    requires Recognise(RustFn, line) == Some(n)
    ensures Matches(Compiled(RustFnDecl, n), line)
  {
    RustFnRecognised(line);
    RustFnFound(line, n);
    RustFnDeclMatcher(n, line);
  }

  lemma RustStructRule(line: string, n: string)
    requires Recognise(RustStruct, line) == Some(n)
    ensures Matches(Compiled(RustTypeDecl, n), line)
  {
    RustStructRecognised(line);
    RustStructFound(line, n);
    RustTypeDeclMatcher(n, line);
  }

  lemma RustEnumRule(line: string, n: string)
    requires Recognise(RustEnum, line) == Some(n)
    ensures Matches(Compiled(RustTypeDecl, n), line)
  {
    RustEnumRecognised(line);
    RustEnumFound(line, n);
    RustTypeDeclMatcher(n, line);
  }

  lemma RustTraitRule(line: string, n: string)
    requires Recognise(RustTrait, line) == Some(n)
    ensures Matches(Compiled(RustTraitDecl, n), line)
  {
    RustTraitRecognised(line);
    RustTraitFound(line, n);
    RustTraitDeclMatcher(n, line);
  }

  lemma GoFuncFound(line: string, n: string)
    requires GoFuncName(line) == Some(n)
    ensures GoFuncMatch(n, line)
  {
    KeywordFrom(line, "func", n, OpensParen);
  }

  lemma GoMethodFound(line: string, n: string)
    requires GoMethodName(line) == Some(n)
    ensures GoMethodMatch(n, line)
  {
    SpacedFromSpaces(Receiver(Keyword(line, "func").value).value, n, OpensParen);
  }

  lemma GoStructFound(line: string, n: string)
    requires GoStructName(line) == Some(n)
    ensures GoTypeMatch(n, line)
  {
    KeywordFrom(line, "type", n, StartsWithSpace);
  }

  lemma GoInterfaceFound(line: string, n: string)
    requires GoInterfaceName(line) == Some(n)
    ensures GoTypeMatch(n, line)
  {
    KeywordFrom(line, "type", n, StartsWithSpace);
  }

  lemma GoAliasFound(line: string, n: string)
    requires GoAliasName(line) == Some(n)
    ensures GoTypeMatch(n, line)
  {
    KeywordFrom(line, "type", n, StartsWithSpace);
  }

  lemma GoNamedTypeFound(line: string, n: string)
    requires GoNamedTypeName(line) == Some(n)
    ensures GoTypeMatch(n, line)
  {
    KeywordFrom(line, "type", n, StartsWithSpace);
  }

  lemma GoConstFound(line: string, n: string)
    requires GoConstName(line) == Some(n)
    ensures GoConstMatch(n, line)
  {
    var s := Keyword(line, "const").value;
    assert CaptureFits(s, |n|, IsConstStart, IsWordChar, IsAssignOrLetter);
    KeywordFrom(line, "const", n, AssignOrLetterNext);
  }

  lemma GoConstMemberFound(line: string, n: string)
    requires GoConstMemberName(line) == Some(n)
    ensures GoConstMemberMatch(n, line)
  {
    assert |line| > 0 && line[0] == '\t';
    BacktrackFits(line[1..], n);
  }

  /** The constant capture is a prefix followed by an assignment or a type name. */
  lemma BacktrackFits(s: string, n: string)
    requires BacktrackName(s, IsConstStart, IsWordChar, IsAssignOrLetter) == Some(n)
    ensures StartsWith(s, n) && AssignOrLetterNext(s[|n|..])
  {
  }

  lemma GoVarFound(line: string, n: string)
    requires GoVarName(line) == Some(n)
    ensures GoVarMatch(n, line)
  {
    KeywordFrom(line, "var", n, Anything);
  }

  lemma TsFunctionFound(line: string, n: string)
    requires TsFunctionName(line) == Some(n)
    ensures ScriptFunctionMatch(n, line)
  {
    FunctionKeywordFound(Optional(Optional(line, "export"), "async"), n, OpensParenOrAngle);
  }

  /** `function\s+NAME` captured after the optional modifiers gives `function\s+SYM` for that name. */
  lemma FunctionKeywordFound(s: string, n: string, tail: string -> bool)
    requires ScriptName(Keyword(s, "function"), tail) == Some(n)
    ensures KeywordSymbol(s, "function", n, Anything)
  {
    KeywordFrom(s, "function", n, Anything);
  }

  lemma JsFunctionFound(line: string, n: string)
    requires JsFunctionName(line) == Some(n)
    ensures ScriptFunctionMatch(n, line)
  {
    FunctionKeywordFound(Optional(Optional(line, "export"), "async"), n, OpensParen);
  }

  lemma ArrowParenFound(line: string, n: string)
    requires ArrowParenName(line) == Some(n)
    ensures ScriptFunctionMatch(n, line)
  {
    KeywordFrom(Optional(line, "export"), "const", n, ArrowParenTail);
  }

  lemma ArrowBareFound(line: string, n: string)
    requires ArrowBareName(line) == Some(n)
    ensures ScriptFunctionMatch(n, line)
  {
    KeywordFrom(Optional(line, "export"), "const", n, ArrowBareTail);
  }

  lemma JsClassFound(line: string, n: string)
    requires JsClassName(line) == Some(n)
    ensures ScriptTypeMatch(n, line)
  {
    KeywordFrom(Optional(line, "export"), "class", n, Anything);
  }

  lemma TsInterfaceFound(line: string, n: string)
    requires TsInterfaceName(line) == Some(n)
    ensures ScriptTypeMatch(n, line)
  {
    KeywordFrom(Optional(line, "export"), "interface", n, Anything);
  }

  lemma TsTypeAliasFound(line: string, n: string)
    requires TsTypeAliasName(line) == Some(n)
    ensures ScriptTypeMatch(n, line)
  {
    KeywordFrom(Optional(line, "export"), "type", n, Anything);
  }

  lemma TsEnumFound(line: string, n: string)
    requires TsEnumName(line) == Some(n)
    ensures ScriptTypeMatch(n, line)
  {
    KeywordFrom(Optional(line, "export"), "enum", n, Anything);
  }

  lemma PyDefFound(line: string, n: string)
    requires PyDefName(line) == Some(n)
    ensures PyDefMatch(n, line)
  {
    KeywordFrom(Optional(line, "async"), "def", n, OpensParen);
  }

  lemma PyClassFound(line: string, n: string)
    requires PyClassName(line) == Some(n)
    ensures PyClassMatch(n, line)
  {
    KeywordFrom(line, "class", n, Anything);
  }

  lemma RustFnFound(line: string, n: string)
    requires RustFnName(line) == Some(n)
    ensures RustFnMatch(n, line)
  {
    KeywordFrom(Optional(Optional(line, "pub"), "async"), "fn", n, OpensParenOrAngle);
  }

  lemma RustStructFound(line: string, n: string)
    requires RustStructName(line) == Some(n)
    ensures RustTypeMatch(n, line)
  {
    KeywordFrom(Optional(line, "pub"), "struct", n, Anything);
  }

  lemma RustEnumFound(line: string, n: string)
    requires RustEnumName(line) == Some(n)
    ensures RustTypeMatch(n, line)
  {
    KeywordFrom(Optional(line, "pub"), "enum", n, Anything);
  }

  lemma RustTraitFound(line: string, n: string)
    requires RustTraitName(line) == Some(n)
    ensures RustTraitMatch(n, line)
  {
    KeywordFrom(Optional(line, "pub"), "trait", n, Anything);
  }

  /** A class line without the `abstract` modifier: the optional modifier group consumes nothing. */
  lemma TsClassFound(line: string, n: string)
    requires TsClassName(line) == Some(n)
    requires !AbstractModifier(line)
    ensures ScriptTypeMatch(n, line)
  {
    KeywordFrom(Optional(line, "export"), "class", n, Anything);
  }

  // ---------------------------------------------------------------------------
  // Function patterns match the symbol literally

  /** The greedy identifier at the front of `s` is `sym` when `sym` is followed by a non-identifier character. */
  lemma NameIs(s: string, sym: string, start: char -> bool, cont: char -> bool)
    requires IsName(sym, start, cont) && StartsWith(s, sym)
    requires |s| == |sym| || !cont(s[|sym|])
    ensures Name(s, start, cont) == Some(sym)
  {
    forall i | 0 <= i < |sym| - 1 ensures cont(s[1..][i]) {
      assert s[1..][i] == sym[i + 1];
    }
    if |sym| < |s| {
      assert s[1..][|sym| - 1] == s[|sym|];
    }
    RunUnique(s[1..], cont, |sym| - 1);
  }

  /** What `\s*\(` or `\s*[<(]` accepts begins with a space or a bracket, never an identifier character. */
  lemma BracketBoundary(t: string)
    requires OpensParenOrAngle(t) || OpensParen(t)
    ensures |t| > 0 && !IsWordChar(t[0])
  {
    if |t| == 0 || !IsSpace(t[0]) {
      RunUnique(t, IsSpace, 0);
      assert SkipSpaces(t) == t;
    }
  }

  /** A word capture after `v` holds exactly `sym` when `sym` ends at a bracket the tail accepts. */
  lemma WordNameIs(v: string, sym: string, tail: string -> bool)
    requires IsWordName(sym) && StartsWith(v, sym) && tail(v[|sym|..])
    requires OpensParenOrAngle(v[|sym|..]) || OpensParen(v[|sym|..])
    ensures WordName(Some(v), tail) == Some(sym)
  {
    BracketBoundary(v[|sym|..]);
    NameIs(v, sym, IsWordStart, IsWordChar);
  }

  /** After `kw\s+`, an identifier the pattern finds before a bracket is the word the rule captures. */
  lemma KeywordWordName(s: string, kw: string, sym: string, tail: string -> bool)
    requires tail == OpensParen || tail == OpensParenOrAngle
    requires IsWordName(sym) && KeywordSymbol(s, kw, sym, tail)
    ensures WordName(Keyword(s, kw), tail) == Some(sym)
  {
    SpacedWordName(s[|kw|..], sym, tail);
  }

  /** After `\s+`, an identifier the pattern finds before a bracket is the word the rule captures. */
  lemma SpacedWordName(t: string, sym: string, tail: string -> bool)
    requires tail == OpensParen || tail == OpensParenOrAngle
    requires IsWordName(sym) && SpacedSymbol(t, sym, tail)
    ensures WordName(Spaces1(t), tail) == Some(sym)
  {
    SpacesFromSpaced(t, sym, tail);
    WordNameIs(Spaces1(t).value, sym, tail);
  }

  /** A Go function pattern for an identifier matches a line exactly when the function rule recognises it there. */
  lemma GoFuncExact(line: string, sym: string)
    requires IsWordName(sym)
    ensures Matches(Compiled(GoFuncDecl, sym), line) <==> Recognise(GoFunc, line) == Some(sym)
  {
    GoFuncRecognised(line);
    GoFuncDeclMatcher(sym, line);
    if GoFuncMatch(sym, line) {
      GoFuncMatchNamed(line, sym);
    }
    if GoFuncName(line) == Some(sym) {
      GoFuncFound(line, sym);
    }
  }

  lemma GoFuncMatchNamed(line: string, sym: string)
    requires IsWordName(sym) && GoFuncMatch(sym, line)
    ensures GoFuncName(line) == Some(sym)
  {
    KeywordWordName(line, "func", sym, OpensParen);
  }

  /** The same for Go methods: the name after the receiver is the symbol. */
  lemma GoMethodExact(line: string, sym: string)
    requires IsWordName(sym)
    ensures Matches(Compiled(GoMethodDecl, sym), line) <==> Recognise(GoMethod, line) == Some(sym)
  {
    GoMethodRecognised(line);
    GoMethodDeclMatcher(sym, line);
    if GoMethodMatch(sym, line) {
      GoMethodMatchNamed(line, sym);
    }
    if GoMethodName(line) == Some(sym) {
      GoMethodFound(line, sym);
    }
  }

  lemma GoMethodMatchNamed(line: string, sym: string)
    requires IsWordName(sym) && GoMethodMatch(sym, line)
    ensures GoMethodName(line) == Some(sym)
  {
    var t := Receiver(Keyword(line, "func").value).value;
    SpacedWordName(t, sym, OpensParen);
  }

  /** The same for Python functions. */
  lemma PyDefExact(line: string, sym: string)
    requires IsWordName(sym)
    ensures Matches(Compiled(PyDefDecl, sym), line) <==> Recognise(PyDef, line) == Some(sym)
  {
    PyDefRecognised(line);
    PyDefDeclMatcher(sym, line);
    if PyDefMatch(sym, line) {
      PyDefMatchNamed(line, sym);
    }
    if PyDefName(line) == Some(sym) {
      PyDefFound(line, sym);
    }
  }

  lemma PyDefMatchNamed(line: string, sym: string)
    requires IsWordName(sym) && PyDefMatch(sym, line)
    ensures PyDefName(line) == Some(sym)
  {
    KeywordWordName(Optional(line, "async"), "def", sym, OpensParen);
  }

  /** The same for Rust functions. */
  lemma RustFnExact(line: string, sym: string)
    requires IsWordName(sym)
    ensures Matches(Compiled(RustFnDecl, sym), line) <==> Recognise(RustFn, line) == Some(sym)
  {
    RustFnRecognised(line);
    RustFnDeclMatcher(sym, line);
    if RustFnMatch(sym, line) {
      RustFnMatchNamed(line, sym);
    }
    if RustFnName(line) == Some(sym) {
      RustFnFound(line, sym);
    }
  }

  lemma RustFnMatchNamed(line: string, sym: string)
    requires IsWordName(sym) && RustFnMatch(sym, line)
    ensures RustFnName(line) == Some(sym)
  {
    KeywordWordName(Optional(Optional(line, "pub"), "async"), "fn", sym, OpensParenOrAngle);
  }
}
