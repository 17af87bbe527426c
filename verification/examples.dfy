/**
 The registry and the compiler on particular lines and file names: the
 declarations a pattern finds and the near misses it does not, the Go
 constant-block forms, and the test-file names of each language.
 */
module Examples {
  import opened Text
  import opened Lines
  import opened Registry
  import opened Compiler
  import opened CompilerFacts
  import opened Found
  import opened Concrete
  import opened RuleFacts

  // ---------------------------------------------------------------------------
  // Go functions: the symbol is matched literally and must end where the name does

  lemma GetUserKeyword()
    ensures Keyword("func GetUser(id int) *User {", "func") == Some("GetUser(id int) *User {")
  {
    assert "func GetUser(id int) *User {" == "func" + " " + "GetUser(id int) *User {";
    KeywordAt("func GetUser(id int) *User {", "func", "GetUser(id int) *User {");
  }

  lemma GetUserWord()
    ensures WordName(Some("GetUser(id int) *User {"), OpensParen) == Some("GetUser")
  {
    GetUserIsWord();
    assert "GetUser(id int) *User {" == "GetUser" + "(id int) *User {";
    WordBeforeParen("GetUser(id int) *User {", "GetUser", "(id int) *User {");
  }

  lemma GetUserName()
    ensures GoFuncName("func GetUser(id int) *User {") == Some("GetUser")
  {
    GetUserKeyword();
    GetUserWord();
  }

  lemma GetUserByIdKeyword()
    ensures Keyword("func GetUserByID(id int) *User {", "func") == Some("GetUserByID(id int) *User {")
  {
    assert "func GetUserByID(id int) *User {" == "func" + " " + "GetUserByID(id int) *User {";
    KeywordAt("func GetUserByID(id int) *User {", "func", "GetUserByID(id int) *User {");
  }

  lemma GetUserByIdWord()
    ensures WordName(Some("GetUserByID(id int) *User {"), OpensParen) == Some("GetUserByID")
  {
    GetUserByIdIsWord();
    assert "GetUserByID(id int) *User {" == "GetUserByID" + "(id int) *User {";
    WordBeforeParen("GetUserByID(id int) *User {", "GetUserByID", "(id int) *User {");
  }

  lemma GetUserByIdName()
    ensures GoFuncName("func GetUserByID(id int) *User {") == Some("GetUserByID")
  {
    GetUserByIdKeyword();
    GetUserByIdWord();
  }

  lemma GetUserIsWord()
    ensures IsWordName("GetUser")
  {
  }

  lemma GetUserByIdIsWord()
    ensures IsWordName("GetUserByID")
  {
  }

  /** On a line the function rule captures `n` from, the function pattern for `sym` matches exactly when `sym` is `n`. */
  lemma FuncLineMatch(line: string, sym: string, n: string)
    requires IsWordName(sym) && GoFuncName(line) == Some(n)
    ensures Matches(Compiled(GoFuncDecl, sym), line) <==> n == sym
  {
    GoFuncRecognised(line);
    GoFuncExact(line, sym);
  }

  /** Every Go output holds the function pattern, first. */
  lemma GoFuncPatternIn(symbol: string)
    ensures Compiled(GoFuncDecl, symbol) in DefinitionPatternFor(symbol, Go)
  {
    GoPatterns(symbol);
    assert DefinitionPatternFor(symbol, Go)[0] == Compiled(GoFuncDecl, symbol);
  }

  /** The Go function pattern compiled for `GetUser` finds its declaration... */
  lemma GetUserFound()
    ensures Compiled(GoFuncDecl, "GetUser") in DefinitionPatternFor("GetUser", Go)
    ensures Matches(Compiled(GoFuncDecl, "GetUser"), "func GetUser(id int) *User {")
  {
    GoFuncPatternIn("GetUser");
    GetUserName();
    GetUserIsWord();
    FuncLineMatch("func GetUser(id int) *User {", "GetUser", "GetUser");
  }

  /**
   ... and no pattern compiled for `GetUser` finds the declaration of
   `GetUserByID`, whose name merely starts with it.
   */
  lemma GetUserByIdMissed()
    ensures !Matches(Compiled(GoFuncDecl, "GetUser"), "func GetUserByID(id int) *User {")
    ensures forall c :: c in DefinitionPatternFor("GetUser", Go) ==> !Matches(c, "func GetUserByID(id int) *User {")
  {
    var line := "func GetUserByID(id int) *User {";
    GetUserByIdName();
    GetUserIsWord();
    FuncLineMatch(line, "GetUser", "GetUserByID");
    GetUserByIdKeyword();
    GetUserByIdNoReceiver();
    GoFuncLineMissed(line, "GetUser");
  }

  lemma GetUserByIdNoReceiver()
    ensures |"GetUserByID(id int) *User {"| > 0 && "GetUserByID(id int) *User {"[0] != '('
  {
  }

  /**
   A `func` line without a receiver that the function pattern for `sym` does
   not match is matched by no Go pattern compiled for `sym`.
   */
  lemma GoFuncLineMissed(line: string, sym: string)
    requires Keyword(line, "func").Some? && |Keyword(line, "func").value| > 0 && Keyword(line, "func").value[0] != '('
    requires !Matches(Compiled(GoFuncDecl, sym), line)
    ensures forall c :: c in DefinitionPatternFor(sym, Go) ==> !Matches(c, line)
  {
    GoPatterns(sym);
    FuncLineOnlyFunction(line, sym);
    NoneOfSix(DefinitionPatternFor(sym, Go), sym, line);
  }

  /** The six Go patterns for `sym`, none of which matches `line`. */
  lemma NoneOfSix(r: seq<Compiled>, sym: string, line: string)
    requires r == Instantiate([GoFuncDecl, GoMethodDecl, GoTypeDecl, GoConstDecl, GoConstMemberDecl, GoVarDecl], sym)
    requires !Matches(Compiled(GoFuncDecl, sym), line) && !Matches(Compiled(GoMethodDecl, sym), line)
    requires !Matches(Compiled(GoTypeDecl, sym), line) && !Matches(Compiled(GoConstDecl, sym), line)
    requires !Matches(Compiled(GoConstMemberDecl, sym), line) && !Matches(Compiled(GoVarDecl, sym), line)
    ensures forall c :: c in r ==> !Matches(c, line)
  {
    forall c | c in r ensures !Matches(c, line) {
      var i :| 0 <= i < |r| && r[i] == c;
      assert i < 6;
    }
  }

  /**
   On a `func` line without a receiver, no Go pattern other than the
   function pattern matches, whatever the symbol.
   */
  lemma FuncLineOnlyFunction(line: string, sym: string)
    requires Keyword(line, "func").Some? && |Keyword(line, "func").value| > 0 && Keyword(line, "func").value[0] != '('
    ensures !Matches(Compiled(GoMethodDecl, sym), line)
    ensures !Matches(Compiled(GoTypeDecl, sym), line)
    ensures !Matches(Compiled(GoConstDecl, sym), line)
    ensures !Matches(Compiled(GoConstMemberDecl, sym), line)
    ensures !Matches(Compiled(GoVarDecl, sym), line)
  {
    GoMethodDeclMatcher(sym, line);
    GoTypeDeclMatcher(sym, line);
    GoConstDeclMatcher(sym, line);
    GoConstMemberDeclMatcher(sym, line);
    GoVarDeclMatcher(sym, line);
    NotKeyword(line, "type", 0);
    NotKeyword(line, "const", 0);
    NotKeyword(line, "var", 0);
  }

  // ---------------------------------------------------------------------------
  // Rust functions

  lemma CreateUserPub()
    ensures Optional("pub fn create_user(name: String) -> User {", "pub") == "fn create_user(name: String) -> User {"
  {
    assert "pub fn create_user(name: String) -> User {" == "pub" + " " + "fn create_user(name: String) -> User {";
    KeywordAt("pub fn create_user(name: String) -> User {", "pub", "fn create_user(name: String) -> User {");
  }

  lemma CreateUserNoAsync()
    ensures Optional("fn create_user(name: String) -> User {", "async") == "fn create_user(name: String) -> User {"
  {
    NotKeyword("fn create_user(name: String) -> User {", "async", 0);
  }

  lemma CreateUserFn()
    ensures Keyword("fn create_user(name: String) -> User {", "fn") == Some("create_user(name: String) -> User {")
  {
    assert "fn create_user(name: String) -> User {" == "fn" + " " + "create_user(name: String) -> User {";
    KeywordAt("fn create_user(name: String) -> User {", "fn", "create_user(name: String) -> User {");
  }

  lemma CreateUserIsWord()
    ensures IsWordName("create_user")
  {
  }

  lemma CreateUserWord()
    ensures WordName(Some("create_user(name: String) -> User {"), OpensParenOrAngle) == Some("create_user")
  {
    CreateUserIsWord();
    assert "create_user(name: String) -> User {" == "create_user" + "(name: String) -> User {";
    WordBeforeParen("create_user(name: String) -> User {", "create_user", "(name: String) -> User {");
  }

  lemma CreateUserName()
    ensures RustFnName("pub fn create_user(name: String) -> User {") == Some("create_user")
  {
    CreateUserPub();
    CreateUserNoAsync();
    CreateUserFn();
    CreateUserWord();
  }

  /** Every Rust output holds the function pattern, first. */
  lemma RustFnPatternIn(symbol: string)
    ensures Compiled(RustFnDecl, symbol) in DefinitionPatternFor(symbol, Rust)
  {
    RustPatterns(symbol);
    assert DefinitionPatternFor(symbol, Rust)[0] == Compiled(RustFnDecl, symbol);
  }

  /** The Rust function pattern compiled for `create_user` finds its public declaration. */
  lemma CreateUserFound()
    ensures Compiled(RustFnDecl, "create_user") in DefinitionPatternFor("create_user", Rust)
    ensures Matches(Compiled(RustFnDecl, "create_user"), "pub fn create_user(name: String) -> User {")
  {
    RustFnPatternIn("create_user");
    CreateUserName();
    CreateUserIsWord();
    RustFnRecognised("pub fn create_user(name: String) -> User {");
    RustFnExact("pub fn create_user(name: String) -> User {", "create_user");
  }

  // ---------------------------------------------------------------------------
  // Go constant-block members: a tab, then a name starting upper-case or `_`

  lemma StatusOkIsConst()
    ensures IsName("StatusOK", IsConstStart, IsWordChar)
  {
  }

  lemma StatusOkTail()
    ensures "\tStatusOK Status = 200"[1..] == "StatusOK" + " " + "Status = 200"
  {
  }

  lemma StatusOkBacktrack()
    ensures BacktrackName("StatusOK Status = 200", IsConstStart, IsWordChar, IsAssignOrLetter) == Some("StatusOK")
  {
    StatusOkIsConst();
    assert "StatusOK Status = 200" == "StatusOK" + " " + "Status = 200";
    BacktrackAt("StatusOK Status = 200", "StatusOK", "Status = 200", IsConstStart, IsAssignOrLetter);
  }

  /**
   A typed member of a constant block is captured by the member rule, the
   first `const` rule to capture anything on it.
   */
  lemma StatusOkCaptured()
    ensures Recognise(GoConst, "\tStatusOK Status = 200").None?
    ensures Recognise(GoConstInBlock, "\tStatusOK Status = 200") == Some("StatusOK")
  {
    NoConstKeyword("\tStatusOK Status = 200");
    GoConstInBlockRecognised("\tStatusOK Status = 200");
    StatusOkTail();
    StatusOkBacktrack();
  }

  /** ... and found by the member pattern compiled for its name. */
  lemma StatusOkFound()
    ensures Matches(Compiled(GoConstMemberDecl, "StatusOK"), "\tStatusOK Status = 200")
  {
    StatusOkCaptured();
    GoConstInBlockRecognised("\tStatusOK Status = 200");
    GoConstMemberFound("\tStatusOK Status = 200", "StatusOK");
    GoConstMemberDeclMatcher("StatusOK", "\tStatusOK Status = 200");
  }

  /** A lower-case name is not an exported constant: no `const` rule captures anything. */
  lemma LowerCaseMemberSkipped()
    ensures Recognise(GoConst, "\tmaxValue = 100").None?
    ensures Recognise(GoConstInBlock, "\tmaxValue = 100").None?
  {
    NoConstKeyword("\tmaxValue = 100");
    MemberStartSkipped("\tmaxValue = 100");
  }

  lemma MemberStartSkipped(line: string)
    requires |line| > 1 && line[0] == '\t' && !IsConstStart(line[1])
    ensures Recognise(GoConstInBlock, line).None?
  {
    GoConstInBlockRecognised(line);
    NoBacktrackName(line[1..], IsConstStart, IsAssignOrLetter);
  }

  /** A space-indented line is not a constant declaration or block member, whatever follows. */
  lemma SpaceIndentedSkipped()
    ensures Recognise(GoConst, "    MAX_VALUE := 100").None?
    ensures Recognise(GoConstInBlock, "    MAX_VALUE := 100").None?
  {
    NoConstKeyword("    MAX_VALUE := 100");
    GoConstInBlockRecognised("    MAX_VALUE := 100");
  }

  // ---------------------------------------------------------------------------
  // Arrow functions: a parameter list with one nested pair, a bare parameter,
  // and a parenthesised expression without an arrow

  lemma WithCallbackIsName()
    ensures IsScriptName("withCallback")
  {
  }

  lemma CallbackPiecesParenFree()
    ensures ParenFree("cb: ") && ParenFree("x: number") && ParenFree(" => void")
  {
  }

  lemma CallbackParams()
    ensures "(cb: (x: number) => void) => {" == "(" + "cb: " + "(" + "x: number" + ")" + " => void" + ")" + " => {"
  {
  }

  /** The parameter list `(cb: (x: number) => void)` nests one pair and is followed by ` => {`. */
  lemma WithCallbackGroup()
    ensures ParenGroup("(cb: (x: number) => void) => {") == Some(" => {")
  {
    CallbackPiecesParenFree();
    CallbackParams();
    OneLevelAccepted("cb: ", "x: number", " => void", " => {");
  }

  lemma ArrowAfterGroup()
    ensures ArrowAhead(" => {")
  {
    assert " => {"[1..] == "=> {";
    assert "=> {"[..2] == "=>";
  }

  lemma WithCallbackLine()
    ensures "const withCallback = (cb: (x: number) => void) => {"
         == "const " + "withCallback" + " = " + "(cb: (x: number) => void) => {"
  {
    assert "const " + "withCallback" + " = " == "const withCallback = ";
  }

  /**
   The parenthesised arrow rule captures `withCallback`, though its parameter
   list holds another arrow; the function-declaration rule before it does not.
   */
  lemma WithCallbackCaptured()
    ensures Recognise(TsFunction, "const withCallback = (cb: (x: number) => void) => {").None?
    ensures Recognise(ArrowParen, "const withCallback = (cb: (x: number) => void) => {") == Some("withCallback")
  {
    WithCallbackLine();
    WithCallbackIsName();
    WithCallbackGroup();
    ArrowAfterGroup();
    ArrowParenCaptures("const withCallback = (cb: (x: number) => void) => {", "withCallback", "(cb: (x: number) => void) => {");
  }

  /**
   The bare arrow rule captures `double` from `const double = x => x * 2`;
   the two function rules before it do not.
   */
  lemma DoubleCaptured()
    ensures Recognise(TsFunction, "const double = x => x * 2").None?
    ensures Recognise(ArrowParen, "const double = x => x * 2").None?
    ensures Recognise(ArrowBare, "const double = x => x * 2") == Some("double")
  {
    assert IsScriptName("double") && IsScriptName("x");
    assert "const double = x => x * 2" == "const " + "double" + " = " + "x => x * 2";
    ArrowParenNeedsGroup("const double = x => x * 2", "double", "x => x * 2");
    assert "const double = x => x * 2" == "const " + "double" + " = " + "x" + " =>" + " x * 2";
    ArrowBareCaptures("const double = x => x * 2", "double", "x", " x * 2");
  }

  /** Text in which no `=` is directly followed by `>` holds no arrow. */
  lemma NoArrow(s: string)
    requires forall i :: 0 <= i < |s| - 1 && s[i] == '=' ==> s[i + 1] != '>'
    ensures !Contains(s, "=>")
  {
    forall i | 0 <= i <= |s| && i + 2 <= |s| ensures !OccursAt(s, "=>", i) {
      assert s[i..i + 2][0] == s[i] && s[i..i + 2][1] == s[i + 1];
    }
  }

  lemma ResultNoFunction()
    ensures Recognise(TsFunction, "const result = (a + b) * 2").None?
  {
    assert "const result = (a + b) * 2" == "const " + "result = (a + b) * 2";
    ConstLineNoFunction("const result = (a + b) * 2", "result = (a + b) * 2");
  }

  /** No function rule captures `result` from a parenthesised expression. */
  lemma ParenExpressionSkipped()
    ensures Recognise(TsFunction, "const result = (a + b) * 2").None?
    ensures Recognise(ArrowParen, "const result = (a + b) * 2").None?
    ensures Recognise(ArrowBare, "const result = (a + b) * 2").None?
  {
    ResultNoFunction();
    ResultNoArrow();
  }

  lemma ResultNoArrow()
    ensures Recognise(ArrowParen, "const result = (a + b) * 2").None?
    ensures Recognise(ArrowBare, "const result = (a + b) * 2").None?
  {
    var line := "const result = (a + b) * 2";
    assert forall i :: 0 <= i < |line| - 1 && line[i] == '=' ==> i == 13;
    NoArrow(line);
    if Recognise(ArrowParen, line).Some? || Recognise(ArrowBare, line).Some? {
      ArrowRulesNeedArrow(line);
    }
  }

  // ---------------------------------------------------------------------------
  // The empty symbol

  /**
   The empty symbol still compiles, and its TypeScript type pattern matches
   every (exported) class line: `class\s+` followed by nothing is a match.
   */
  lemma EmptySymbolMatchesClasses(line: string)
    requires Keyword(Optional(line, "export"), "class").Some?
    ensures Compiled(ScriptTypeDecl(false), "") in DefinitionPatternFor("", TypeScript)
    ensures Matches(Compiled(ScriptTypeDecl(false), ""), line)
  {
    TsPatterns("");
    assert DefinitionPatternFor("", TypeScript)[1] == Compiled(ScriptTypeDecl(false), "");
    EmptyAfterKeyword(Optional(line, "export"), "class");
    ScriptTypeDeclMatcher("", line);
  }

  /** `kw\s+` followed by the empty symbol: the first space is enough. */
  lemma EmptyAfterKeyword(s: string, kw: string)
    requires Keyword(s, kw).Some?
    ensures KeywordSymbol(s, kw, "", Anything)
  {
    var t := s[|kw|..];
    assert AllSpaces(t[..1]);
    assert StartsWith(t[1..], "");
  }

  // ---------------------------------------------------------------------------
  // Test files

  /** A name ending with one of a rule's suffixes is a test file. */
  lemma SuffixTest(rule: NameRule, name: string, p: string)
    requires p in rule.suffixes && EndsWith(name, p)
    ensures IsTestFile(rule, name)
  {
  }

  /** A name shorter than every suffix, with no prefix or infix to match, is not. */
  lemma TooShortForTest(rule: NameRule, name: string)
    requires rule.prefixes == [] && rule.infixes == []
    requires forall p :: p in rule.suffixes ==> |name| < |p|
    ensures !IsTestFile(rule, name)
  {
  }

  /** A name starting with one of a rule's prefixes is a test file. */
  lemma PrefixTest(rule: NameRule, name: string, p: string)
    requires p in rule.prefixes && StartsWith(name, p)
    ensures IsTestFile(rule, name)
  {
  }

  lemma GoTestFile()
    ensures IsTestFile(GoProfile.testFile, "user_test.go")
  {
    SuffixTest(GoProfile.testFile, "user_test.go", "_test.go");
  }

  lemma GoNotTestFile()
    ensures !IsTestFile(GoProfile.testFile, "user.go")
  {
    TooShortForTest(GoProfile.testFile, "user.go");
  }

  lemma TsTestFile()
    ensures IsTestFile(TsProfile.testFile, "user.test.ts")
  {
    SuffixTest(TsProfile.testFile, "user.test.ts", ".test.ts");
  }

  lemma TsSpecFile()
    ensures IsTestFile(TsProfile.testFile, "user.spec.ts")
  {
    SuffixTest(TsProfile.testFile, "user.spec.ts", ".spec.ts");
  }

  lemma TsNotTestFile()
    ensures !IsTestFile(TsProfile.testFile, "user.ts")
  {
    TooShortForTest(TsProfile.testFile, "user.ts");
  }

  lemma JsTestFile()
    ensures IsTestFile(JsProfile.testFile, "user.test.js")
  {
    SuffixTest(JsProfile.testFile, "user.test.js", ".test.js");
  }

  lemma JsSpecFile()
    ensures IsTestFile(JsProfile.testFile, "user.spec.js")
  {
    SuffixTest(JsProfile.testFile, "user.spec.js", ".spec.js");
  }

  lemma JsNotTestFile()
    ensures !IsTestFile(JsProfile.testFile, "user.js")
  {
    TooShortForTest(JsProfile.testFile, "user.js");
  }

  lemma PythonPrefixFile()
    ensures IsTestFile(PythonProfile.testFile, "test_user.py")
  {
    PrefixTest(PythonProfile.testFile, "test_user.py", "test_");
  }

  lemma PythonSuffixFile()
    ensures IsTestFile(PythonProfile.testFile, "user_test.py")
  {
    SuffixTest(PythonProfile.testFile, "user_test.py", "_test.py");
  }

  lemma PythonNotTestFile()
    ensures !IsTestFile(PythonProfile.testFile, "user.py")
  {
    assert !StartsWith("user.py", "test_") by {
      assert "user.py"[0] != "test_"[0];
    }
  }

  lemma RustTestFile()
    ensures IsTestFile(RustProfile.testFile, "src/tests/api.rs")
  {
    assert "/tests/" in RustProfile.testFile.infixes;
    assert OccursAt("src/tests/api.rs", "/tests/", 3);
    assert Contains("src/tests/api.rs", "/tests/");
  }
}
