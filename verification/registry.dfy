/**
 The language registry: the closed set of languages, the definition kinds,
 one profile per supported language (its ordered definition rules, its file
 extensions and its test-file naming rule), the extension classifier, and the
 first-rule-wins attribution of a line to a kind.

 The registry is a constant built once; nothing changes it afterwards.
 */
module Registry {
  import opened Text
  import opened Lines

  /**
   A language. The source's `Language` is a string type whose named values are
   "go", "ts", "js", "py", "rust" and "" (unknown); any other string, such as
   one given on the command line, is a language with no profile, `Other`.
   */
  datatype Language = Go | TypeScript | JavaScript | Python | Rust | Unknown | Other(tag: string)

  /** The strings that name one of the declared languages. */
  const DeclaredTags: set<string> := {"go", "ts", "js", "py", "rust", ""}

  /** A language value as the source writes it. */
  function Tag(l: Language): string {
    match l
    case Go => "go"
    case TypeScript => "ts"
    case JavaScript => "js"
    case Python => "py"
    case Rust => "rust"
    case Unknown => ""
    case Other(t) => t
  }

  /** The language a string denotes (the source's conversion `Language(s)`). */
  function OfTag(s: string): (l: Language)
    ensures Tag(l) == s
    ensures l.Other? <==> s !in DeclaredTags
  {
    if s == "go" then Go
    else if s == "ts" then TypeScript
    else if s == "js" then JavaScript
    else if s == "py" then Python
    else if s == "rust" then Rust
    else if s == "" then Unknown
    else Other(s)
  }

  /** `Other` never reuses a declared language's string. */
  predicate WellFormed(l: Language) {
    l.Other? ==> l.tag !in DeclaredTags
  }

  /** Writing a language out and reading it back gives the same language. */
  lemma TagRoundTrip(l: Language)
    requires WellFormed(l)
    ensures OfTag(Tag(l)) == l
  {
  }

  /** The kind of definition a rule recognises (the source's `Kind` strings). */
  datatype Kind = Function | Method | Type | Interface | Const | Var

  datatype Rule = Rule(grammar: Grammar, kind: Kind)

  /**
   A test-file rule over a file name or path: it classifies the name as a test
   file when the name starts with one of `prefixes`, ends with one of
   `suffixes` or contains one of `infixes`. The registry's test-file regular
   expressions are all alternations of anchored or unanchored literals.
   */
  datatype NameRule = NameRule(prefixes: seq<string>, suffixes: seq<string>, infixes: seq<string>)

  predicate IsTestFile(rule: NameRule, name: string) {
    || (exists p :: p in rule.prefixes && StartsWith(name, p))
    || (exists p :: p in rule.suffixes && EndsWith(name, p))
    || (exists p :: p in rule.infixes && Contains(name, p))
  }

  datatype Profile = Profile(language: Language, testFile: NameRule, definitions: seq<Rule>, extensions: seq<string>)

  const GoProfile: Profile := Profile(
    Go,
    NameRule([], ["_test.go"], []),
    [ Rule(GoFunc, Function),
      Rule(GoMethod, Method),
      Rule(GoStruct, Type),
      Rule(GoInterface, Interface),
      Rule(GoAlias, Type),
      Rule(GoNamedType, Type),
      Rule(GoConst, Const),
      Rule(GoConstInBlock, Const),
      Rule(GoVar, Var) ],
    [".go"])

  const TsProfile: Profile := Profile(
    TypeScript,
    NameRule([], [".test.ts", ".test.tsx", ".spec.ts", ".spec.tsx"], []),
    [ Rule(TsFunction, Function),
      Rule(ArrowParen, Function),
      Rule(ArrowBare, Function),
      Rule(TsClass, Type),
      Rule(TsInterface, Interface),
      Rule(TsTypeAlias, Type),
      Rule(TsEnum, Type) ],
    [".ts", ".tsx"])

  const JsProfile: Profile := Profile(
    JavaScript,
    NameRule([], [".test.js", ".test.jsx", ".test.mjs", ".spec.js", ".spec.jsx", ".spec.mjs"], []),
    [ Rule(JsFunction, Function),
      Rule(ArrowParen, Function),
      Rule(ArrowBare, Function),
      Rule(JsClass, Type) ],
    [".js", ".jsx", ".mjs"])

  const PythonProfile: Profile := Profile(
    Python,
    NameRule(["test_"], ["_test.py"], []),
    [ Rule(PyDef, Function),
      Rule(PyClass, Type) ],
    [".py"])

  const RustProfile: Profile := Profile(
    Rust,
    NameRule(["test_"], ["_test.rs"], ["/tests/"]),
    [ Rule(RustFn, Function),
      Rule(RustStruct, Type),
      Rule(RustEnum, Type),
      Rule(RustTrait, Interface),
      Rule(RustImpl, Type) ],
    [".rs"])

  /** The process-wide registry, keyed by language. */
  const Profiles: map<Language, Profile> := map[
    Go := GoProfile,
    TypeScript := TsProfile,
    JavaScript := JsProfile,
    Python := PythonProfile,
    Rust := RustProfile ]

  /** The profile of a language, `None` where the source returns nil. */
  function ForLanguage(l: Language): (r: Option<Profile>)
    ensures r.Some? <==> l in {Go, TypeScript, JavaScript, Python, Rust}
    ensures r.Some? ==> r.value.language == l && |r.value.definitions| > 0 && |r.value.extensions| > 0
  {
    if l in Profiles then Some(Profiles[l]) else None
  }

  /**
   Read as the strings the source uses for languages, a profile exists exactly
   for the five supported values; `Other` with a declared string is not such a
   reading (see `WellFormed`).
   */
  lemma ForTagSupported(s: string)
    ensures ForLanguage(OfTag(s)).Some? <==> s in {"go", "ts", "js", "py", "rust"}
  {
    var l := OfTag(s);
    if l.Other? {
      assert l !in Profiles;
    }
  }

  /** The supported languages. The source returns them in map order, so only the set is modelled. */
  function AllLanguages(): (r: set<Language>)
    ensures forall l :: l in r <==> ForLanguage(l).Some?
    ensures r == {Go, TypeScript, JavaScript, Python, Rust}
  {
    Profiles.Keys
  }

  /** The language a file extension (with its dot) belongs to; `Unknown` for every other string. */
  function DetectLanguage(ext: string): (l: Language)
    ensures l != Unknown ==> l in Profiles && ext in Profiles[l].extensions
    ensures (exists p :: p in Profiles.Values && ext in p.extensions) ==> l != Unknown
    ensures !l.Other?
  {
    if ext == ".go" then Go
    else if ext == ".ts" || ext == ".tsx" then TypeScript
    else if ext == ".js" || ext == ".jsx" || ext == ".mjs" then JavaScript
    else if ext == ".py" then Python
    else if ext == ".rs" then Rust
    else Unknown
  }

  /** Every extension a profile lists is classified as that profile's language. */
  lemma DetectLanguageRoundTrip(l: Language, ext: string)
    requires ForLanguage(l).Some? && ext in ForLanguage(l).value.extensions
    ensures DetectLanguage(ext) == l
  {
  }

  /** A test-file suffix ends with one of its profile's extensions. */
  lemma SuffixExtension(l: Language, suffix: string)
    requires ForLanguage(l).Some? && suffix in ForLanguage(l).value.testFile.suffixes
    ensures exists e :: e in ForLanguage(l).value.extensions && EndsWith(suffix, e)
  {
    match l
    case Go => assert EndsWith(suffix, ".go");
    case TypeScript => TsSuffixExtension(suffix);
    case JavaScript => JsSuffixExtension(suffix);
    case Python => assert EndsWith(suffix, ".py");
    case Rust => assert EndsWith(suffix, ".rs");
  }

  lemma TsSuffixExtension(suffix: string)
    requires suffix in TsProfile.testFile.suffixes
    ensures EndsWith(suffix, ".ts") || EndsWith(suffix, ".tsx")
  {
    if suffix in {".test.ts", ".spec.ts"} {
      assert EndsWith(suffix, ".ts");
    } else {
      assert EndsWith(suffix, ".tsx");
    }
  }

  lemma JsSuffixExtension(suffix: string)
    requires suffix in JsProfile.testFile.suffixes
    ensures EndsWith(suffix, ".js") || EndsWith(suffix, ".jsx") || EndsWith(suffix, ".mjs")
  {
    if suffix in {".test.js", ".spec.js"} {
      assert EndsWith(suffix, ".js");
    } else if suffix in {".test.jsx", ".spec.jsx"} {
      assert EndsWith(suffix, ".jsx");
    } else {
      assert EndsWith(suffix, ".mjs");
    }
  }

  lemma EndsWithTransitive(name: string, suffix: string, e: string)
    requires EndsWith(name, suffix) && EndsWith(suffix, e)
    ensures EndsWith(name, e)
  {
    assert name[|name| - |e|..] == name[|name| - |suffix|..][|suffix| - |e|..];
  }

  /**
   A file a profile's rule classifies as a test file by its suffix carries one
   of the profile's extensions, so the classifier puts it in the same
   language. (The `test_` prefix and the `/tests/` infix carry no extension.)
   */
  lemma TestFileLanguage(l: Language, name: string, suffix: string)
    requires ForLanguage(l).Some?
    requires suffix in ForLanguage(l).value.testFile.suffixes && EndsWith(name, suffix)
    ensures exists e :: e in ForLanguage(l).value.extensions && EndsWith(name, e) && DetectLanguage(e) == l
  {
    SuffixExtension(l, suffix);
    var e :| e in ForLanguage(l).value.extensions && EndsWith(suffix, e);
    EndsWithTransitive(name, suffix, e);
    DetectLanguageRoundTrip(l, e);
  }

  /**
   The kind of the first rule, in registry order, whose capture is exactly
   `symbol`; `None` when no rule captures it. `capture` gives each grammar's
   capture on the line at hand. Later rules that would also capture the symbol
   do not count: order decides the kind.
   */
  function FirstKind(rules: seq<Rule>, capture: Grammar -> Option<string>, symbol: string): (k: Option<Kind>)
    ensures k.None? <==> forall i :: 0 <= i < |rules| ==> capture(rules[i].grammar) != Some(symbol)
    ensures k.Some? ==> exists i :: 0 <= i < |rules| && rules[i].kind == k.value
                         && capture(rules[i].grammar) == Some(symbol)
                         && forall j :: 0 <= j < i ==> capture(rules[j].grammar) != Some(symbol)
  {
    if |rules| == 0 then None
    else if capture(rules[0].grammar) == Some(symbol) then Some(rules[0].kind)
    else
      var k := FirstKind(rules[1..], capture, symbol);
      assert forall i :: 1 <= i < |rules| ==> rules[i] == rules[1..][i - 1];
      k
  }

  /** The kind a profile attributes to `line` for `symbol`: the first rule whose capture is the symbol. */
  function KindOf(p: Profile, line: string, symbol: string): Option<Kind> {
    FirstKind(p.definitions, g => Recognise(g, line), symbol)
  }
}
