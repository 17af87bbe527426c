# Definition patterns of a code-search tool, in Dafny

This project models the pattern core of a command-line tool that finds where a
symbol is defined in a source tree (`internal/patterns/patterns.go`). The core
has four parts:

- a closed set of languages and an extension classifier (`DetectLanguage`);
- a registry with one profile per supported language. A profile holds the
  ordered definition rules (a regular expression whose first group captures
  the defined name, and a kind), the file extensions and a test-file rule
  (`ForLanguage`, `AllLanguages`, `goPatterns` … `rustPatterns`);
- the rule order, which decides the kind of a line: the first rule whose
  capture is the name wins;
- the pattern compiler `DefinitionPatternFor`. For each rule it picks a
  symbol-specific template, splices in the escaped symbol and drops textual
  duplicates.

The registry's regular expressions are fixed and small. So each one is written
out as a hand-made recogniser with RE2's leftmost-first semantics (`Lines`):

- an optional keyword group;
- greedy `\s`;
- identifier captures, including the capture that gives characters back in
  the Go `const`/`var` rules (`BacktrackName`);
- the parameter group with one level of nesting in the arrow-function rule.

The compiled patterns are modelled the same way: `Compiler.Matches` reads the
escaped symbol as the literal symbol. `Quote` proves that this reading undoes
`regexp.QuoteMeta`.

Modules:

- `Text`: options, character classes, string helpers.
- `Registry`: languages, kinds, profiles, the classifier, test-file rules,
  first-rule-wins attribution.
- `Lines`: one recogniser per registry expression.
- `Quote`: `QuoteMeta` and its inverse.
- `Compiler`: templates, rendering, matching, the de-duplicating fold.
- `CompilerFacts`: the exact output per language.
- `Found`: a captured name is found by its compiled pattern.
- `Agreement`: registry against compiler, for all five languages.
- `RuleFacts`: rule order and rule shapes.
- `Findings`: the abstract-class discrepancy and its correction.
- `Concrete` and `Examples`: particular lines and file names.

Two behaviours of the code are worth stating directly:

- `DefinitionPatternFor` returns bare compiled patterns: no kind is attached
  to them.
- The empty symbol compiles, and its patterns do match: the TypeScript type
  pattern for "" matches every class line
  (`Examples.EmptySymbolMatchesClasses`).
- The Rust `impl` rule needs a space right after `impl`. So
  `impl<R: X> Y<R>` is not recognised. The rule's kind `type` makes the
  compiler emit the struct-or-enum pattern, which never matches an `impl`
  line (`Agreement.ImplLinesUnmatched`). Both are modelled as written.

## Model

| member | source | states |
|---|---|---|
| Registry.ForLanguage | internal/patterns/patterns.go:32-47 | a profile exists exactly for go, ts, js, py and rust; it is that language's profile, with at least one rule and one extension; every other language value gives none |
| Registry.ForTagSupported | internal/patterns/patterns.go:32-47 | read from the strings the source uses for languages, a profile exists exactly for "go", "ts", "js", "py" and "rust" (an `Other` value never carries one of the declared strings, see `Registry.WellFormed`) |
| Registry.AllLanguages | internal/patterns/patterns.go:67-74 | the supported languages are exactly the languages with a profile, i.e. the five registry keys |
| Registry.DetectLanguage | internal/patterns/patterns.go:49-65 | a non-Unknown answer names a profile that lists the extension; an extension listed by some profile is never classified Unknown; no undeclared language is produced |
| Registry.DetectLanguageRoundTrip | internal/patterns/patterns.go:49-65 | every extension a profile lists is classified as that profile's language (the classifier and the registry's extension lists agree) |
| Registry.OfTag | internal/patterns/patterns.go:6-16 | reading a string as a language and writing it back gives the string; the result is an undeclared language exactly when the string is none of the six declared values |
| Registry.TagRoundTrip | internal/patterns/patterns.go:6-16 | writing a language as its string and reading it back gives the same language |
| Registry.TestFileLanguage | internal/patterns/patterns.go:127-261 | a file that a profile's test-file rule matches by suffix ends with one of that profile's extensions, which the classifier maps back to the same language |
| Registry.FirstKind | internal/patterns/patterns_test.go:106-114 | the kind is absent exactly when no rule captures the symbol; otherwise it is the kind of a rule that captures it, and no earlier rule does |
| Lines.Name | internal/patterns/patterns.go:84 | `[start][cont]*` fails exactly when the text does not begin with a start character; otherwise the capture is an identifier prefix of the text, and the next character cannot continue it |
| Lines.BacktrackName | internal/patterns/patterns.go:113-124 | under `NAME\s*(?:=\|[A-Za-z])` the capture is the longest identifier prefix after which the rest of the line still matches; none when no prefix fits |
| Quote.UnquoteQuoteMeta | internal/patterns/patterns.go:276 | reading an escaped symbol back as literal text gives the symbol (the compiled patterns match the symbol literally) |
| Quote.QuoteMetaInjective | internal/patterns/patterns.go:276 | distinct symbols never escape to the same text |
| Compiler.Compile | internal/patterns/patterns.go:274-343 | the output has pairwise distinct texts, none of them already seen; every pattern carries the symbol and comes from some rule's template; every template a rule calls for has its text among those seen or emitted |
| Compiler.DefinitionPatternFor | internal/patterns/patterns.go:266-346 | no patterns for a language without a profile; otherwise pairwise distinct texts, all for the symbol, each built from a template some rule of the language calls for, and covering the text of every such template (the rule order of the output is stated by `CompilerFacts.DefinitionPatternOutput`) |
| CompilerFacts.CompileIsFirsts | internal/patterns/patterns.go:272-276 | when distinct templates render to distinct texts, de-duplicating by text is the same as keeping the first occurrence of each template in rule order |
| CompilerFacts.LanguageTextsInjective | internal/patterns/patterns.go:276-333 | within one language, distinct templates never render to the same text, whatever the symbol |
| CompilerFacts.DefinitionPatternOutput | internal/patterns/patterns.go:266-346 | the exact output for every symbol: Go function, method, type, const, const-member and var patterns (6); TypeScript and JavaScript function and type patterns (2); Python def and class (2); Rust fn, struct-or-enum and trait (3); nothing for any other language |
| CompilerFacts.GoPatterns | internal/patterns/patterns.go:281-305 | the four Go type and interface rules share one pattern, and the second const rule adds nothing new; the output is the six Go patterns in order |
| CompilerFacts.RustPatterns | internal/patterns/patterns.go:324-332 | the `impl` rule's pattern was already emitted by the struct rule; the Rust output is fn, struct-or-enum and trait |
| Found.RuleFound | internal/patterns/patterns.go:84-257 | whenever a rule captures a name on a line, the compiled pattern its kind selects for that name matches the line (Rust `impl` and TypeScript abstract classes excepted) |
| Found.GoFuncExact | internal/patterns/patterns.go:84 | the Go function pattern for an identifier matches a line if and only if the function rule captures exactly that identifier there |
| Found.GoMethodExact | internal/patterns/patterns.go:89 | the same equivalence for the Go method rule and pattern |
| Found.PyDefExact | internal/patterns/patterns.go:216 | the same equivalence for the Python def rule and pattern |
| Found.RustFnExact | internal/patterns/patterns.go:237 | the same equivalence for the Rust fn rule and pattern |
| Agreement.KindFound | internal/patterns/patterns.go:266-346 | whenever a profile attributes a line to a name, some pattern compiled for that name and language matches the line, unless it is a Rust `impl` line or a TypeScript abstract class |
| Agreement.ImplLinesUnmatched | internal/patterns/patterns.go:255-258 | no Rust pattern, for any symbol, matches a line that begins with `impl` and a space |
| RuleFacts.GoInterfaceBeforeNamedType | internal/patterns/patterns.go:97-110 | an interface declaration is also captured, with the same name, by the later named-type rule; the earlier interface rule decides, so the kind is interface |
| RuleFacts.GoMethodKind | internal/patterns/patterns.go:82-91 | on a line the method rule captures, the function rule captures nothing, and the kind is method |
| RuleFacts.GoConstMemberShape | internal/patterns/patterns.go:116-120 | a const-block member starts with a tab; its name starts with an upper-case letter or `_`; after optional spaces it is followed by `=` or a letter |
| RuleFacts.GoConstShape | internal/patterns/patterns.go:111-115 | the same shape for a standalone `const` declaration, after the keyword |
| RuleFacts.ArrowRulesNeedArrow | internal/patterns/patterns.go:142-151 | both arrow-function rules capture only on lines that contain `=>` |
| RuleFacts.OneLevelAccepted | internal/patterns/patterns.go:144 | a parameter group with one nested pair of parentheses is consumed up to its closing parenthesis |
| RuleFacts.TwoLevelsRejected | internal/patterns/patterns.go:144 | a parameter group with a second level of nesting does not match |
| RuleFacts.ArrowParenCaptures | internal/patterns/patterns.go:137-145 | `const NAME = ` followed by a parameter group the rule's group accepts and then an arrow is captured as `NAME` by the parenthesised arrow rule, and the function-declaration rule before it captures nothing |
| RuleFacts.ArrowBareCaptures | internal/patterns/patterns.go:137-150 | `const NAME = PARAM =>` with identifiers `NAME` and `PARAM` is captured as `NAME` by the bare arrow rule, and the function-declaration rule before it captures nothing |
| Examples.WithCallbackCaptured | internal/patterns/patterns_test.go:319-325 | on `const withCallback = (cb: (x: number) => void) => {`, whose parameters nest one pair and hold an arrow, the first function rule captures nothing and the parenthesised arrow rule captures `withCallback`, so the first-match loop reports that name |
| Examples.DoubleCaptured | internal/patterns/patterns_test.go:326-332 | on `const double = x => x * 2` the function-declaration and parenthesised arrow rules capture nothing and the bare arrow rule captures `double` |
| Examples.ParenExpressionSkipped | internal/patterns/patterns_test.go:355-361 | none of the three TypeScript function rules captures anything from `const result = (a + b) * 2` |
| Examples.GetUserFound | internal/patterns/patterns_test.go:135-141 | the Go function pattern is among those compiled for `GetUser` and matches `func GetUser(id int) *User {` |
| Examples.GetUserByIdMissed | internal/patterns/patterns_test.go:142-148 | no pattern of `DefinitionPatternFor("GetUser", Go)` matches `func GetUserByID(id int) *User {`: the function pattern's symbol must end where the name does, and the other five cannot match a `func` line without a receiver |
| Examples.CreateUserFound | internal/patterns/patterns_test.go:191-197 | the Rust fn pattern is among those compiled for `create_user` and matches `pub fn create_user(name: String) -> User {` |
| Examples.StatusOkCaptured | internal/patterns/patterns_test.go:466-471 | on a tab-indented typed member the `const` rule captures nothing and the const-block rule captures `StatusOK` |
| Examples.StatusOkFound | internal/patterns/patterns_test.go:466-471 | the const-member pattern for `StatusOK` matches that line |
| Examples.LowerCaseMemberSkipped | internal/patterns/patterns_test.go:479-484 | neither `const`-kind rule captures a tab-indented lower-case name |
| Examples.SpaceIndentedSkipped | internal/patterns/patterns_test.go:473-478 | neither `const`-kind rule captures a space-indented upper-case name |
| Examples.GoTestFile | internal/patterns/patterns_test.go:235 | `user_test.go` is a Go test file |
| Examples.GoNotTestFile | internal/patterns/patterns_test.go:236 | `user.go` is not |
| Examples.TsSpecFile | internal/patterns/patterns_test.go:238 | `user.spec.ts` is a TypeScript test file |
| Examples.JsNotTestFile | internal/patterns/patterns_test.go:242 | `user.js` is not a JavaScript test file |
| Examples.PythonPrefixFile | internal/patterns/patterns_test.go:243 | `test_user.py` is a Python test file by its prefix |
| Examples.PythonNotTestFile | internal/patterns/patterns_test.go:245 | `user.py` is not |
| Examples.RustTestFile | internal/patterns/patterns.go:261 | a path through a `/tests/` directory is a Rust test file |
| Examples.EmptySymbolMatchesClasses | internal/patterns/patterns.go:315 | the type pattern compiled for the empty symbol is in the TypeScript output and matches every (exported) class line |
| Findings.AbstractClassMissed | internal/patterns/patterns.go:154 | the TypeScript profile attributes `abstract class Shape {` to the type `Shape`, yet no pattern compiled for `Shape` matches that line |
| Findings.AbstractLinesUnmatched | internal/patterns/patterns.go:315 | no TypeScript pattern as written, for any symbol, matches a line with the `abstract` modifier |
| Findings.CorrectedDefinitionPatternFor | internal/patterns/patterns.go:314-315 | the compiler with `(?:abstract\s+)?` in the TypeScript type pattern keeps the compiler's guarantees: nothing without a profile, distinct texts, every pattern from a called-for template, every called-for template covered |
| Findings.CorrectedAgreesElsewhere | internal/patterns/patterns.go:266-346 | outside TypeScript the corrected compiler is the compiler |
| Findings.AbstractWidens | internal/patterns/patterns.go:315 | the corrected type pattern matches every line the type pattern as written matches |
| Findings.CorrectedKindFound | internal/patterns/patterns.go:154 | with the correction, every line any profile attributes to a name is matched by a pattern compiled for it, Rust `impl` lines aside |

## Left out

- The command line, configuration files and the file-tree scan engine that
  applies the patterns: they are outside the pattern core, and the engine's
  code is not part of this model. `Registry.KindOf` models the attribution
  loop of the registry's own tests (`internal/patterns/patterns_test.go`,
  lines 106-114), where the first rule that captures the name gives the kind;
  it is not a model of the engine.
- A general regular-expression engine: each fixed expression is a
  hand-written recogniser instead. Every pattern is anchored at `^` and is
  matched against a prefix of one line, without its newline.
- `Registry.AllLanguages`: returns a set. The source returns a slice in map
  order, which is unspecified.
- `Compiler.DefinitionPatternFor`: the `regexp.Compile` error branch is left
  out. The patterns compile for every symbol that is valid UTF-8. For a symbol
  that is not, `regexp.QuoteMeta` copies the invalid bytes and compilation
  fails; the source then drops that pattern after already marking its text as
  seen (lines 297-300 for the const pair, 337-341 otherwise). A Dafny string
  cannot hold invalid UTF-8, so that branch is not modelled.
- `Lines.Recognise`: strings are sequences of characters. RE2's UTF-8 handling
  is not modelled, and `\s` is the ASCII space class.
- `Found.RuleFound`: stated in the finding direction only, with no "only
  this name" claim. Many templates put no boundary after the symbol, so they
  also match longer names that start with it:
  - the Go const and const-member patterns, where `\s*(?:=|[A-Za-z])` accepts
    a letter that continues the name (`const MaxRetries = 3` for `Max`);
  - the Go var pattern, which requires nothing after `SYM\s*`;
  - the TypeScript and JavaScript `function\s+SYM` alternative and type
    pattern;
  - the Python class pattern;
  - the Rust struct-or-enum and trait patterns.

  The function, method, def and fn patterns end the symbol with `\s*\(` or
  `\s*[<(]`, and only these have an equivalence lemma (`Found.GoFuncExact`,
  `Found.GoMethodExact`, `Found.PyDefExact`, `Found.RustFnExact`). The Go type
  pattern's `SYM\s+` also ends the name, but its rules follow the name with
  different tails, so no equivalence is stated for it.

## Findings

| source | as written | input that shows it | evidently intended | confidence | as-written member | corrected member |
|---|---|---|---|---|---|---|
| internal/patterns/patterns.go:315 | the TypeScript type pattern is `^(?:export\s+)?(?:class\|interface\|type\|enum)\s+SYM`, without the `(?:abstract\s+)?` that the class rule at line 154 accepts | `abstract class Shape {` with symbol `Shape`: the class rule attributes it to the type `Shape`, but neither compiled pattern matches | the type pattern accepts the optional `abstract` modifier, so every line the rules attribute is found | not executed | Findings.AbstractClassMissed | Findings.CorrectedKindFound |
