/**
 Hand-written recognisers for the registry's line grammars. Each `Grammar`
 stands for one anchored regular expression of the registry; `Recognise`
 returns what that expression's first capture group holds after a match
 against the whole line, or `None` when it does not match.

 The grammars are fixed and small, so the leftmost-first semantics of RE2 is
 written out directly instead of through a regex engine:
 - an optional keyword group `(?:kw\s+)?` is taken whenever the keyword and a
   space are present: no keyword in these grammars is a prefix of the token
   that may follow it, so skipping a present keyword never leads to a match;
 - a `\s+` or `\s*` is greedy and never needs to give a space back, because
   what follows it cannot begin with a space;
 - an identifier capture is the longest run of identifier characters, except
   where the next token may itself be a letter (the Go const and var rules),
   see `BacktrackName`.
 */
module Lines {
  import opened Text

  /** One regular expression of the registry (the comment of each case quotes its shape). */
  datatype Grammar =
    | GoFunc          // ^func\s+NAME\s*\(
    | GoMethod        // ^func\s+\([^)]+\)\s+NAME\s*\(
    | GoStruct        // ^type\s+NAME\s+struct\b
    | GoInterface     // ^type\s+NAME\s+interface\b
    | GoAlias         // ^type\s+NAME\s+=
    | GoNamedType     // ^type\s+NAME\s+[A-Za-z]
    | GoConst         // ^const\s+NAME\s*(?:=|[A-Za-z])      NAME starts [A-Z_]
    | GoConstInBlock  // ^<tab>NAME\s*(?:=|[A-Za-z])          NAME starts [A-Z_]
    | GoVar           // ^var\s+NAME\s*(?:=|[A-Za-z\[])
    | TsFunction      // ^(?:export\s+)?(?:async\s+)?function\s+NAME\s*[<(]
    | JsFunction      // ^(?:export\s+)?(?:async\s+)?function\s+NAME\s*\(
    | ArrowParen      // ^(?:export\s+)?const\s+NAME\s*=\s*(?:async\s*)?\(...\).*?=>
    | ArrowBare       // ^(?:export\s+)?const\s+NAME\s*=\s*(?:async\s+)?PARAM\s*=>
    | TsClass         // ^(?:export\s+)?(?:abstract\s+)?class\s+NAME
    | JsClass         // ^(?:export\s+)?class\s+NAME
    | TsInterface     // ^(?:export\s+)?interface\s+NAME
    | TsTypeAlias     // ^(?:export\s+)?type\s+NAME\s*[<=]
    | TsEnum          // ^(?:export\s+)?enum\s+NAME
    | PyDef           // ^(?:async\s+)?def\s+NAME\s*\(
    | PyClass         // ^class\s+NAME
    | RustFn          // ^(?:pub\s+)?(?:async\s+)?fn\s+NAME\s*[<(]
    | RustStruct      // ^(?:pub\s+)?struct\s+NAME
    | RustEnum        // ^(?:pub\s+)?enum\s+NAME
    | RustTrait       // ^(?:pub\s+)?trait\s+NAME
    | RustImpl        // ^impl\s+(?:<[^>]+>\s+)?NAME

  // ---------------------------------------------------------------------------
  // Character classes of the identifier captures

  /** `[A-Za-z_]` */
  predicate IsWordStart(c: char) { IsLetter(c) || c == '_' }

  /** `[A-Za-z_$]` */
  predicate IsScriptStart(c: char) { IsWordStart(c) || c == '$' }

  /** `[A-Za-z0-9_$]` */
  predicate IsScriptChar(c: char) { IsWordChar(c) || c == '$' }

  /** `[A-Z_]`, the first character of a Go constant's name. */
  predicate IsConstStart(c: char) { IsUpper(c) || c == '_' }

  /** `(?:=|[A-Za-z])`, what must follow a Go constant's name. */
  predicate IsAssignOrLetter(c: char) { c == '=' || IsLetter(c) }

  /** `(?:=|[A-Za-z\[])`, what must follow a Go variable's name. */
  predicate IsAssignLetterOrBracket(c: char) { IsAssignOrLetter(c) || c == '[' }

  predicate NotCloseParen(c: char) { c != ')' }

  predicate NotCloseAngle(c: char) { c != '>' }

  /** `n` is a word of the identifier grammar `[start][cont]*`. */
  predicate IsName(n: string, start: char -> bool, cont: char -> bool) {
    |n| > 0 && start(n[0]) && forall i :: 1 <= i < |n| ==> cont(n[i])
  }

  /** A Go, Python or Rust identifier. */
  predicate IsWordName(n: string) { IsName(n, IsWordStart, IsWordChar) }

  /** A TypeScript or JavaScript identifier. */
  predicate IsScriptName(n: string) { IsName(n, IsScriptStart, IsScriptChar) }

  // ---------------------------------------------------------------------------
  // Building blocks

  /** `([start][cont]*)` with the greedy star: the longest identifier at the front of `s`. */
  function Name(s: string, start: char -> bool, cont: char -> bool): (r: Option<string>)
    ensures r.None? <==> |s| == 0 || !start(s[0])
    ensures r.Some? ==> IsName(r.value, start, cont) && StartsWith(s, r.value)
    ensures r.Some? ==> |s| == |r.value| || !cont(s[|r.value|])
  {
    if |s| > 0 && start(s[0]) then Some(s[..1 + Run(s[1..], cont)]) else None
  }

  /** The identifier at the front of `s`, provided the text after it satisfies `tail`. */
  function NameThen(s: string, start: char -> bool, cont: char -> bool, tail: string -> bool): (r: Option<string>)
    ensures r.Some? ==> IsName(r.value, start, cont) && StartsWith(s, r.value) && tail(s[|r.value|..])
    ensures r.Some? ==> |s| == |r.value| || !cont(s[|r.value|])
  {
    match Name(s, start, cont)
    case Some(n) => if tail(s[|n|..]) then Some(n) else None
    case None => None
  }

  /** A `[A-Za-z_][A-Za-z0-9_]*` capture, when the preceding part of the line matched. */
  function WordName(o: Option<string>, tail: string -> bool): (r: Option<string>)
    ensures r.Some? ==> o.Some? && IsWordName(r.value) && StartsWith(o.value, r.value) && tail(o.value[|r.value|..])
  {
    match o
    case Some(s) => NameThen(s, IsWordStart, IsWordChar, tail)
    case None => None
  }

  /** A `[A-Za-z_$][A-Za-z0-9_$]*` capture, when the preceding part of the line matched. */
  function ScriptName(o: Option<string>, tail: string -> bool): (r: Option<string>)
    ensures r.Some? ==> o.Some? && IsScriptName(r.value) && StartsWith(o.value, r.value) && tail(o.value[|r.value|..])
  {
    match o
    case Some(s) => NameThen(s, IsScriptStart, IsScriptChar, tail)
    case None => None
  }

  /** `s[..k]` is a capture of `([start][cont]*)\s*[ok]` that the rest of `s` lets match. */
  predicate CaptureFits(s: string, k: int, start: char -> bool, cont: char -> bool, ok: char -> bool) {
    0 < k <= |s| && IsName(s[..k], start, cont) && |SkipSpaces(s[k..])| > 0 && ok(SkipSpaces(s[k..])[0])
  }

  /** Largest `j` in `1..top` with `ok(s[j])`, searching downwards. */
  function LastOk(s: string, top: nat, ok: char -> bool): (r: Option<nat>)
    requires top < |s|
    ensures r.Some? ==> 1 <= r.value <= top && ok(s[r.value])
    ensures r.Some? ==> forall j :: r.value < j <= top ==> !ok(s[j])
    ensures r.None? ==> forall j :: 1 <= j <= top ==> !ok(s[j])
    decreases top
  {
    if top == 0 then None
    else if ok(s[top]) then Some(top)
    else LastOk(s, top - 1, ok)
  }

  /**
   `([start][cont]*)\s*[ok]` under RE2's leftmost-first rule: the greedy star
   first tries the whole identifier, and when the text after it does not
   continue the match, gives characters back one at a time. A shortened
   capture is followed by one of its own identifier characters, which is no
   space, so it fits exactly when that character is in `ok`. The capture is
   therefore the LONGEST identifier prefix that fits, which need not be the
   whole identifier.
   */
  function BacktrackName(s: string, start: char -> bool, cont: char -> bool, ok: char -> bool): (r: Option<string>)
    requires forall c :: cont(c) ==> !IsSpace(c)
    ensures r.Some? ==> StartsWith(s, r.value) && CaptureFits(s, |r.value|, start, cont, ok)
    ensures r.Some? ==> forall k :: |r.value| < k <= |s| ==> !CaptureFits(s, k, start, cont, ok)
    ensures r.None? ==> forall k :: 0 < k <= |s| ==> !CaptureFits(s, k, start, cont, ok)
  {
    match Name(s, start, cont)
    case None =>
      assert forall k :: 0 < k <= |s| ==> !IsName(s[..k], start, cont) by {
        forall k | 0 < k <= |s| ensures !IsName(s[..k], start, cont) {
          assert s[..k][0] == s[0];
        }
      }
      None
    case Some(n) =>
      var u := SkipSpaces(s[|n|..]);
      NoLongerCapture(s, n, start, cont, ok);
      if |u| > 0 && ok(u[0]) then Some(n)
      else
        match LastOk(s, |n| - 1, ok)
        case Some(j) =>
          ShorterCapture(s, n, j, start, cont, ok);
          Some(s[..j])
        case None =>
          ShorterCapture(s, n, 0, start, cont, ok);
          None
  }

  /** No capture can extend past the greedy identifier `n`. */
  lemma NoLongerCapture(s: string, n: string, start: char -> bool, cont: char -> bool, ok: char -> bool)
    requires StartsWith(s, n) && IsName(n, start, cont) && (|s| == |n| || !cont(s[|n|]))
    ensures forall k :: |n| < k <= |s| ==> !IsName(s[..k], start, cont)
  {
    forall k | |n| < k <= |s| ensures !IsName(s[..k], start, cont) {
      assert s[..k][|n|] == s[|n|];
    }
  }

  /** A proper prefix `s[..k]` of the identifier `n` is followed by `n[k]`, no space: it fits exactly when `ok(n[k])`. */
  lemma PrefixCapture(s: string, n: string, k: nat, start: char -> bool, cont: char -> bool, ok: char -> bool)
    requires forall c :: cont(c) ==> !IsSpace(c)
    requires StartsWith(s, n) && IsName(n, start, cont)
    requires 0 < k < |n|
    ensures CaptureFits(s, k, start, cont, ok) <==> ok(s[k])
  {
    assert s[..k] == n[..k];
    assert s[k] == n[k];
    assert !IsSpace(s[k]);
    assert SkipSpaces(s[k..]) == s[k..] by {
      RunUnique(s[k..], IsSpace, 0);
    }
  }

  /**
   When the whole identifier `n` does not fit, the captures that fit are the
   prefixes `s[..j]` with `j < |n|` and `ok(s[j])`; `j` is the largest of them
   (or 0 when there is none).
   */
  lemma ShorterCapture(s: string, n: string, j: nat, start: char -> bool, cont: char -> bool, ok: char -> bool)
    requires forall c :: cont(c) ==> !IsSpace(c)
    requires StartsWith(s, n) && IsName(n, start, cont)
    requires forall k :: |n| < k <= |s| ==> !CaptureFits(s, k, start, cont, ok)
    requires !CaptureFits(s, |n|, start, cont, ok)
    requires j < |n|
    requires j > 0 ==> ok(s[j])
    requires forall i :: j < i < |n| ==> !ok(s[i])
    ensures j > 0 ==> CaptureFits(s, j, start, cont, ok)
    ensures forall k :: j < k <= |s| ==> !CaptureFits(s, k, start, cont, ok)
  {
    if j > 0 {
      PrefixCapture(s, n, j, start, cont, ok);
    }
    forall k | j < k < |n| ensures !CaptureFits(s, k, start, cont, ok) {
      PrefixCapture(s, n, k, start, cont, ok);
    }
  }

  // ---------------------------------------------------------------------------
  // What may follow the captured name

  /** `\s*\(` */
  predicate OpensParen(t: string) { StartsWith(SkipSpaces(t), "(") }

  /** `\s*[<(]` */
  predicate OpensParenOrAngle(t: string) {
    var u := SkipSpaces(t);
    |u| > 0 && (u[0] == '(' || u[0] == '<')
  }

  /** `\s*[<=]` */
  predicate OpensAngleOrEquals(t: string) {
    var u := SkipSpaces(t);
    |u| > 0 && (u[0] == '<' || u[0] == '=')
  }

  /** Nothing is required after the name. */
  predicate Anything(t: string) { true }

  /** `\s+struct\b` */
  predicate StructTail(t: string) {
    match Spaces1(t)
    case Some(u) => WordAt(u, "struct")
    case None => false
  }

  /** `\s+interface\b` */
  predicate InterfaceTail(t: string) {
    match Spaces1(t)
    case Some(u) => WordAt(u, "interface")
    case None => false
  }

  /** `\s+=` */
  predicate AliasTail(t: string) {
    match Spaces1(t)
    case Some(u) => StartsWith(u, "=")
    case None => false
  }

  /** `\s+[A-Za-z]` */
  predicate NamedTypeTail(t: string) {
    match Spaces1(t)
    case Some(u) => |u| > 0 && IsLetter(u[0])
    case None => false
  }

  /** `\((?:[^()]*|\([^()]*\))*\)`: the text after the parameter group, whose parentheses nest at most one level. */
  function ParenGroup(s: string): (r: Option<string>)
    ensures r.Some? ==> IsSuffix(r.value, s)
  {
    if |s| > 0 && s[0] == '(' then GroupBody(s[1..], false) else None
  }

  /**
   The rest of a group after its opening parenthesis; `nested` is true inside
   an inner pair. The outer group closes at the first `)` outside an inner
   pair, and an opening parenthesis inside an inner pair makes the group fail:
   `[^()]` cannot consume it.
   */
  function GroupBody(s: string, nested: bool): (r: Option<string>)
    ensures r.Some? ==> IsSuffix(r.value, s)
    decreases |s|
  {
    if |s| == 0 then None
    else if s[0] == '(' then (if nested then None else GroupBody(s[1..], true))
    else if s[0] == ')' then (if nested then GroupBody(s[1..], false) else Some(s[1..]))
    else GroupBody(s[1..], nested)
  }

  /** `.*?=>`: an arrow occurs before the first newline (`.` does not match a newline). */
  predicate ArrowAhead(s: string)
    decreases |s|
  {
    |s| >= 2 && (s[..2] == "=>" || (s[0] != '\n' && ArrowAhead(s[1..])))
  }

  /** `\s*=\s*(?:async\s*)?\(...\).*?=>` */
  predicate ArrowParenTail(t: string) {
    var u := SkipSpaces(t);
    && StartsWith(u, "=")
    && var v := SkipSpaces(u[1..]);
       var w := if StartsWith(v, "async") then SkipSpaces(v[5..]) else v;
       match ParenGroup(w)
       case Some(x) => ArrowAhead(x)
       case None => false
  }

  /** `\s*=>` */
  predicate OpensArrow(t: string) { StartsWith(SkipSpaces(t), "=>") }

  /** `[A-Za-z_$][A-Za-z0-9_$]*\s*=>`: a single bare parameter and the arrow. */
  predicate BareParam(s: string) { ScriptName(Some(s), OpensArrow).Some? }

  /**
   `\s*=\s*(?:async\s+)?[A-Za-z_$][A-Za-z0-9_$]*\s*=>`. Both branches of the
   optional `async` can lead to a match (`async => 1` has the parameter
   `async`), so both are tried.
   */
  predicate ArrowBareTail(t: string) {
    var u := SkipSpaces(t);
    && StartsWith(u, "=")
    && var v := SkipSpaces(u[1..]);
       || (match Keyword(v, "async") case Some(w) => BareParam(w) case None => false)
       || BareParam(v)
  }

  /** `\([^)]+\)`: a Go method receiver; the text after its closing parenthesis. */
  function Receiver(s: string): (r: Option<string>)
    ensures r.Some? ==> IsSuffix(r.value, s)
  {
    if |s| > 0 && s[0] == '(' then
      var k := Run(s[1..], NotCloseParen);
      if k >= 1 && k + 1 < |s| then Some(s[k + 2..]) else None
    else None
  }

  /** `(?:<[^>]+>\s+)?`: generic parameters of a Rust `impl`, skipped when present and followed by a space. */
  function ImplGenerics(s: string): (r: string)
    ensures IsSuffix(r, s)
  {
    if |s| > 0 && s[0] == '<' then
      var k := Run(s[1..], NotCloseAngle);
      if k >= 1 && k + 1 < |s| then
        match Spaces1(s[k + 2..])
        case Some(u) => u
        case None => s
      else s
    else s
  }

  // ---------------------------------------------------------------------------
  // The recognisers

  /** `^func\s+NAME\s*\(` */
  function GoFuncName(line: string): Option<string> {
    WordName(Keyword(line, "func"), OpensParen)
  }

  /** `^func\s+\([^)]+\)\s+NAME\s*\(` */
  function GoMethodName(line: string): Option<string> {
    match Keyword(line, "func")
    case Some(s) =>
      (match Receiver(s)
       case Some(t) => WordName(Spaces1(t), OpensParen)
       case None => None)
    case None => None
  }

  /** `^type\s+NAME` followed by what `tail` accepts. */
  function GoTypeName(line: string, tail: string -> bool): Option<string> {
    WordName(Keyword(line, "type"), tail)
  }

  /** `^const\s+NAME\s*(?:=|[A-Za-z])` with NAME starting `[A-Z_]`. */
  function GoConstName(line: string): Option<string> {
    match Keyword(line, "const")
    case Some(s) => BacktrackName(s, IsConstStart, IsWordChar, IsAssignOrLetter)
    case None => None
  }

  /** `^<tab>NAME\s*(?:=|[A-Za-z])` with NAME starting `[A-Z_]`. */
  function GoConstMemberName(line: string): Option<string> {
    if |line| > 0 && line[0] == '\t' then BacktrackName(line[1..], IsConstStart, IsWordChar, IsAssignOrLetter)
    else None
  }

  /** `^var\s+NAME\s*(?:=|[A-Za-z\[])` */
  function GoVarName(line: string): Option<string> {
    match Keyword(line, "var")
    case Some(s) => BacktrackName(s, IsWordStart, IsWordChar, IsAssignLetterOrBracket)
    case None => None
  }

  /** `^(?:export\s+)?(?:async\s+)?function\s+NAME` followed by what `tail` accepts. */
  function ScriptFunctionName(line: string, tail: string -> bool): Option<string> {
    ScriptName(Keyword(Optional(Optional(line, "export"), "async"), "function"), tail)
  }

  /** `^(?:export\s+)?kw\s+NAME` followed by what `tail` accepts. */
  function ScriptDeclName(line: string, kw: string, tail: string -> bool): Option<string> {
    ScriptName(Keyword(Optional(line, "export"), kw), tail)
  }

  /** `^(?:export\s+)?(?:abstract\s+)?class\s+NAME` */
  function TsClassName(line: string): Option<string> {
    ScriptName(Keyword(Optional(Optional(line, "export"), "abstract"), "class"), Anything)
  }

  /** `^(?:async\s+)?def\s+NAME\s*\(` */
  function PyDefName(line: string): Option<string> {
    WordName(Keyword(Optional(line, "async"), "def"), OpensParen)
  }

  /** `^(?:pub\s+)?(?:async\s+)?fn\s+NAME\s*[<(]` */
  function RustFnName(line: string): Option<string> {
    WordName(Keyword(Optional(Optional(line, "pub"), "async"), "fn"), OpensParenOrAngle)
  }

  /** `^(?:pub\s+)?kw\s+NAME` */
  function RustDeclName(line: string, kw: string): Option<string> {
    WordName(Keyword(Optional(line, "pub"), kw), Anything)
  }

  /** `^impl\s+(?:<[^>]+>\s+)?NAME` */
  function RustImplName(line: string): Option<string> {
    match Keyword(line, "impl")
    case Some(s) => WordName(Some(ImplGenerics(s)), Anything)
    case None => None
  }

  function GoStructName(line: string): Option<string> { GoTypeName(line, StructTail) }
  function GoInterfaceName(line: string): Option<string> { GoTypeName(line, InterfaceTail) }
  function GoAliasName(line: string): Option<string> { GoTypeName(line, AliasTail) }
  function GoNamedTypeName(line: string): Option<string> { GoTypeName(line, NamedTypeTail) }
  function TsFunctionName(line: string): Option<string> { ScriptFunctionName(line, OpensParenOrAngle) }
  function JsFunctionName(line: string): Option<string> { ScriptFunctionName(line, OpensParen) }
  function ArrowParenName(line: string): Option<string> { ScriptDeclName(line, "const", ArrowParenTail) }
  function ArrowBareName(line: string): Option<string> { ScriptDeclName(line, "const", ArrowBareTail) }
  function JsClassName(line: string): Option<string> { ScriptDeclName(line, "class", Anything) }
  function TsInterfaceName(line: string): Option<string> { ScriptDeclName(line, "interface", Anything) }
  function TsTypeAliasName(line: string): Option<string> { ScriptDeclName(line, "type", OpensAngleOrEquals) }
  function TsEnumName(line: string): Option<string> { ScriptDeclName(line, "enum", Anything) }

  /** `^class\s+NAME` */
  function PyClassName(line: string): Option<string> { WordName(Keyword(line, "class"), Anything) }

  function RustStructName(line: string): Option<string> { RustDeclName(line, "struct") }
  function RustEnumName(line: string): Option<string> { RustDeclName(line, "enum") }
  function RustTraitName(line: string): Option<string> { RustDeclName(line, "trait") }

  /** The recogniser of each grammar. */
  function RecogniserOf(g: Grammar): string -> Option<string> {
    match g
    case GoFunc => GoFuncName
    case GoMethod => GoMethodName
    case GoStruct => GoStructName
    case GoInterface => GoInterfaceName
    case GoAlias => GoAliasName
    case GoNamedType => GoNamedTypeName
    case GoConst => GoConstName
    case GoConstInBlock => GoConstMemberName
    case GoVar => GoVarName
    case TsFunction => TsFunctionName
    case JsFunction => JsFunctionName
    case ArrowParen => ArrowParenName
    case ArrowBare => ArrowBareName
    case TsClass => TsClassName
    case JsClass => JsClassName
    case TsInterface => TsInterfaceName
    case TsTypeAlias => TsTypeAliasName
    case TsEnum => TsEnumName
    case PyDef => PyDefName
    case PyClass => PyClassName
    case RustFn => RustFnName
    case RustStruct => RustStructName
    case RustEnum => RustEnumName
    case RustTrait => RustTraitName
    case RustImpl => RustImplName
  }

  /** The name the grammar's capture group holds when it matches `line`. */
  function Recognise(g: Grammar, line: string): Option<string> {
    RecogniserOf(g)(line)
  }

  /** `Recognise` at a grammar is that grammar's recogniser, applied to the line. */
  lemma RecogniseAt(g: Grammar, f: string -> Option<string>, line: string)
    requires RecogniserOf(g) == f
    ensures Recognise(g, line) == f(line)
  {
  }
}
