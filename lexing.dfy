/** What the two scanner revisions share: the reserved-word and punctuator
    tables, the diagnostics and their printed form, the per-iteration step
    both scan loops take, and the line accounting every step keeps.

    A scan loop is modelled by one `Step` per iteration of its outer `for`
    loop: the index the next iteration starts at, the line counter after it,
    and what it appended to `tokens` and `errors`.
 */
module Lexing {
  import opened CharClass
  import opened Text

  /** The reserved words and the token kind each one yields. */
  const ReservedKeywords: map<string, string> := map[
    "and" := "AND", "class" := "CLASS", "else" := "ELSE", "false" := "FALSE",
    "for" := "FOR", "fun" := "FUN", "if" := "IF", "nil" := "NIL",
    "or" := "OR", "print" := "PRINT", "return" := "RETURN", "super" := "SUPER",
    "this" := "THIS", "true" := "TRUE", "var" := "VAR", "while" := "WHILE"
  ]

  /** The ten one-byte punctuators and the token line each one prints. */
  const SingleCharTokens: map<Byte, string> := map[
    '(' := "LEFT_PAREN ( null", ')' := "RIGHT_PAREN ) null",
    '{' := "LEFT_BRACE { null", '}' := "RIGHT_BRACE } null",
    ',' := "COMMA , null", '.' := "DOT . null",
    '-' := "MINUS - null", '+' := "PLUS + null",
    ';' := "SEMICOLON ; null", '*' := "STAR * null"
  ]

  /** `kind` is the lower-case ASCII word `w` in upper case. */
  predicate IsKindOf(kind: string, w: string) {
    |kind| == |w| > 0 &&
    forall k :: 0 <= k < |w| ==> 'a' <= w[k] <= 'z' && kind[k] as int == w[k] as int - 32
  }

  /** Every reserved word is a run of lower-case letters (so the identifier
      scan can produce it) and its token kind is the word in upper case. */
  lemma ReservedWordsShape()
    ensures forall w :: w in ReservedKeywords ==> IsKindOf(ReservedKeywords[w], w)
  {
    FirstKinds();
    LastKinds();
  }

  /** The first eight entries of the table, in the order the table lists them. */
  lemma FirstKinds()
    ensures IsKindOf("AND", "and") && IsKindOf("CLASS", "class") && IsKindOf("ELSE", "else")
    ensures IsKindOf("FALSE", "false") && IsKindOf("FOR", "for") && IsKindOf("FUN", "fun")
    ensures IsKindOf("IF", "if") && IsKindOf("NIL", "nil")
  {
  }

  /** The last eight entries. */
  lemma LastKinds()
    ensures IsKindOf("OR", "or") && IsKindOf("PRINT", "print") && IsKindOf("RETURN", "return")
    ensures IsKindOf("SUPER", "super") && IsKindOf("THIS", "this") && IsKindOf("TRUE", "true")
    ensures IsKindOf("VAR", "var") && IsKindOf("WHILE", "while")
  {
  }

  /** Every punctuator line is its kind, the byte itself and `null`. */
  lemma SingleCharTokensShape()
    ensures forall c :: c in SingleCharTokens ==>
      |SingleCharTokens[c]| > 7 &&
      SingleCharTokens[c][|SingleCharTokens[c]| - 7..] == [' ', c, ' ', 'n', 'u', 'l', 'l']
  {
  }

  /** The token line of an identifier-shaped lexeme: a reserved word prints its
      kind, any other run prints as `IDENTIFIER`. */
  function IdentLine(lex: string): (t: string) {
    if lex in ReservedKeywords then ReservedKeywords[lex] + " " + lex + " null"
    else "IDENTIFIER " + lex + " null"
  }

  /** The two lexical errors.  `line` is the line counter when the error is
      recorded; `pos` is the input offset the counter was read at (the end of
      input for an unterminated string).  `pos` is not printed. */
  datatype Diagnostic =
    | UnterminatedString(line: int, pos: nat)
    | UnexpectedCharacter(line: int, pos: nat, c: Byte)

  function UnterminatedMessage(line: int): (t: string) {
    "[line " + IntText(line) + "] Error: Unterminated string."
  }

  function UnexpectedMessage(line: int, c: Byte): (t: string) {
    "[line " + IntText(line) + "] Error: Unexpected character: " + RuneText(c)
  }

  /** The line a diagnostic prints as. */
  function Message(d: Diagnostic): (t: string) {
    match d
    case UnterminatedString(line, _) => UnterminatedMessage(line)
    case UnexpectedCharacter(line, _, c) => UnexpectedMessage(line, c)
  }

  function Messages(ds: seq<Diagnostic>): (ts: seq<string>) {
    seq(|ds|, k requires 0 <= k < |ds| => Message(ds[k]))
  }

  lemma MessagesConcat(a: seq<Diagnostic>, b: seq<Diagnostic>)
    ensures Messages(a + b) == Messages(a) + Messages(b)
  {
  }

  /** What one iteration of a scan loop does. */
  datatype Step = Step(next: nat, line: int, tokens: seq<string>, errors: seq<Diagnostic>)

  /** What a scan from some index to the end of input produces. */
  datatype Lexed = Lexed(tokens: seq<string>, errors: seq<Diagnostic>, line: int)

  function Then(st: Step, rest: Lexed): (r: Lexed) {
    Lexed(st.tokens + rest.tokens, st.errors + rest.errors, rest.line)
  }

  /** Diagnostics recorded while scanning `s[i..j]` with the counter at `line`
      on entry: each is read at an offset in that range, its line is the entry
      line plus the newlines scanned before that offset, and the offsets come
      in input order. */
  ghost predicate DiagnosticsAt(s: seq<Byte>, i: nat, j: nat, line: int, ds: seq<Diagnostic>)
    requires i <= j <= |s|
  {
    (forall k :: 0 <= k < |ds| ==>
      i <= ds[k].pos <= j && ds[k].line == line + Newlines(s[i..ds[k].pos])) &&
    (forall k1, k2 :: 0 <= k1 <= k2 < |ds| ==> ds[k1].pos <= ds[k2].pos)
  }

  /** A well-behaved loop iteration at `i`: it consumes at least one byte and
      never reads past the end, and the line counter grows by exactly the
      newlines it consumed. */
  ghost predicate StepOk(s: seq<Byte>, i: nat, line: int, st: Step)
    requires i < |s|
  {
    i < st.next <= |s| &&
    st.line == line + Newlines(s[i..st.next]) &&
    DiagnosticsAt(s, i, st.next, line, st.errors)
  }

  /** A well-behaved scan of `s[i..]`. */
  ghost predicate LexedOk(s: seq<Byte>, i: nat, line: int, r: Lexed)
    requires i <= |s|
  {
    r.line == line + Newlines(s[i..]) && DiagnosticsAt(s, i, |s|, line, r.errors)
  }

  /** Diagnostics of `s[i..j]` followed by those of `s[j..k]`, the second
      scan entered with the line counter the first left, are those of `s[i..k]`. */
  lemma DiagnosticsConcat(s: seq<Byte>, i: nat, j: nat, k: nat, line: int, ds1: seq<Diagnostic>, ds2: seq<Diagnostic>)
    requires i <= j <= k <= |s|
    requires DiagnosticsAt(s, i, j, line, ds1)
    requires DiagnosticsAt(s, j, k, line + Newlines(s[i..j]), ds2)
    ensures DiagnosticsAt(s, i, k, line, ds1 + ds2)
  {
    var ds := ds1 + ds2;
    forall m | 0 <= m < |ds|
      ensures i <= ds[m].pos <= k && ds[m].line == line + Newlines(s[i..ds[m].pos])
    {
      if m >= |ds1| {
        assert ds[m] == ds2[m - |ds1|];
        NewlinesSplit(s, i, j, ds[m].pos);
      } else {
        assert ds[m] == ds1[m];
      }
    }
    forall m1, m2 | 0 <= m1 <= m2 < |ds|
      ensures ds[m1].pos <= ds[m2].pos
    {
      if m1 < |ds1| {
        assert ds[m1] == ds1[m1];
      } else {
        assert ds[m1] == ds2[m1 - |ds1|];
      }
      if m2 < |ds1| {
        assert ds[m2] == ds1[m2];
      } else {
        assert ds[m2] == ds2[m2 - |ds1|];
      }
    }
  }

  /** A well-behaved iteration followed by a well-behaved scan of the rest is a
      well-behaved scan. */
  lemma ThenOk(s: seq<Byte>, i: nat, line: int, st: Step, rest: Lexed)
    requires i < |s| && StepOk(s, i, line, st)
    requires LexedOk(s, st.next, st.line, rest)
    ensures LexedOk(s, i, line, Then(st, rest))
  {
    NewlinesSplit(s, i, st.next, |s|);
    assert s[i..] == s[i..|s|] && s[st.next..] == s[st.next..|s|];
    DiagnosticsConcat(s, i, st.next, |s|, line, st.errors, rest.errors);
  }

  /** The end offset of the number starting at `i` and whether it has a `.`:
      the integer digits, then, when a `.` follows them, the dot and the digits
      after it (possibly none). */
  function NumberEnd(s: seq<Byte>, i: nat): (r: (nat, bool))
    requires i < |s|
    ensures i < r.0 <= |s|
    ensures forall m :: i < m < r.0 ==> IsDigit(s[m]) || s[m] == '.'
    ensures r.1 ==> RunEnd(s, i + 1, IsDigit) < r.0 && s[RunEnd(s, i + 1, IsDigit)] == '.'
  {
    var d := RunEnd(s, i + 1, IsDigit);
    if d < |s| && s[d] == '.' then (RunEnd(s, d + 1, IsDigit), true) else (d, false)
  }

  /** The iteration that starts at a `"`: scan to the closing quote, counting
      newlines; an unterminated string records one error and ends the scan. */
  function StringStep(s: seq<Byte>, i: nat, line: int): (st: Step)
    requires i < |s| && s[i] == '"'
    ensures i < st.next <= |s|
  {
    var k := Find(s, i + 1, '"');
    var l := line + Newlines(s[i + 1..k]);
    if k == |s| then Step(|s|, l, [], [UnterminatedString(l, |s|)])
    else Step(k + 1, l, [StringLine(s[i..k + 1], s[i + 1..k])], [])
  }

  /** `StringStep` once the closing quote is known to be at `k`. */
  lemma StringStepClosed(s: seq<Byte>, i: nat, k: nat, line: int)
    requires i < k < |s| && s[i] == '"' && Find(s, i + 1, '"') == k
    ensures StringStep(s, i, line) == Step(k + 1, line + Newlines(s[i + 1..k]), [StringLine(s[i..k + 1], s[i + 1..k])], [])
  {
  }

  /** `StringStep` once no closing quote is known to follow. */
  lemma StringStepOpen(s: seq<Byte>, i: nat, line: int)
    requires i < |s| && s[i] == '"' && Find(s, i + 1, '"') == |s|
    ensures var l := line + Newlines(s[i + 1..|s|]);
      StringStep(s, i, line) == Step(|s|, l, [], [UnterminatedString(l, |s|)])
  {
  }

  /** The line printed for a STRING token: the quoted lexeme, then its body. */
  function StringLine(lex: string, body: string): (t: string) {
    "STRING " + lex + " " + body
  }

  /** The iteration that starts at a letter or `_`: the longest run of
      identifier bytes, looked up in the reserved table. */
  function IdentifierStep(s: seq<Byte>, i: nat, line: int): (st: Step)
    requires i < |s| && IsLetterOrUnderscore(s[i])
    ensures i < st.next <= |s|
  {
    var e := RunEnd(s, i + 1, IsIdentChar);
    Step(e, line, [IdentLine(s[i..e])], [])
  }

  /** The iteration at a byte no rule accepts: one error, no token. */
  function UnexpectedStep(s: seq<Byte>, i: nat, line: int): (st: Step)
    requires i < |s|
    ensures i < st.next <= |s|
  {
    Step(i + 1, line, [], [UnexpectedCharacter(line, i, s[i])])
  }

  /** The iteration at `//`: the comment runs up to, not including, the next
      newline, which the following iteration counts. */
  function CommentStep(s: seq<Byte>, i: nat, line: int): (st: Step)
    requires i < |s| && s[i] != '\n'
    ensures i < st.next <= |s|
  {
    Step(Find(s, i, '\n'), line, [], [])
  }

  /** A string iteration raises the counter by the newlines inside the quotes. */
  lemma StringStepOk(s: seq<Byte>, i: nat, line: int)
    requires i < |s| && s[i] == '"'
    ensures StepOk(s, i, line, StringStep(s, i, line))
  {
    var k := Find(s, i + 1, '"');
    NoNewlines(s, i, i + 1);
    NewlinesSplit(s, i, i + 1, k);
    if k < |s| {
      NewlinesExtend(s, i, k);
    }
  }

  /** An identifier iteration consumes no newline. */
  lemma IdentifierStepOk(s: seq<Byte>, i: nat, line: int)
    requires i < |s| && IsLetterOrUnderscore(s[i])
    ensures StepOk(s, i, line, IdentifierStep(s, i, line))
  {
    NoNewlines(s, i, RunEnd(s, i + 1, IsIdentChar));
  }

  /** An unexpected byte other than a newline consumes no newline. */
  lemma UnexpectedStepOk(s: seq<Byte>, i: nat, line: int)
    requires i < |s| && s[i] != '\n'
    ensures StepOk(s, i, line, UnexpectedStep(s, i, line))
  {
    NoNewlines(s, i, i + 1);
  }

  /** A comment stops before the newline that ends it. */
  lemma CommentStepOk(s: seq<Byte>, i: nat, line: int)
    requires i < |s| && s[i] != '\n'
    ensures StepOk(s, i, line, CommentStep(s, i, line))
  {
    NoNewlines(s, i, Find(s, i, '\n'));
  }

  /** Over a whole input, the lines of the diagnostics never decrease, start
      at 1, and each is 1 plus the newlines before the offset it was read at. */
  lemma DiagnosticLines(s: seq<Byte>, ds: seq<Diagnostic>)
    requires DiagnosticsAt(s, 0, |s|, 1, ds)
    ensures forall k :: 0 <= k < |ds| ==> ds[k].line == 1 + Newlines(s[..ds[k].pos]) >= 1
    ensures forall k1, k2 :: 0 <= k1 <= k2 < |ds| ==> ds[k1].line <= ds[k2].line
  {
    forall k | 0 <= k < |ds| ensures ds[k].line == 1 + Newlines(s[..ds[k].pos]) {
      assert s[..ds[k].pos] == s[0..ds[k].pos];
    }
    forall k1, k2 | 0 <= k1 <= k2 < |ds| ensures ds[k1].line <= ds[k2].line {
      NewlinesSplit(s, 0, ds[k1].pos, ds[k2].pos);
    }
  }
}
