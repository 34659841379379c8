/** The complete scanner revision, `Tokenize` in cmd/myinterpreter/tokenize.go.

    `StepAt` is one iteration of its outer `for` loop, `ScanFrom` the loop
    from some index to the end of input, and `Tokenized` the whole function:
    the token lines followed by `EOF  null` when no error was recorded, and
    otherwise the error lines printed to standard error and exit status 65.
    The method `Tokenize` is the loop as written, proved equal to `Tokenized`.
 */
module Scanner {
  import opened CharClass
  import opened Text
  import opened Lexing

  /** `h` is the fraction `f` in canonical form: nonempty, not ending in `0`
      unless it is `0` itself, and either `f` with only trailing zeros
      dropped, or `0` when `f` is all zeros. */
  predicate CanonicalFraction(h: string, f: string) {
    h != [] && (h == "0" || h[|h| - 1] != '0') &&
    ((|h| <= |f| && f[..|h|] == h && forall k :: |h| <= k < |f| ==> f[k] == '0') ||
     (h == "0" && forall k :: 0 <= k < |f| ==> f[k] == '0'))
  }

  /** The literal of a NUMBER token: an integer lexeme gains `.0`; a lexeme
      with a `.` keeps everything up to its first `.` and then the canonical
      form of the digits after it. */
  function NumberLiteral(lex: string, isFloat: bool): (lit: string)
    ensures !isFloat ==> |lit| == |lex| + 2 && lit[..|lex|] == lex && lit[|lex|..] == ".0"
    ensures isFloat && '.' in lex ==>
      var dot := IndexOf(lex, '.');
      |lit| > dot + 1 && lit[..dot + 1] == lex[..dot + 1] &&
      CanonicalFraction(lit[dot + 1..], lex[dot + 1..])
    ensures isFloat && '.' !in lex ==> lit == ""
  {
    if isFloat then
      var dot := IndexOf(lex, '.');
      if dot != -1 then
        assert lex[..dot + 1] == lex[..dot] + ".";
        FloatLiteral(lex[..dot], lex[dot + 1..])
      else ""
    else lex + ".0"
  }

  /** The float branch: the integer part, `.`, and the fraction digits
      trimmed of trailing zeros, or `0` when nothing remains. */
  function FloatLiteral(integerPart: string, digits: string): (lit: string)
    ensures |lit| > |integerPart| + 1 && lit[..|integerPart| + 1] == integerPart + "."
    ensures CanonicalFraction(lit[|integerPart| + 1..], digits)
  {
    var fractionalPart := TrimRight(digits, '0');
    var lit := if fractionalPart == "" then integerPart + ".0" else integerPart + "." + fractionalPart;
    assert lit[|integerPart| + 1..] == if fractionalPart == "" then "0" else fractionalPart;
    lit
  }

  /** The line printed for a NUMBER token. */
  function NumberLine(lex: string, isFloat: bool): (t: string) {
    "NUMBER " + lex + " " + NumberLiteral(lex, isFloat)
  }

  /** `=`, `!`, `<`, `>`: longest match with one byte of lookahead. */
  function OperatorStep(s: seq<Byte>, i: nat, line: int): (st: Step)
    requires i < |s| && IsOperatorByte(s[i])
    ensures i < st.next <= |s|
  {
    var c := s[i];
    if i + 1 < |s| && s[i + 1] == '=' then
      Step(i + 2, line, [if c == '=' then "EQUAL_EQUAL == null"
                         else if c == '!' then "BANG_EQUAL != null"
                         else if c == '<' then "LESS_EQUAL <= null"
                         else "GREATER_EQUAL >= null"], [])
    else
      Step(i + 1, line, [if c == '=' then "EQUAL = null"
                         else if c == '!' then "BANG ! null"
                         else if c == '<' then "LESS < null"
                         else "GREATER > null"], [])
  }

  /** `/`: a comment when another `/` follows, otherwise SLASH. */
  function SlashStep(s: seq<Byte>, i: nat, line: int): (st: Step)
    requires i < |s| && s[i] == '/'
    ensures i < st.next <= |s|
  {
    if i + 1 < |s| && s[i + 1] == '/' then CommentStep(s, i, line)
    else Step(i + 1, line, ["SLASH / null"], [])
  }

  /** A digit: the number lexeme and its canonical literal. */
  function NumberStep(s: seq<Byte>, i: nat, line: int): (st: Step)
    requires i < |s| && IsDigit(s[i])
    ensures i < st.next <= |s|
  {
    var r := NumberEnd(s, i);
    Step(r.0, line, [NumberLine(s[i..r.0], r.1)], [])
  }

  /** One iteration of the scan loop at index `i` with the counter at `line`. */
  function StepAt(s: seq<Byte>, i: nat, line: int): (st: Step)
    requires i < |s|
    ensures i < st.next <= |s|
  {
    var c := s[i];
    if c == '\n' then Step(i + 1, line + 1, [], [])
    else if IsWhitespace(c) then Step(i + 1, line, [], [])
    else if c in SingleCharTokens then Step(i + 1, line, [SingleCharTokens[c]], [])
    else LexemeStep(s, i, line)
  }

  /** An iteration at a byte that is neither a newline, whitespace nor a
      punctuator: an operator, a slash, a string, an identifier, a number, or
      an unexpected character. */
  function LexemeStep(s: seq<Byte>, i: nat, line: int): (st: Step)
    requires i < |s|
    ensures i < st.next <= |s|
  {
    var c := s[i];
    if IsOperatorByte(c) then OperatorStep(s, i, line)
    else if c == '/' then SlashStep(s, i, line)
    else if c == '"' then StringStep(s, i, line)
    else if IsLetterOrUnderscore(c) then IdentifierStep(s, i, line)
    else if IsDigit(c) then NumberStep(s, i, line)
    else UnexpectedStep(s, i, line)
  }

  /** The scan loop from index `i` to the end of input. */
  function ScanFrom(s: seq<Byte>, i: nat, line: int): (r: Lexed)
    requires i <= |s|
    decreases |s| - i
  {
    if i == |s| then Lexed([], [], line)
    else
      var st := StepAt(s, i, line);
      Then(st, ScanFrom(s, st.next, st.line))
  }

  /** One iteration of the loop, then the rest of it. */
  lemma ScanUnfold(s: seq<Byte>, i: nat, line: int)
    requires i < |s|
    ensures var st := StepAt(s, i, line);
      ScanFrom(s, i, line) == Then(st, ScanFrom(s, st.next, st.line))
  {
  }

  /** At the end of input the loop adds nothing. */
  lemma ScanEnd(s: seq<Byte>, line: int)
    ensures ScanFrom(s, |s|, line) == Lexed([], [], line)
  {
  }

  /** The iteration at a `"` is the string case. */
  lemma DispatchString(s: seq<Byte>, i: nat, line: int)
    requires i < |s| && s[i] == '"'
    ensures StepAt(s, i, line) == StringStep(s, i, line)
  {
  }

  /** The iteration at a letter or `_` is the identifier case. */
  lemma DispatchIdentifier(s: seq<Byte>, i: nat, line: int)
    requires i < |s| && IsLetterOrUnderscore(s[i])
    ensures StepAt(s, i, line) == IdentifierStep(s, i, line)
  {
    ClassesDisjoint(s[i]);
  }

  /** The iteration at a digit is the number case. */
  lemma DispatchNumber(s: seq<Byte>, i: nat, line: int)
    requires i < |s| && IsDigit(s[i])
    ensures StepAt(s, i, line) == NumberStep(s, i, line)
  {
    ClassesDisjoint(s[i]);
  }

  /** Every iteration consumes at least one byte, stays within the input, and
      raises the line counter by exactly the newlines it consumed. */
  lemma StepAtOk(s: seq<Byte>, i: nat, line: int)
    requires i < |s|
    ensures StepOk(s, i, line, StepAt(s, i, line))
  {
    var c := s[i];
    if c == '\n' {
      NewlinesExtend(s, i, i);
    } else if IsWhitespace(c) || c in SingleCharTokens {
      NoNewlines(s, i, i + 1);
    } else {
      LexemeStepOk(s, i, line);
    }
  }

  /** The same for the iterations that start a lexeme. */
  lemma LexemeStepOk(s: seq<Byte>, i: nat, line: int)
    requires i < |s| && s[i] != '\n'
    ensures StepOk(s, i, line, LexemeStep(s, i, line))
  {
    var c := s[i];
    if IsOperatorByte(c) {
      NoNewlines(s, i, OperatorStep(s, i, line).next);
    } else if c == '/' {
      if i + 1 < |s| && s[i + 1] == '/' {
        CommentStepOk(s, i, line);
      } else {
        NoNewlines(s, i, i + 1);
      }
    } else if c == '"' {
      StringStepOk(s, i, line);
    } else if IsLetterOrUnderscore(c) {
      IdentifierStepOk(s, i, line);
    } else if IsDigit(c) {
      NoNewlines(s, i, NumberEnd(s, i).0);
    } else {
      UnexpectedStepOk(s, i, line);
    }
  }

  /** The whole scan from `i` keeps the line accounting of every iteration. */
  lemma {:induction false} ScanFromOk(s: seq<Byte>, i: nat, line: int)
    requires i <= |s|
    ensures LexedOk(s, i, line, ScanFrom(s, i, line))
    decreases |s| - i
  {
    if i == |s| {
      assert s[i..] == [];
    } else {
      var st := StepAt(s, i, line);
      StepAtOk(s, i, line);
      ScanFromOk(s, st.next, st.line);
      ThenOk(s, i, line, st, ScanFrom(s, st.next, st.line));
    }
  }

  /** How a call of `Tokenize` ends. */
  datatype Outcome =
    | Tokens(lines: seq<string>)               // returned: the token lines
    | Exit(status: int, stderr: seq<string>)   // errors printed, then os.Exit

  const EofLine := "EOF  null"

  /** What `Tokenize(contents)` does. */
  function Tokenized(s: seq<Byte>): (o: Outcome) {
    var r := ScanFrom(s, 0, 1);
    if r.errors == [] then Tokens(r.tokens + [EofLine]) else Exit(65, Messages(r.errors))
  }

  /** A case of the loop body, which leaves the index on `last` for the loop's
      own increment, has done what the iteration `st` describes to the
      counter and the two lists. */
  ghost predicate Performs(st: Step, last: int, line: int, tokens: seq<string>, errors: seq<string>,
                           tokens0: seq<string>, errors0: seq<string>)
  {
    last + 1 == st.next && line == st.line &&
    tokens == tokens0 + st.tokens && errors == errors0 + Messages(st.errors)
  }

  /** Appending an iteration's tokens and errors, and then the rest of the
      scan's, appends what `Then` composes. */
  lemma ThenAppends(st: Step, rest: Lexed, tokens0: seq<string>, tokens: seq<string>, diags: seq<Diagnostic>)
    requires tokens == tokens0 + st.tokens
    ensures tokens0 + Then(st, rest).tokens == tokens + rest.tokens
    ensures diags + Then(st, rest).errors == (diags + st.errors) + rest.errors
  {
  }

  /** The cases `=`, `!`, `<`, `>`: a following `=` makes the two-byte token. */
  method ScanOperator(contents: seq<Byte>, i: nat, ghost line: int, tokens: seq<string>)
    returns (last: nat, out: seq<string>)
    requires i < |contents| && IsOperatorByte(contents[i])
    ensures Performs(OperatorStep(contents, i, line), last, line, out, [], tokens, [])
  {
    var n := |contents|;
    var c := contents[i];
    last := i;
    if c == '=' {
      if i + 1 < n && contents[i + 1] == '=' {
        out := tokens + ["EQUAL_EQUAL == null"];
        last := i + 1;
      } else {
        out := tokens + ["EQUAL = null"];
      }
    } else if c == '!' {
      if i + 1 < n && contents[i + 1] == '=' {
        out := tokens + ["BANG_EQUAL != null"];
        last := i + 1;
      } else {
        out := tokens + ["BANG ! null"];
      }
    } else if c == '<' {
      if i + 1 < n && contents[i + 1] == '=' {
        out := tokens + ["LESS_EQUAL <= null"];
        last := i + 1;
      } else {
        out := tokens + ["LESS < null"];
      }
    } else {
      if i + 1 < n && contents[i + 1] == '=' {
        out := tokens + ["GREATER_EQUAL >= null"];
        last := i + 1;
      } else {
        out := tokens + ["GREATER > null"];
      }
    }
  }

  /** The case `/`: a comment when another `/` follows, else SLASH. */
  method ScanSlash(contents: seq<Byte>, i0: nat, ghost line: int, tokens: seq<string>)
    returns (i: int, out: seq<string>)
    requires i0 < |contents| && contents[i0] == '/'
    ensures Performs(SlashStep(contents, i0, line), i, line, out, [], tokens, [])
  {
    var n := |contents|;
    i, out := i0, tokens;
    if i + 1 < n && contents[i + 1] == '/' {
      while i < n && contents[i] != '\n'
        invariant i0 <= i <= n
        invariant Find(contents, i, '\n') == Find(contents, i0, '\n')
      {
        i := i + 1;
      }
      i := i - 1;
    } else {
      out := tokens + ["SLASH / null"];
    }
  }

  /** The case `"`: scan to the closing quote counting newlines, then emit the
      STRING token, or record the unterminated-string error. */
  method ScanString(contents: seq<Byte>, start: nat, line0: int, tokens: seq<string>, errors: seq<string>)
    returns (i: nat, line: int, out: seq<string>, outErrors: seq<string>)
    requires start < |contents| && contents[start] == '"'
    ensures Performs(StringStep(contents, start, line0), i, line, out, outErrors, tokens, errors)
  {
    var n := |contents|;
    i, line := SkipStringBody(contents, start, line0);
    out, outErrors := tokens, errors;
    if i + 1 >= n {
      OpenStringPerforms(contents, start, i, line0, line, tokens, errors);
      outErrors := errors + [UnterminatedMessage(line)];
    } else {
      var k := i + 1;
      ClosedStringPerforms(contents, start, k, line0, line, tokens, errors);
      out := tokens + [StringLine(contents[start..k + 1], contents[start + 1..k])];
      i := k;
    }
  }

  /** With no closing quote, the `"` case ends on the last byte and records
      the unterminated-string error on the line it reached. */
  lemma OpenStringPerforms(s: seq<Byte>, i: nat, last: nat, line0: int, line: int,
                           tokens: seq<string>, errors: seq<string>)
    requires i <= last && last + 1 == |s| && s[i] == '"' && Find(s, i + 1, '"') == |s|
    requires line == line0 + Newlines(s[i + 1..|s|])
    ensures Performs(StringStep(s, i, line0), last, line, tokens, errors + [UnterminatedMessage(line)], tokens, errors)
  {
    StringStepOpen(s, i, line0);
    assert Messages([UnterminatedString(line, |s|)]) == [UnterminatedMessage(line)];
  }

  /** With the closing quote at `k`, the `"` case ends on it and emits the
      STRING line, with the body's newlines counted. */
  lemma ClosedStringPerforms(s: seq<Byte>, i: nat, k: nat, line0: int, line: int,
                             tokens: seq<string>, errors: seq<string>)
    requires i < k < |s| && s[i] == '"' && Find(s, i + 1, '"') == k
    requires line == line0 + Newlines(s[i + 1..k])
    ensures Performs(StringStep(s, i, line0), k, line, tokens + [StringLine(s[i..k + 1], s[i + 1..k])], errors, tokens, errors)
  {
    StringStepClosed(s, i, k, line0);
  }

  /** The inner loop of the `"` case: advance `i` while the next byte is
      not a quote, counting the newlines passed. It stops just before the
      closing quote, or on the last byte when there is none. */
  method SkipStringBody(contents: seq<Byte>, start: nat, line0: int) returns (i: nat, line: int)
    requires start < |contents|
    ensures start <= i < |contents| && Find(contents, start + 1, '"') == i + 1
    ensures line == line0 + Newlines(contents[start + 1..i + 1])
  {
    var n := |contents|;
    i, line := start, line0;
    while i + 1 < n && contents[i + 1] != '"'
      invariant start <= i < n
      invariant Find(contents, i + 1, '"') == Find(contents, start + 1, '"')
      invariant line == line0 + Newlines(contents[start + 1..i + 1])
    {
      NewlinesExtend(contents, start + 1, i + 1);
      if contents[i + 1] == '\n' {
        line := line + 1;
      }
      i := i + 1;
    }
  }

  /** A letter or `_`: the longest run of letters, digits and `_`, looked up
      in the reserved table. */
  method ScanIdentifier(contents: seq<Byte>, start: nat, ghost line: int, tokens: seq<string>)
    returns (i: nat, out: seq<string>)
    requires start < |contents| && IsLetterOrUnderscore(contents[start])
    ensures Performs(IdentifierStep(contents, start, line), i, line, out, [], tokens, [])
  {
    var n := |contents|;
    i := start;
    while i + 1 < n && (IsLetter(contents[i + 1]) || IsDigit(contents[i + 1]) || contents[i + 1] == '_')
      invariant start <= i < n
      invariant RunEnd(contents, i + 1, IsIdentChar) == RunEnd(contents, start + 1, IsIdentChar)
    {
      i := i + 1;
    }
    var lex := contents[start..i + 1];
    if lex in ReservedKeywords {
      out := tokens + [ReservedKeywords[lex] + " " + lex + " null"];
    } else {
      out := tokens + ["IDENTIFIER " + lex + " null"];
    }
  }

  /** A digit: the integer digits, then a `.` and the digits after it when a
      `.` follows, with the literal canonicalised. */
  method ScanNumber(contents: seq<Byte>, start: nat, ghost line: int, tokens: seq<string>)
    returns (i: nat, out: seq<string>)
    requires start < |contents| && IsDigit(contents[start])
    ensures Performs(NumberStep(contents, start, line), i, line, out, [], tokens, [])
  {
    var n := |contents|;
    i := start;
    var isFloat := false;
    while i + 1 < n && IsDigit(contents[i + 1])
      invariant start <= i < n
      invariant RunEnd(contents, i + 1, IsDigit) == RunEnd(contents, start + 1, IsDigit)
    {
      i := i + 1;
    }
    if i + 1 < n && contents[i + 1] == '.' {
      isFloat := true;
      i := i + 1;
      ghost var dot := i;
      while i + 1 < n && IsDigit(contents[i + 1])
        invariant dot <= i < n
        invariant RunEnd(contents, i + 1, IsDigit) == RunEnd(contents, dot + 1, IsDigit)
      {
        i := i + 1;
      }
    }
    assert NumberEnd(contents, start) == (i + 1, isFloat);
    var lex := contents[start..i + 1];
    var lit := NumberLiteral(lex, isFloat);
    out := tokens + ["NUMBER " + lex + " " + lit];
  }

  /** The remaining cases of the loop body, those that start a lexeme. */
  method ScanLexeme(contents: seq<Byte>, i0: nat, line0: int, tokens0: seq<string>, errors0: seq<string>)
    returns (i: int, line: int, tokens: seq<string>, errors: seq<string>)
    requires i0 < |contents|
    ensures Performs(LexemeStep(contents, i0, line0), i, line, tokens, errors, tokens0, errors0)
  {
    i, line, tokens, errors := i0, line0, tokens0, errors0;
    var c := contents[i];
    if IsOperatorByte(c) {
      i, tokens := ScanOperator(contents, i, line, tokens);
    } else if c == '/' {
      i, tokens := ScanSlash(contents, i, line, tokens);
    } else if c == '"' {
      i, line, tokens, errors := ScanString(contents, i, line, tokens, errors);
    } else if IsLetter(c) || c == '_' {
      i, tokens := ScanIdentifier(contents, i, line, tokens);
    } else if IsDigit(c) {
      i, tokens := ScanNumber(contents, i, line, tokens);
    } else {
      errors := errors + [UnexpectedMessage(line, c)];
    }
  }

  /** The `switch` of the loop body: the index of the last byte the
      iteration consumed, and the counter and lists after it. */
  method ScanCase(contents: seq<Byte>, i0: nat, line0: int, tokens0: seq<string>, errors0: seq<string>)
    returns (i: int, line: int, tokens: seq<string>, errors: seq<string>)
    requires i0 < |contents|
    ensures Performs(StepAt(contents, i0, line0), i, line, tokens, errors, tokens0, errors0)
  {
    i, line, tokens, errors := i0, line0, tokens0, errors0;
    var c := contents[i];
    if c == '\n' {
      line := line + 1;
    } else if IsWhitespace(c) {
      // whitespace is skipped
    } else if c in SingleCharTokens {
      tokens := tokens + [SingleCharTokens[c]];
    } else {
      i, line, tokens, errors := ScanLexeme(contents, i, line, tokens, errors);
    }
  }

  /** The loop invariant of `Tokenize` survives one iteration. */
  lemma ScanAdvance(s: seq<Byte>, i: nat, line: int, tokens0: seq<string>, diags: seq<Diagnostic>, full: Lexed)
    requires i < |s|
    requires full == Lexed(tokens0 + ScanFrom(s, i, line).tokens, diags + ScanFrom(s, i, line).errors, ScanFrom(s, i, line).line)
    ensures var st := StepAt(s, i, line); var rest := ScanFrom(s, st.next, st.line);
      full == Lexed((tokens0 + st.tokens) + rest.tokens, (diags + st.errors) + rest.errors, rest.line)
  {
    var st := StepAt(s, i, line);
    var rest := ScanFrom(s, st.next, st.line);
    ScanUnfold(s, i, line);
    ThenAppends(st, rest, tokens0, tokens0 + st.tokens, diags);
  }

  /** Once the whole scan is known, `Tokenized` exits exactly when an error
      line was recorded. */
  lemma TokenizedOf(s: seq<Byte>, tokens: seq<string>, diags: seq<Diagnostic>, errors: seq<string>)
    requires ScanFrom(s, 0, 1).tokens == tokens && ScanFrom(s, 0, 1).errors == diags
    requires errors == Messages(diags)
    ensures Tokenized(s) == if |errors| > 0 then Exit(65, errors) else Tokens(tokens + [EofLine])
  {
  }

  /** The scan loop of tokenize.go: one pass with index `i`, the counter
      `line`, and the growing `tokens` and `errors`; the cases with inner
      loops or lookahead are the methods above. */
  method Tokenize(contents: seq<Byte>) returns (out: Outcome)
    ensures out == Tokenized(contents)
  {
    var n := |contents|;
    var line := 1;
    var tokens: seq<string> := [];
    var errors: seq<string> := [];
    ghost var diags: seq<Diagnostic> := [];
    ghost var full := ScanFrom(contents, 0, 1);
    var i := 0;
    while i < n
      invariant 0 <= i <= n
      invariant errors == Messages(diags)
      invariant full == Lexed(tokens + ScanFrom(contents, i, line).tokens,
                              diags + ScanFrom(contents, i, line).errors,
                              ScanFrom(contents, i, line).line)
      decreases n - i
    {
      ghost var st := StepAt(contents, i, line);
      ghost var i0, line0, tokens0, errors0 := i, line, tokens, errors;
      i, line, tokens, errors := ScanCase(contents, i, line, tokens, errors);
      i := i + 1;
      assert i == st.next && line == st.line && tokens == tokens0 + st.tokens && errors == errors0 + Messages(st.errors);
      ScanAdvance(contents, i0, line0, tokens0, diags, full);
      MessagesConcat(diags, st.errors);
      diags := diags + st.errors;
    }
    ScanEnd(contents, line);
    TokenizedOf(contents, tokens, diags, errors);
    if |errors| > 0 {
      out := Exit(65, errors);
    } else {
      out := Tokens(tokens + ["EOF  null"]);
    }
  }
}
