/** What the scan loop of tokenize.go promises, proved about `StepAt`,
    `ScanFrom` and `Tokenized`: one lemma per rule of the loop, the line
    accounting over a whole input, the single `EOF` line, and a few worked
    inputs.
 */
module ScannerFacts {
  import opened CharClass
  import opened Text
  import opened Lexing
  import opened Scanner

  /** The kind of each operator byte on its own; followed by `=` the kind
      gains the suffix `_EQUAL`. */
  const OperatorKinds: map<Byte, string> :=
    map['=' := "EQUAL", '!' := "BANG", '<' := "LESS", '>' := "GREATER"]

  /** The token line of an operator: its kind, the bytes it consumed, `null`. */
  function OperatorLine(c: Byte, compound: bool, lex: string): (t: string)
    requires c in OperatorKinds
  {
    (if compound then OperatorKinds[c] + "_EQUAL" else OperatorKinds[c]) + " " + lex + " null"
  }

  /** Longest match: at `=`, `!`, `<` or `>` a following `=` is consumed with
      it into one compound token; otherwise the byte alone is the token. */
  lemma OperatorLongestMatch(s: seq<Byte>, i: nat, line: int)
    requires i < |s| && IsOperatorByte(s[i])
    ensures var st := StepAt(s, i, line);
      var compound := i + 1 < |s| && s[i + 1] == '=';
      st.next == (if compound then i + 2 else i + 1) && st.line == line && st.errors == [] &&
      st.tokens == [OperatorLine(s[i], compound, s[i..st.next])]
  {
    assert StepAt(s, i, line) == OperatorStep(s, i, line);
    if i + 1 < |s| && s[i + 1] == '=' {
      CompoundOperator(s, i, line);
    } else {
      SimpleOperator(s, i, line);
    }
  }

  /** The one-byte case of `OperatorStep`. */
  lemma SimpleOperator(s: seq<Byte>, i: nat, line: int)
    requires i < |s| && IsOperatorByte(s[i]) && !(i + 1 < |s| && s[i + 1] == '=')
    ensures OperatorStep(s, i, line).tokens == [OperatorLine(s[i], false, s[i..i + 1])]
  {
    var c := s[i];
    assert s[i..i + 1] == [c];
    if c == '=' {
      assert OperatorLine(c, false, "=") == "EQUAL = null";
    } else if c == '!' {
      assert OperatorLine(c, false, "!") == "BANG ! null";
    } else if c == '<' {
      assert OperatorLine(c, false, "<") == "LESS < null";
    } else {
      assert OperatorLine(c, false, ">") == "GREATER > null";
    }
  }

  /** The compound case of `OperatorStep`, one operator byte at a time. */
  lemma CompoundOperator(s: seq<Byte>, i: nat, line: int)
    requires i + 1 < |s| && IsOperatorByte(s[i]) && s[i + 1] == '='
    ensures OperatorStep(s, i, line).tokens == [OperatorLine(s[i], true, s[i..i + 2])]
  {
    var c := s[i];
    assert s[i..i + 2] == [c, '='] by {
      assert s[i..i + 2][0] == c;
    }
    if c == '=' {
      assert OperatorLine(c, true, "==") == "EQUAL_EQUAL == null";
    } else if c == '!' {
      assert OperatorLine(c, true, "!=") == "BANG_EQUAL != null";
    } else if c == '<' {
      assert OperatorLine(c, true, "<=") == "LESS_EQUAL <= null";
    } else {
      assert OperatorLine(c, true, ">=") == "GREATER_EQUAL >= null";
    }
  }

  /** A `//` comment produces nothing up to the first newline at or after it;
      that newline is then scanned as a newline and raises the counter. */
  lemma CommentSkipped(s: seq<Byte>, i: nat, line: int)
    requires i + 1 < |s| && s[i] == '/' && s[i + 1] == '/'
    ensures var e := Find(s, i, '\n');
      (forall m :: i <= m < e ==> s[m] != '\n') && (e == |s| || s[e] == '\n') &&
      ScanFrom(s, i, line) == ScanFrom(s, e, line) &&
      (e < |s| ==> ScanFrom(s, e, line) == ScanFrom(s, e + 1, line + 1))
  {
    assert StepAt(s, i, line) == CommentStep(s, i, line);
  }

  /** A `/` not followed by another `/` is the SLASH token. */
  lemma LoneSlash(s: seq<Byte>, i: nat, line: int)
    requires i < |s| && s[i] == '/' && !(i + 1 < |s| && s[i + 1] == '/')
    ensures var rest := ScanFrom(s, i + 1, line);
      ScanFrom(s, i, line) == Lexed(["SLASH / null"] + rest.tokens, rest.errors, rest.line)
  {
    assert StepAt(s, i, line) == SlashStep(s, i, line);
  }

  /** A string whose closing quote is at `k`: one STRING line whose lexeme
      is the span from quote to quote and whose literal is exactly the bytes
      between them; the rest of the scan resumes after the closing quote with
      the counter raised by the body's newlines. */
  lemma ClosedStringScan(s: seq<Byte>, i: nat, k: nat, line: int)
    requires i < k < |s| && s[i] == '"' && s[k] == '"' && '"' !in s[i + 1..k]
    ensures var rest := ScanFrom(s, k + 1, line + Newlines(s[i + 1..k]));
      ScanFrom(s, i, line) == Lexed([StringLine(s[i..k + 1], s[i + 1..k])] + rest.tokens, rest.errors, rest.line)
  {
    ClosedStringStep(s, i, k, line);
    ScanOneToken(s, i, line, Step(k + 1, line + Newlines(s[i + 1..k]), [StringLine(s[i..k + 1], s[i + 1..k])], []));
  }

  /** The iteration at a `"` whose closing quote is at `k`. */
  lemma ClosedStringStep(s: seq<Byte>, i: nat, k: nat, line: int)
    requires i < k < |s| && s[i] == '"' && s[k] == '"' && '"' !in s[i + 1..k]
    ensures StepAt(s, i, line) == Step(k + 1, line + Newlines(s[i + 1..k]), [StringLine(s[i..k + 1], s[i + 1..k])], [])
  {
    DispatchString(s, i, line);
    ClosedString(s, i, k, line);
  }

  /** An iteration with one token line and no error, then the rest. */
  lemma ScanOneToken(s: seq<Byte>, i: nat, line: int, st: Step)
    requires i < |s| && StepAt(s, i, line) == st && |st.tokens| == 1 && st.errors == []
    ensures var rest := ScanFrom(s, st.next, st.line);
      ScanFrom(s, i, line) == Lexed([st.tokens[0]] + rest.tokens, rest.errors, rest.line)
  {
    assert st.tokens == [st.tokens[0]];
  }

  /** `StringStep` when the first `"` after the opening one is at `k`. */
  lemma ClosedString(s: seq<Byte>, i: nat, k: nat, line: int)
    requires i < k < |s| && s[i] == '"' && s[k] == '"' && '"' !in s[i + 1..k]
    ensures StringStep(s, i, line) == Step(k + 1, line + Newlines(s[i + 1..k]), [StringLine(s[i..k + 1], s[i + 1..k])], [])
  {
    assert forall m :: i + 1 <= m < k ==> s[m] == s[i + 1..k][m - i - 1];
    FindAt(s, i + 1, k, '"');
  }

  /** `StringStep` when no `"` follows the opening one. */
  lemma OpenString(s: seq<Byte>, i: nat, line: int)
    requires i < |s| && s[i] == '"' && '"' !in s[i + 1..]
    ensures StringStep(s, i, line) == Step(|s|, line + Newlines(s[i + 1..]), [], [UnterminatedString(line + Newlines(s[i + 1..]), |s|)])
  {
    assert forall m :: i + 1 <= m < |s| ==> s[m] == s[i + 1..][m - i - 1];
    FindAt(s, i + 1, |s|, '"');
    assert s[i + 1..|s|] == s[i + 1..];
  }

  /** A string with no closing quote: no token, exactly one error at the line
      reached after the body's newlines, and the scan ends there. */
  lemma StringUnterminated(p: seq<Byte>, body: seq<Byte>, line: int)
    requires '"' !in body
    ensures var s := p + ['"'] + body;
      var l := line + Newlines(body);
      ScanFrom(s, |p|, line) == Lexed([], [UnterminatedString(l, |s|)], l) &&
      Messages(ScanFrom(s, |p|, line).errors) == ["[line " + IntText(l) + "] Error: Unterminated string."]
  {
    var s := p + ['"'] + body;
    var i := |p|;
    assert s[i] == '"' && s[i + 1..] == body;
    OpenString(s, i, line);
    DispatchString(s, i, line);
  }

  /** A byte no rule of the loop accepts. */
  predicate Unclassified(c: Byte) {
    !(c == '\n' || IsWhitespace(c) || c in SingleCharTokens || IsOperatorByte(c) ||
      c == '/' || c == '"' || IsLetterOrUnderscore(c) || IsDigit(c))
  }

  /** An iteration records an unexpected-character error exactly when no rule
      accepts its byte. */
  lemma UnexpectedIff(s: seq<Byte>, i: nat, line: int)
    requires i < |s|
    ensures StepAt(s, i, line).errors == [UnexpectedCharacter(line, i, s[i])] <==> Unclassified(s[i])
  {
    var c := s[i];
    if c == '"' {
      DispatchString(s, i, line);
    } else if IsLetterOrUnderscore(c) {
      DispatchIdentifier(s, i, line);
    } else if IsDigit(c) {
      DispatchNumber(s, i, line);
    }
  }

  /** An unexpected byte: one error at the current line, no token, and the
      scan goes on at the next byte with the counter unchanged. */
  lemma UnexpectedContinues(s: seq<Byte>, i: nat, line: int)
    requires i < |s| && Unclassified(s[i])
    ensures var rest := ScanFrom(s, i + 1, line);
      ScanFrom(s, i, line) == Lexed(rest.tokens, [UnexpectedCharacter(line, i, s[i])] + rest.errors, rest.line) &&
      Message(UnexpectedCharacter(line, i, s[i])) == "[line " + IntText(line) + "] Error: Unexpected character: " + RuneText(s[i])
  {
  }

  /** An identifier is the longest run of letters, digits and `_` from a
      letter or `_`, and its line is that whole run's classification. */
  lemma IdentifierMaximalMunch(s: seq<Byte>, i: nat, line: int)
    requires i < |s| && IsLetterOrUnderscore(s[i])
    ensures var st := StepAt(s, i, line);
      i < st.next && (forall m :: i <= m < st.next ==> IsIdentChar(s[m])) &&
      (st.next == |s| || !IsIdentChar(s[st.next])) &&
      st.line == line && st.errors == [] && st.tokens == [IdentLine(s[i..st.next])]
  {
    DispatchIdentifier(s, i, line);
  }

  /** A reserved word prints as its kind, its upper-case spelling; every
      other run prints as IDENTIFIER. */
  lemma IdentLineKinds(lex: string)
    ensures lex in ReservedKeywords ==>
      IsKindOf(ReservedKeywords[lex], lex) && IdentLine(lex) == ReservedKeywords[lex] + " " + lex + " null"
    ensures lex !in ReservedKeywords ==> IdentLine(lex) == "IDENTIFIER " + lex + " null"
  {
    ReservedWordsShape();
  }

  /** `fortune` is one identifier, not the keyword `for` and a remainder. */
  lemma FortuneIsIdentifier()
    ensures Tokenized("fortune") == Tokens(["IDENTIFIER fortune null", EofLine])
  {
    var s: seq<Byte> := "fortune";
    FortuneStep();
    assert ScanFrom(s, 7, 1) == Lexed([], [], 1);
    assert ScanFrom(s, 0, 1) == Then(StepAt(s, 0, 1), ScanFrom(s, 7, 1));
  }

  /** The single iteration over `fortune`. */
  lemma FortuneStep()
    ensures StepAt("fortune", 0, 1) == Step(7, 1, ["IDENTIFIER fortune null"], [])
  {
    var s: seq<Byte> := "fortune";
    assert forall m :: 0 <= m < |s| ==> IsIdentChar(s[m]);
    IdentifierMaximalMunch(s, 0, 1);
    assert s[0..7] == s;
    FortuneNotReserved();
  }

  /** `fortune` is not in the reserved table. */
  lemma FortuneNotReserved()
    ensures IdentLine("fortune") == "IDENTIFIER fortune null"
  {
    assert "fortune" !in ReservedKeywords;
  }

  /** The literal of a float lexeme `d.f`: the integer digits, a `.`, and a
      nonempty fraction without trailing zeros (`0` when `f` is all zeros)
      that is `f` with only zeros dropped from its end. */
  lemma FloatLiteralCanonical(d: string, f: string)
    requires AllDigits(d) && AllDigits(f)
    ensures var lit := NumberLiteral(d + "." + f, true);
      |lit| > |d| + 1 && lit[..|d| + 1] == d + "." &&
      var h := lit[|d| + 1..];
      AllDigits(h) && h != [] && (h == "0" || h[|h| - 1] != '0') &&
      ((|h| <= |f| && f[..|h|] == h && forall k :: |h| <= k < |f| ==> f[k] == '0') ||
       (h == "0" && forall k :: 0 <= k < |f| ==> f[k] == '0'))
  {
    var lex := d + "." + f;
    FloatLiteralParts(d, f);
    var g := TrimRight(f, '0');
    var lit := NumberLiteral(lex, true);
    if g == "" {
      assert lit == d + ".0";
      assert lit[|d| + 1..] == "0";
    } else {
      assert lit == d + "." + g;
      assert lit[|d| + 1..] == g;
    }
  }

  /** In `d.f` with `d` all digits the first `.` is the one after `d`. */
  lemma DotPosition(d: string, f: string)
    requires AllDigits(d)
    ensures IndexOf(d + "." + f, '.') == |d|
  {
    var lex := d + "." + f;
    assert lex[|d|] == '.' && lex[..|d|] == d;
  }

  /** A run of digits not followed by a digit or `.` is an integer NUMBER,
      its literal the digits with `.0` appended. */
  lemma IntegerNumberScan(s: seq<Byte>, i: nat, e: nat, line: int)
    requires i < e <= |s| && forall m :: i <= m < e ==> IsDigit(s[m])
    requires e == |s| || (!IsDigit(s[e]) && s[e] != '.')
    ensures StepAt(s, i, line) == Step(e, line, ["NUMBER " + s[i..e] + " " + s[i..e] + ".0"], [])
  {
    DispatchNumber(s, i, line);
    RunEndAt(s, i + 1, e, IsDigit);
    assert NumberEnd(s, i) == (e, false);
    var lex := s[i..e];
    assert NumberLine(lex, false) == "NUMBER " + lex + " " + lex + ".0";
  }

  /** Digits, a `.` at `d`, and digits up to `e` (maybe none) not followed by
      a digit form one NUMBER whose literal is the canonical form of the
      lexeme (see `FloatLiteralCanonical`). */
  lemma FloatNumberScan(s: seq<Byte>, i: nat, d: nat, e: nat, line: int)
    requires i < d < e <= |s| && s[d] == '.'
    requires forall m :: i <= m < e && m != d ==> IsDigit(s[m])
    requires e == |s| || !IsDigit(s[e])
    ensures s[i..e] == s[i..d] + "." + s[d + 1..e]
    ensures StepAt(s, i, line) == Step(e, line, ["NUMBER " + s[i..e] + " " + NumberLiteral(s[i..e], true)], [])
  {
    DispatchNumber(s, i, line);
    FloatEnd(s, i, d, e);
    SliceAround(s, i, d, e);
  }

  /** Where the number at `i` ends in `FloatNumberScan`. */
  lemma FloatEnd(s: seq<Byte>, i: nat, d: nat, e: nat)
    requires i < d < e <= |s| && s[d] == '.'
    requires forall m :: i <= m < e && m != d ==> IsDigit(s[m])
    requires e == |s| || !IsDigit(s[e])
    ensures NumberEnd(s, i) == (e, true)
  {
    RunEndAt(s, i + 1, d, IsDigit);
    RunEndAt(s, d + 1, e, IsDigit);
  }

  /** An integer lexeme gains `.0`. */
  lemma IntegerLiteralExample()
    ensures NumberLiteral("123", false) == "123.0"
  {
  }

  /** Trailing zeros of the fraction go. */
  lemma TrailingZeroExample()
    ensures NumberLiteral("123.450", true) == "123.45"
  {
    assert "123" + "." + "450" == "123.450";
    FloatLiteralParts("123", "450");
    TrimmedFraction();
    assert "123" + "." + "45" == "123.45";
  }

  /** The literal of `d.f` in terms of its two parts. */
  lemma FloatLiteralParts(d: string, f: string)
    requires AllDigits(d)
    ensures var g := TrimRight(f, '0');
      NumberLiteral(d + "." + f, true) == d + "." + (if g == "" then "0" else g)
  {
    var lex := d + "." + f;
    DotPosition(d, f);
    assert lex[..|d|] == d && lex[|d| + 1..] == f;
  }

  /** `strings.TrimRight("450", "0")`. */
  lemma TrimmedFraction()
    ensures TrimRight("450", '0') == "45"
  {
    assert "450"[..2] == "45";
    assert TrimRight("45", '0') == "45";
  }

  /** A zero fraction is kept as `.0`. */
  lemma ZeroFractionExample()
    ensures NumberLiteral("123.0", true) == "123.0"
  {
    assert "123" + "." + "0" == "123.0";
    FloatLiteralParts("123", "0");
    assert TrimRight("0", '0') == "" by {
      assert "0"[..0] == "";
    }
  }

  /** A `.` with no digit after it still belongs to the number. */
  lemma BareDotExample()
    ensures NumberLiteral("1.", true) == "1.0"
  {
    assert "1" + "." + "" == "1.";
    FloatLiteralParts("1", "");
  }

  /** Over a whole input the final line counter is 1 plus the newlines of the
      input, and every error names the line of the offset it was read at, so
      error lines start at 1 and never decrease. */
  lemma LineAccounting(s: seq<Byte>)
    ensures var r := ScanFrom(s, 0, 1);
      r.line == 1 + Newlines(s) &&
      (forall k :: 0 <= k < |r.errors| ==>
        r.errors[k].pos <= |s| && r.errors[k].line == 1 + Newlines(s[..r.errors[k].pos]) >= 1) &&
      (forall k1, k2 :: 0 <= k1 <= k2 < |r.errors| ==> r.errors[k1].line <= r.errors[k2].line)
  {
    var r := ScanFrom(s, 0, 1);
    ScanFromOk(s, 0, 1);
    assert s[0..] == s;
    DiagnosticLines(s, r.errors);
  }

  /** A line made of a space-free kind, one space and a text that does not
      start with a space is not the EOF line, whose kind is followed by two. */
  lemma NotEofShape(kind: string, rest: string)
    requires ' ' !in kind && |rest| > 0 && rest[0] != ' '
    ensures kind + " " + rest != EofLine
  {
    var t := kind + " " + rest;
    assert t[|kind|] == ' ' && t[|kind| + 1] == rest[0];
    assert forall k :: 0 <= k < |kind| ==> t[k] == kind[k];
    if |kind| < 3 {
      assert EofLine[|kind|] != ' ';
    } else if |kind| == 3 {
      assert EofLine[4] == ' ';
    } else {
      assert EofLine[3] == ' ' && kind[3] != ' ';
    }
  }

  /** No STRING line is the EOF line. */
  lemma StringLineNotEof(lex: string, rest: string)
    requires |lex| > 0 && lex[0] != ' '
    ensures StringLine(lex, rest) != EofLine
  {
    NotEofShape("STRING", lex + " " + rest);
    assert StringLine(lex, rest) == "STRING" + " " + (lex + " " + rest);
  }

  /** No NUMBER line is the EOF line. */
  lemma NumberLineNotEof(lex: string, isFloat: bool)
    requires |lex| > 0 && lex[0] != ' '
    ensures NumberLine(lex, isFloat) != EofLine
  {
    var lit := NumberLiteral(lex, isFloat);
    NotEofShape("NUMBER", lex + " " + lit);
    assert NumberLine(lex, isFloat) == "NUMBER" + " " + (lex + " " + lit);
  }

  /** No identifier or keyword line is the EOF line. */
  lemma IdentLineNotEof(lex: string)
    requires |lex| > 0 && lex[0] != ' '
    ensures IdentLine(lex) != EofLine
  {
    if lex in ReservedKeywords {
      KeywordLineNotEof(lex);
    } else {
      NotEofShape("IDENTIFIER", lex + " null");
      assert IdentLine(lex) == "IDENTIFIER" + " " + (lex + " null");
    }
  }

  /** A keyword line has a space-free kind, so it is not the EOF line. */
  lemma KeywordLineNotEof(lex: string)
    requires lex in ReservedKeywords
    ensures IdentLine(lex) != EofLine
  {
    var kind := ReservedKeywords[lex];
    ReservedWordsShape();
    assert IsKindOf(kind, lex);
    assert ' ' !in kind;
    NotEofShape(kind, lex + " null");
    assert IdentLine(lex) == kind + " " + (lex + " null");
  }

  /** No punctuator line is the EOF line. */
  lemma PunctuatorsNotEof()
    ensures forall c :: c in SingleCharTokens ==> SingleCharTokens[c] != EofLine
  {
  }

  /** No iteration emits the EOF line. */
  lemma StepNotEof(s: seq<Byte>, i: nat, line: int)
    requires i < |s|
    ensures EofLine !in StepAt(s, i, line).tokens
  {
    var c := s[i];
    if c == '\n' || IsWhitespace(c) {
    } else if c in SingleCharTokens {
      PunctuatorsNotEof();
    } else {
      LexemeNotEof(s, i, line);
    }
  }

  /** The same for the iterations that start a lexeme. */
  lemma LexemeNotEof(s: seq<Byte>, i: nat, line: int)
    requires i < |s|
    ensures EofLine !in LexemeStep(s, i, line).tokens
  {
    var c := s[i];
    if c == '"' {
      var k := Find(s, i + 1, '"');
      if k < |s| {
        StringLineNotEof(s[i..k + 1], s[i + 1..k]);
      }
    } else if IsLetterOrUnderscore(c) {
      ClassesDisjoint(c);
      var e := RunEnd(s, i + 1, IsIdentChar);
      IdentLineNotEof(s[i..e]);
    } else if IsDigit(c) {
      ClassesDisjoint(c);
      var r := NumberEnd(s, i);
      NumberLineNotEof(s[i..r.0], r.1);
    }
  }

  /** No scan emits the EOF line. */
  lemma {:induction false} ScanNotEof(s: seq<Byte>, i: nat, line: int)
    requires i <= |s|
    ensures EofLine !in ScanFrom(s, i, line).tokens
    decreases |s| - i
  {
    if i < |s| {
      var st := StepAt(s, i, line);
      StepNotEof(s, i, line);
      ScanNotEof(s, st.next, st.line);
    }
  }

  /** When no error is recorded the output ends with exactly one EOF line,
      after the token lines in the order they were scanned. */
  lemma EofOnce(s: seq<Byte>)
    ensures Tokenized(s).Tokens? ==>
      var lines := Tokenized(s).lines;
      |lines| > 0 && lines[|lines| - 1] == EofLine &&
      lines[..|lines| - 1] == ScanFrom(s, 0, 1).tokens &&
      forall k :: 0 <= k < |lines| - 1 ==> lines[k] != EofLine
  {
    ScanNotEof(s, 0, 1);
  }

  /** Whitespace and `@`: one error on line 1, and the process exits. */
  lemma UnknownSymbolExample()
    ensures Tokenized(" @") == Exit(65, ["[line 1] Error: Unexpected character: @"])
  {
    var w: seq<Byte> := " ";
    assert AllWhitespace(w) && AllWhitespace([]);
    assert w + ['@'] + [] == " @";
    WhitespaceAroundAt(w, []);
  }

  /** A run of spaces, carriage returns and tabs. */
  predicate AllWhitespace(w: seq<Byte>) {
    forall k :: 0 <= k < |w| ==> IsWhitespace(w[k])
  }

  /** Whitespace is skipped: it emits nothing, records nothing and leaves the
      line counter alone, so the scan across it is the scan after it. */
  lemma {:induction false} WhitespaceSkipped(s: seq<Byte>, i: nat, j: nat, line: int)
    requires i <= j <= |s| && AllWhitespace(s[i..j])
    ensures ScanFrom(s, i, line) == ScanFrom(s, j, line)
    decreases j - i
  {
    if i < j {
      assert IsWhitespace(s[i..j][0]);
      WhitespaceStep(s, i, line);
      assert s[i + 1..j] == s[i..j][1..];
      WhitespaceSkipped(s, i + 1, j, line);
    }
  }

  /** The iteration at a whitespace byte, then the rest of the scan. */
  lemma WhitespaceStep(s: seq<Byte>, i: nat, line: int)
    requires i < |s| && IsWhitespace(s[i])
    ensures ScanFrom(s, i, line) == ScanFrom(s, i + 1, line)
  {
    var rest := ScanFrom(s, i + 1, line);
    assert StepAt(s, i, line) == Step(i + 1, line, [], []);
    assert ScanFrom(s, i, line) == Lexed([] + rest.tokens, [] + rest.errors, rest.line);
  }

  /** One `@` with only whitespace around it, on any input of that shape:
      the single line-1 unexpected-character error, and exit status 65. */
  lemma WhitespaceAroundAt(w1: seq<Byte>, w2: seq<Byte>)
    requires AllWhitespace(w1) && AllWhitespace(w2)
    ensures Tokenized(w1 + ['@'] + w2) == Exit(65, ["[line 1] Error: Unexpected character: @"])
  {
    var s := w1 + ['@'] + w2;
    var k := |w1|;
    assert s[k] == '@' && s[..k] == w1 && s[k + 1..] == w2;
    AtBetweenWhitespace(s, k);
    assert Messages([UnexpectedCharacter(1, k, '@')]) == [UnexpectedMessage(1, '@')];
    AtOnLine1();
  }

  /** No rule of the loop accepts `@`. */
  lemma AtUnclassified()
    ensures Unclassified('@')
  {
  }

  /** The scan of an input that is whitespace except for an `@` at `k`. */
  lemma AtBetweenWhitespace(s: seq<Byte>, k: nat)
    requires k < |s| && s[k] == '@' && AllWhitespace(s[..k]) && AllWhitespace(s[k + 1..])
    ensures ScanFrom(s, 0, 1) == Lexed([], [UnexpectedCharacter(1, k, '@')], 1)
  {
    AtThenWhitespace(s, k);
    assert s[0..k] == s[..k];
    WhitespaceSkipped(s, 0, k, 1);
  }

  /** An `@` at `k` followed only by whitespace, scanned on line 1. */
  lemma AtThenWhitespace(s: seq<Byte>, k: nat)
    requires k < |s| && s[k] == '@' && AllWhitespace(s[k + 1..])
    ensures ScanFrom(s, k, 1) == Lexed([], [UnexpectedCharacter(1, k, '@')], 1)
  {
    assert s[k + 1..|s|] == s[k + 1..];
    WhitespaceSkipped(s, k + 1, |s|, 1);
    assert ScanFrom(s, k + 1, 1) == Lexed([], [], 1);
    AtUnclassified();
    UnexpectedContinues(s, k, 1);
  }

  /** The printed form of the errors in the worked inputs. */
  lemma MessageTexts()
    ensures Messages([UnexpectedCharacter(1, 1, '@')]) == ["[line 1] Error: Unexpected character: @"]
    ensures Messages([UnexpectedCharacter(3, 4, '@')]) == ["[line 3] Error: Unexpected character: @"]
    ensures Messages([UnterminatedString(1, 4)]) == ["[line 1] Error: Unterminated string."]
  {
    var a := UnexpectedCharacter(1, 1, '@');
    var b := UnexpectedCharacter(3, 4, '@');
    var u := UnterminatedString(1, 4);
    assert Messages([a]) == [Message(a)] && Messages([b]) == [Message(b)] && Messages([u]) == [Message(u)];
    AtOnLine1();
    AtOnLine3();
    UnterminatedOnLine1();
  }

  /** The `@` error on line 1. */
  lemma AtOnLine1()
    ensures UnexpectedMessage(1, '@') == "[line 1] Error: Unexpected character: @"
  {
    assert IntText(1) == "1";
    assert RuneText('@') == "@";
  }

  /** The `@` error on line 3. */
  lemma AtOnLine3()
    ensures UnexpectedMessage(3, '@') == "[line 3] Error: Unexpected character: @"
  {
    assert IntText(3) == "3";
    assert RuneText('@') == "@";
  }

  /** The unterminated-string error on line 1. */
  lemma UnterminatedOnLine1()
    ensures UnterminatedMessage(1) == "[line 1] Error: Unterminated string."
  {
    assert IntText(1) == "1";
  }

  /** The error after two newlines is reported on line 3. */
  lemma LineTrackingExample()
    ensures Tokenized("a\nb\n@") == Exit(65, ["[line 3] Error: Unexpected character: @"])
  {
    var s: seq<Byte> := "a\nb\n@";
    TwoLinesStep(s);
    LastByteStep(s);
    MessageTexts();
  }

  /** The `@` at offset 4 of `a\nb\n@`, scanned on line 3. */
  lemma LastByteStep(s: seq<Byte>)
    requires s == "a\nb\n@"
    ensures ScanFrom(s, 4, 3).errors == [UnexpectedCharacter(3, 4, '@')]
  {
    assert Unclassified(s[4]);
    UnexpectedContinues(s, 4, 3);
  }

  /** The scan of `a\nb\n` leaves the counter at 3 and records no error. */
  lemma TwoLinesStep(s: seq<Byte>)
    requires s == "a\nb\n@"
    ensures ScanFrom(s, 0, 1).errors == ScanFrom(s, 4, 3).errors
  {
    IdentifierMaximalMunch(s, 0, 1);
    assert StepAt(s, 0, 1).next == 1;
    IdentifierMaximalMunch(s, 2, 2);
    assert StepAt(s, 2, 2).next == 3;
    assert ScanFrom(s, 0, 1).errors == ScanFrom(s, 1, 1).errors;
    assert ScanFrom(s, 1, 1) == ScanFrom(s, 2, 2);
    assert ScanFrom(s, 2, 2).errors == ScanFrom(s, 3, 2).errors;
    assert ScanFrom(s, 3, 2) == ScanFrom(s, 4, 3);
  }

  /** `!=` is one BANG_EQUAL token, never BANG then EQUAL. */
  lemma GreedyOperatorExample()
    ensures Tokenized("!=") == Tokens(["BANG_EQUAL != null", EofLine])
  {
    var s: seq<Byte> := "!=";
    OperatorLongestMatch(s, 0, 1);
    assert s[0..2] == "!=";
    assert OperatorLine('!', true, "!=") == "BANG_EQUAL != null";
    assert ScanFrom(s, 0, 1) == Then(StepAt(s, 0, 1), ScanFrom(s, 2, 1));
  }

  /** An opening quote with no closing one: a single error, no STRING token. */
  lemma UnterminatedExample()
    ensures Tokenized("\"abc") == Exit(65, ["[line 1] Error: Unterminated string."])
  {
    var s: seq<Byte> := "\"abc";
    UnterminatedScan(s);
    MessageTexts();
  }

  /** The scan of `"abc` records the one error, on line 1 at offset 4. */
  lemma UnterminatedScan(s: seq<Byte>)
    requires s == "\"abc"
    ensures ScanFrom(s, 0, 1).errors == [UnterminatedString(1, 4)]
  {
    var body: seq<Byte> := "abc";
    assert [] + ['"'] + body == s;
    assert Newlines(body) == 0 by {
      assert '\n' !in body;
    }
    StringUnterminated([], body, 1);
  }
}
