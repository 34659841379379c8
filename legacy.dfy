/** The older scanner revision in cmd/myinterpreter/main.go.

    Its loop `tokenize` dispatches each byte to a handler.  The handlers
    append to the token slice they are passed as `*[]string` (`TokenList`
    here) and read and update the package-level `errors` and `line`
    (`PackageState` here);
    each returns the index of the last byte it consumed, and the loop's own
    increment moves past it.  `LegacyStepAt` is one iteration of that loop
    and `LegacyScanFrom` the loop from some index on; the methods are proved
    to do what they describe.

    Where the two revisions agree the steps are the shared ones of `Lexing`;
    they differ on `=`/`!`/`<`/`>`, on a lone `/` and on number literals.
 */
module LegacyScanner {
  import opened CharClass
  import opened Text
  import opened Lexing
  import Scanner

  /** The token slice the handlers are passed as `*[]string` and append to. */
  class TokenList {
    var items: seq<string>

    constructor()
      ensures items == []
    {
      items := [];
    }
  }

  /** The package-level variables `errors` and `line`. */
  class PackageState {
    var errors: seq<string>
    var line: int

    /** Go's zero values. */
    constructor()
      ensures errors == [] && line == 0
    {
      errors := [];
      line := 0;
    }
  }

  /** `handleComparisonOperator`: the byte repeated gives EQUAL_EQUAL and
      consumes both, anything else gives EQUAL, whatever the operator byte. */
  function ComparisonStep(s: seq<Byte>, i: nat, line: int): (st: Step)
    requires i < |s|
    ensures i < st.next <= |s|
  {
    if i + 1 < |s| && s[i + 1] == s[i] then Step(i + 2, line, ["EQUAL_EQUAL == null"], [])
    else Step(i + 1, line, ["EQUAL = null"], [])
  }

  /** The number literal of this revision: an integer lexeme unchanged, a
      float lexeme as its integer part, `.` and the fraction without trailing
      zeros, which may leave nothing after the `.`. */
  function LegacyNumberLiteral(lex: string, isFloat: bool): (lit: string)
    requires isFloat ==> '.' in lex
    ensures !isFloat ==> lit == lex
    ensures isFloat ==>
      var dot := IndexOf(lex, '.');
      |lit| >= dot + 1 && lit[..dot + 1] == lex[..dot + 1] && ZerosTrimmed(lit[dot + 1..], lex[dot + 1..])
  {
    if isFloat then
      var dot := IndexOf(lex, '.');
      assert lex[..dot + 1] == lex[..dot] + ".";
      LegacyFloatLiteral(lex[..dot], lex[dot + 1..])
    else lex
  }

  /** The float branch: the integer part, `.`, and the fraction digits
      trimmed of trailing zeros, even when nothing remains. */
  function LegacyFloatLiteral(integerPart: string, digits: string): (lit: string)
    ensures |lit| >= |integerPart| + 1 && lit[..|integerPart| + 1] == integerPart + "."
    ensures ZerosTrimmed(lit[|integerPart| + 1..], digits)
  {
    var fractionalPart := TrimRight(digits, '0');
    var lit := integerPart + "." + fractionalPart;
    assert lit[|integerPart| + 1..] == fractionalPart;
    lit
  }

  /** `h` is `f` with its trailing zeros dropped, and possibly empty. */
  predicate ZerosTrimmed(h: string, f: string) {
    |h| <= |f| && f[..|h|] == h && (h == [] || h[|h| - 1] != '0') &&
    forall k :: |h| <= k < |f| ==> f[k] == '0'
  }

  /** The line printed for a NUMBER token in this revision. */
  function LegacyNumberLine(lex: string, isFloat: bool): (t: string)
    requires isFloat ==> '.' in lex
  {
    "NUMBER " + lex + " " + LegacyNumberLiteral(lex, isFloat)
  }

  /** A digit: the same lexeme as the later revision, this revision's literal. */
  function LegacyNumberStep(s: seq<Byte>, i: nat, line: int): (st: Step)
    requires i < |s| && IsDigit(s[i])
    ensures i < st.next <= |s|
  {
    var r := NumberEnd(s, i);
    var lex := s[i..r.0];
    assert r.1 ==> lex[RunEnd(s, i + 1, IsDigit) - i] == '.';
    Step(r.0, line, [LegacyNumberLine(lex, r.1)], [])
  }

  /** `handleIdentifierOrNumber`: an identifier, a number, or an unexpected
      character. */
  function WordStep(s: seq<Byte>, i: nat, line: int): (st: Step)
    requires i < |s|
    ensures i < st.next <= |s|
  {
    if IsLetterOrUnderscore(s[i]) then IdentifierStep(s, i, line)
    else if IsDigit(s[i]) then LegacyNumberStep(s, i, line)
    else UnexpectedStep(s, i, line)
  }

  /** One iteration of the loop of `tokenize` at index `i`. */
  function LegacyStepAt(s: seq<Byte>, i: nat, line: int): (st: Step)
    requires i < |s|
    ensures i < st.next <= |s|
  {
    var c := s[i];
    if c == '\n' then Step(i + 1, line + 1, [], [])
    else if IsWhitespace(c) then Step(i + 1, line, [], [])
    else if c in SingleCharTokens then Step(i + 1, line, [SingleCharTokens[c]], [])
    else if IsOperatorByte(c) then ComparisonStep(s, i, line)
    else if c == '/' then
      if i + 1 < |s| && s[i + 1] == '/' then CommentStep(s, i, line) else Step(i + 1, line, [], [])
    else if c == '"' then StringStep(s, i, line)
    else WordStep(s, i, line)
  }

  /** The loop of `tokenize` from index `i` to the end of input. */
  function LegacyScanFrom(s: seq<Byte>, i: nat, line: int): (r: Lexed)
    requires i <= |s|
    decreases |s| - i
  {
    if i == |s| then Lexed([], [], line)
    else
      var st := LegacyStepAt(s, i, line);
      Then(st, LegacyScanFrom(s, st.next, st.line))
  }

  /** One iteration of the loop, then the rest of it. */
  lemma LegacyScanUnfold(s: seq<Byte>, i: nat, line: int)
    requires i < |s|
    ensures var st := LegacyStepAt(s, i, line);
      LegacyScanFrom(s, i, line) == Then(st, LegacyScanFrom(s, st.next, st.line))
  {
  }

  /** At the end of input the loop adds nothing. */
  lemma LegacyScanEnd(s: seq<Byte>, line: int)
    ensures LegacyScanFrom(s, |s|, line) == Lexed([], [], line)
  {
  }

  const LegacyEofLine := "EOF null"

  /** What `tokenize` returns: the token lines with `EOF null` appended in
      every case, and the error lines. */
  function LegacyTokenized(s: seq<Byte>): (r: (seq<string>, seq<string>)) {
    var r := LegacyScanFrom(s, 0, 1);
    (r.tokens + [LegacyEofLine], Messages(r.errors))
  }

  /** `handleSingleCharToken`: one line for a mapped byte, nothing otherwise. */
  method HandleSingleCharToken(tokens: TokenList, i: int, c: Byte)
    modifies tokens
    ensures tokens.items == old(tokens.items) + (if c in SingleCharTokens then [SingleCharTokens[c]] else [])
  {
    if c in SingleCharTokens {
      tokens.items := tokens.items + [SingleCharTokens[c]];
    }
  }

  /** `handleComparisonOperator`. */
  method HandleComparisonOperator(tokens: TokenList, i: nat, c: Byte, contents: seq<Byte>)
    returns (last: nat)
    requires i < |contents| && c == contents[i]
    modifies tokens
    ensures i <= last < |contents|
    ensures var st := ComparisonStep(contents, i, 0);
      last + 1 == st.next && tokens.items == old(tokens.items) + st.tokens
  {
    if i + 1 < |contents| && contents[i + 1] == c {
      tokens.items := tokens.items + ["EQUAL_EQUAL == null"];
      return i + 1;
    }
    tokens.items := tokens.items + ["EQUAL = null"];
    return i;
  }

  /** `handleStringLiteral`: scan to the closing quote counting newlines into
      the global counter; on success the STRING line and the index of the
      closing quote, otherwise the error and the index of the last byte. */
  method HandleStringLiteral(tokens: TokenList, g: PackageState, i0: nat, c: Byte, contents: seq<Byte>)
    returns (i: nat)
    requires i0 < |contents| && c == contents[i0] && c == '"'
    modifies tokens, g
    ensures i0 <= i < |contents|
    ensures var st := StringStep(contents, i0, old(g.line));
      i + 1 == st.next && g.line == st.line &&
      tokens.items == old(tokens.items) + st.tokens && g.errors == old(g.errors) + Messages(st.errors)
  {
    ghost var line0 := g.line;
    var start := i0;
    i := SkipStringBody(g, start, c, contents);
    if i + 1 >= |contents| {
      StringStepOpen(contents, start, line0);
      assert Messages([UnterminatedString(g.line, |contents|)]) == [UnterminatedMessage(g.line)];
      g.errors := g.errors + [UnterminatedMessage(g.line)];
      return i;
    }
    i := i + 1;
    StringStepClosed(contents, start, i, line0);
    var lexeme := contents[start..i + 1];
    var literal := contents[start + 1..i];
    tokens.items := tokens.items + [StringLine(lexeme, literal)];
  }

  /** The inner loop of `handleStringLiteral`: advance while the next byte
      is not the quote, raising the global line counter at each newline. */
  method SkipStringBody(g: PackageState, start: nat, c: Byte, contents: seq<Byte>) returns (i: nat)
    requires start < |contents| && c == '"'
    modifies g
    ensures start <= i < |contents| && Find(contents, start + 1, '"') == i + 1
    ensures g.line == old(g.line) + Newlines(contents[start + 1..i + 1]) && g.errors == old(g.errors)
  {
    i := start;
    while i + 1 < |contents| && contents[i + 1] != c
      invariant start <= i < |contents|
      invariant Find(contents, i + 1, '"') == Find(contents, start + 1, '"')
      invariant g.line == old(g.line) + Newlines(contents[start + 1..i + 1])
      invariant g.errors == old(g.errors)
    {
      NewlinesExtend(contents, start + 1, i + 1);
      if contents[i + 1] == '\n' {
        g.line := g.line + 1;
      }
      i := i + 1;
    }
  }

  /** `handleIdentifierOrNumber`: an identifier or keyword, a number, or an
      unexpected-character error at the current line. */
  method HandleIdentifierOrNumber(tokens: TokenList, g: PackageState, i0: nat, c: Byte, contents: seq<Byte>)
    returns (i: nat)
    requires i0 < |contents| && c == contents[i0]
    modifies tokens, g
    ensures i0 <= i < |contents|
    ensures var st := WordStep(contents, i0, old(g.line));
      i + 1 == st.next && g.line == old(g.line) &&
      tokens.items == old(tokens.items) + st.tokens && g.errors == old(g.errors) + Messages(st.errors)
  {
    var start := i0;
    i := i0;
    if IsLetterOrUnderscore(c) {
      i := ScanWord(contents, start);
      var lexeme := contents[start..i + 1];
      if lexeme in ReservedKeywords {
        tokens.items := tokens.items + [ReservedKeywords[lexeme] + " " + lexeme + " null"];
      } else {
        tokens.items := tokens.items + ["IDENTIFIER " + lexeme + " null"];
      }
    } else if IsDigit(c) {
      var isFloat: bool;
      i, isFloat := ScanNumeral(contents, start);
      var lexeme := contents[start..i + 1];
      var literal := lexeme;
      if isFloat {
        var dotIndex := IndexOf(lexeme, '.');
        var integerPart := lexeme[..dotIndex];
        var fractionalPart := TrimRight(lexeme[dotIndex + 1..], '0');
        literal := integerPart + "." + fractionalPart;
      }
      tokens.items := tokens.items + ["NUMBER " + lexeme + " " + literal];
    } else {
      g.errors := g.errors + [UnexpectedMessage(g.line, c)];
    }
  }

  /** The identifier loop of `handleIdentifierOrNumber`: the index of the
      last byte of the run of letters, digits and `_` from `start`. */
  method ScanWord(contents: seq<Byte>, start: nat) returns (i: nat)
    requires start < |contents|
    ensures i + 1 == RunEnd(contents, start + 1, IsIdentChar)
  {
    i := start;
    while i + 1 < |contents| && (IsLetterOrUnderscore(contents[i + 1]) || IsDigit(contents[i + 1]))
      invariant start <= i < |contents|
      invariant RunEnd(contents, i + 1, IsIdentChar) == RunEnd(contents, start + 1, IsIdentChar)
    {
      i := i + 1;
    }
  }

  /** The number loops of `handleIdentifierOrNumber`: the index of the last
      byte of the number from `start` and whether it took a `.`. */
  method ScanNumeral(contents: seq<Byte>, start: nat) returns (i: nat, isFloat: bool)
    requires start < |contents|
    ensures NumberEnd(contents, start) == (i + 1, isFloat)
  {
    i := start;
    isFloat := false;
    while i + 1 < |contents| && IsDigit(contents[i + 1])
      invariant start <= i < |contents|
      invariant RunEnd(contents, i + 1, IsDigit) == RunEnd(contents, start + 1, IsDigit)
    {
      i := i + 1;
    }
    if i + 1 < |contents| && contents[i + 1] == '.' {
      isFloat := true;
      i := i + 1;
      ghost var dot := i;
      while i + 1 < |contents| && IsDigit(contents[i + 1])
        invariant dot <= i < |contents|
        invariant RunEnd(contents, i + 1, IsDigit) == RunEnd(contents, dot + 1, IsDigit)
      {
        i := i + 1;
      }
    }
  }

  /** The comment loop of `tokenize`: the index just before the next `\n`
      or the end of input. */
  method SkipComment(contents: seq<Byte>, start: nat) returns (i: int)
    requires start < |contents| && contents[start] != '\n'
    ensures i + 1 == CommentStep(contents, start, 0).next
  {
    i := start;
    while i < |contents| && contents[i] != '\n'
      invariant start <= i <= |contents|
      invariant Find(contents, i, '\n') == Find(contents, start, '\n')
    {
      i := i + 1;
    }
    i := i - 1;
  }

  /** The `switch` of the loop of `tokenize`: the index of the last byte the
      iteration consumed, with the token list and the globals updated as the
      iteration describes. */
  method Dispatch(tokens: TokenList, g: PackageState, i0: nat, contents: seq<Byte>) returns (i: int)
    requires i0 < |contents|
    modifies tokens, g
    ensures var st := LegacyStepAt(contents, i0, old(g.line));
      i + 1 == st.next && g.line == st.line &&
      tokens.items == old(tokens.items) + st.tokens && g.errors == old(g.errors) + Messages(st.errors)
  {
    var c := contents[i0];
    i := i0;
    if c == '\n' {
      g.line := g.line + 1;
    } else if IsWhitespace(c) {
      // handleWhitespace does nothing
    } else if c in SingleCharTokens {
      HandleSingleCharToken(tokens, i, c);
    } else if IsOperatorByte(c) {
      i := HandleComparisonOperator(tokens, i, c, contents);
    } else if c == '/' {
      if i + 1 < |contents| && contents[i + 1] == '/' {
        i := SkipComment(contents, i);
      } else {
        HandleSingleCharToken(tokens, i, c);
      }
    } else if c == '"' {
      i := HandleStringLiteral(tokens, g, i, c, contents);
    } else {
      i := HandleIdentifierOrNumber(tokens, g, i, c, contents);
    }
  }

  /** `tokenize` on contents already read: resets the globals, runs the loop
      and appends `EOF null`; returns the token lines and the error lines. */
  method Tokenize(g: PackageState, contents: seq<Byte>) returns (tokens: seq<string>, errs: seq<string>)
    modifies g
    ensures (tokens, errs) == LegacyTokenized(contents)
    ensures g.errors == errs && g.line == LegacyScanFrom(contents, 0, 1).line
  {
    var list := new TokenList();
    g.errors := [];
    g.line := 1;
    ghost var diags: seq<Diagnostic> := [];
    ghost var full := LegacyScanFrom(contents, 0, 1);
    var i := 0;
    while i < |contents|
      invariant 0 <= i <= |contents|
      invariant g.errors == Messages(diags)
      invariant full == Lexed(list.items + LegacyScanFrom(contents, i, g.line).tokens,
                              diags + LegacyScanFrom(contents, i, g.line).errors,
                              LegacyScanFrom(contents, i, g.line).line)
      decreases |contents| - i
    {
      ghost var st := LegacyStepAt(contents, i, g.line);
      ghost var tokens0 := list.items;
      ghost var rest := LegacyScanFrom(contents, st.next, st.line);
      LegacyScanUnfold(contents, i, g.line);
      i := Dispatch(list, g, i, contents);
      i := i + 1;
      assert i == st.next && g.line == st.line && list.items == tokens0 + st.tokens;
      Scanner.ThenAppends(st, rest, tokens0, list.items, diags);
      MessagesConcat(diags, st.errors);
      diags := diags + st.errors;
    }
    LegacyScanEnd(contents, g.line);
    assert full.tokens == list.items && full.errors == diags;
    list.items := list.items + [LegacyEofLine];
    tokens, errs := list.items, g.errors;
  }
}
