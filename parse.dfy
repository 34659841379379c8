/** `Parse` in cmd/myinterpreter/parse.go: a decision on the length and the
    contents of a list of token strings, modelled as the line it prints
    (without the newline).  It has no precondition: every index it reads is
    guarded by a length test, so it is total. */
module Parser {
  const ParseError := "Error: Unable to parse."

  /** The words printed back as they are. */
  predicate IsLiteralWord(t: string) {
    t == "true" || t == "false" || t == "nil"
  }

  /** Two tokens, the first a literal word. */
  predicate LiteralShape(tokens: seq<string>) {
    |tokens| == 2 && IsLiteralWord(tokens[0])
  }

  /** Four tokens, the second `PLUS`. */
  predicate PlusShape(tokens: seq<string>) {
    |tokens| == 4 && tokens[1] == "PLUS"
  }

  /** The line printed for a sum of `a` and `b`. */
  function SumLine(a: string, b: string): (t: string) {
    "(+ " + a + " " + b + ")"
  }

  function Parse(tokens: seq<string>): (out: string)
    ensures LiteralShape(tokens) ==> out == tokens[0]
    ensures PlusShape(tokens) ==> out == SumLine(tokens[0], tokens[2])
  {
    if |tokens| == 2 && (tokens[0] == "true" || tokens[0] == "false" || tokens[0] == "nil") then
      tokens[0]
    else if |tokens| == 4 && tokens[1] == "PLUS" then
      SumLine(tokens[0], tokens[2])
    else
      ParseError
  }

  /** A sum line starts with `(`, which neither a literal word nor the error
      line does. */
  lemma SumLineShape(a: string, b: string)
    ensures SumLine(a, b)[0] == '('
    ensures SumLine(a, b) != ParseError
  {
    assert SumLine(a, b)[0] == '(' && ParseError[0] == 'E';
  }

  /** The error line is printed exactly when neither shape matches. */
  lemma FailureIff(tokens: seq<string>)
    ensures Parse(tokens) == ParseError <==> !LiteralShape(tokens) && !PlusShape(tokens)
  {
    if LiteralShape(tokens) {
      assert ParseError[0] == 'E';
      assert tokens[0][0] != 'E';
    } else if PlusShape(tokens) {
      SumLineShape(tokens[0], tokens[2]);
    }
  }

  /** The last of four tokens and the second of two are never read. */
  lemma IgnoredTokens(tokens: seq<string>, t: string)
    ensures |tokens| == 4 ==> Parse(tokens[..3] + [t]) == Parse(tokens)
    ensures |tokens| == 2 ==> Parse(tokens[..1] + [t]) == Parse(tokens)
  {
    if |tokens| == 4 {
      var u := tokens[..3] + [t];
      assert u[0] == tokens[0] && u[1] == tokens[1] && u[2] == tokens[2];
    }
    if |tokens| == 2 {
      var u := tokens[..1] + [t];
      assert u[0] == tokens[0];
    }
  }

  /** `1.0 + 2.0` given as four token strings. */
  lemma SumExample()
    ensures Parse(["1.0", "PLUS", "2.0", "EOF"]) == "(+ 1.0 2.0)"
  {
    var tokens := ["1.0", "PLUS", "2.0", "EOF"];
    assert PlusShape(tokens);
    assert SumLine("1.0", "2.0") == "(+ 1.0 2.0)";
  }

  /** A literal word followed by any second token is printed back. */
  lemma LiteralExample()
    ensures Parse(["nil", "EOF"]) == "nil"
    ensures Parse(["nil"]) == ParseError
  {
  }
}
