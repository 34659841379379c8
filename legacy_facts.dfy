/** Properties of the older scanner revision (cmd/myinterpreter/main.go) and
    how it relates to the revision in cmd/myinterpreter/tokenize.go. */
module LegacyFacts {
  import opened CharClass
  import opened Text
  import opened Lexing
  import opened Scanner
  import opened LegacyScanner
  import ScannerFacts

  /** The iteration at an operator byte is the comparison case. */
  lemma LegacyDispatchComparison(s: seq<Byte>, i: nat, line: int)
    requires i < |s| && IsOperatorByte(s[i])
    ensures LegacyStepAt(s, i, line) == ComparisonStep(s, i, line)
  {
  }

  /** In the later revision the iteration at an operator byte is the
      operator case. */
  lemma DispatchOperator(s: seq<Byte>, i: nat, line: int)
    requires i < |s| && IsOperatorByte(s[i])
    ensures StepAt(s, i, line) == OperatorStep(s, i, line)
  {
  }

  /** Both revisions step over a run of operator bytes without a
      diagnostic and without touching the line counter, so the scan from
      inside the run continues as the scan from its end. */
  lemma {:induction false} OperatorRun(s: seq<Byte>, j: nat, line: int)
    requires j <= |s|
    ensures var e := RunEnd(s, j, IsOperatorByte);
      ScanFrom(s, j, line).errors == ScanFrom(s, e, line).errors &&
      ScanFrom(s, j, line).line == ScanFrom(s, e, line).line &&
      LegacyScanFrom(s, j, line).errors == LegacyScanFrom(s, e, line).errors &&
      LegacyScanFrom(s, j, line).line == LegacyScanFrom(s, e, line).line
    decreases |s| - j
  {
    var e := RunEnd(s, j, IsOperatorByte);
    if j < e {
      var st := StepAt(s, j, line);
      var lst := LegacyStepAt(s, j, line);
      DispatchOperator(s, j, line);
      LegacyDispatchComparison(s, j, line);
      assert st.next <= e && lst.next <= e by {
        if j + 1 < |s| && (s[j + 1] == '=' || s[j + 1] == s[j]) {
          assert IsOperatorByte(s[j + 1]);
        }
      }
      RunEndAt(s, st.next, e, IsOperatorByte);
      RunEndAt(s, lst.next, e, IsOperatorByte);
      OperatorRun(s, st.next, line);
      OperatorRun(s, lst.next, line);
    }
  }

  /** Away from the operators the two revisions take the same iteration up
      to the token lines of a slash and of a number, and exactly the same one
      at every other byte. */
  lemma StepsAgree(s: seq<Byte>, i: nat, line: int)
    requires i < |s| && !IsOperatorByte(s[i])
    ensures var st, lst := StepAt(s, i, line), LegacyStepAt(s, i, line);
      st.next == lst.next && st.line == lst.line && st.errors == lst.errors &&
      (s[i] != '/' && !IsDigit(s[i]) ==> st == lst)
  {
    ClassesDisjoint(s[i]);
  }

  /** The two revisions report the same diagnostics, in the same order and on
      the same lines, and end with the same line counter, on every input. */
  lemma {:induction false} SameDiagnostics(s: seq<Byte>, i: nat, line: int)
    requires i <= |s|
    ensures LegacyScanFrom(s, i, line).errors == ScanFrom(s, i, line).errors
    ensures LegacyScanFrom(s, i, line).line == ScanFrom(s, i, line).line
    decreases |s| - i
  {
    if i < |s| {
      if IsOperatorByte(s[i]) {
        var e := RunEnd(s, i, IsOperatorByte);
        OperatorRun(s, i, line);
        SameDiagnostics(s, e, line);
      } else {
        var st := StepAt(s, i, line);
        StepsAgree(s, i, line);
        SameDiagnostics(s, st.next, st.line);
      }
    }
  }

  /** So the older revision keeps the same line accounting: the final line
      is 1 plus the newlines of the input, each diagnostic is reported on 1
      plus the newlines before the offset it was read at, and the reported
      lines never decrease. */
  lemma LegacyLineAccounting(s: seq<Byte>)
    ensures var r := LegacyScanFrom(s, 0, 1);
      r.line == 1 + Newlines(s) &&
      (forall k :: 0 <= k < |r.errors| ==>
        r.errors[k].pos <= |s| && r.errors[k].line == 1 + Newlines(s[..r.errors[k].pos]) >= 1) &&
      (forall k1, k2 :: 0 <= k1 <= k2 < |r.errors| ==> r.errors[k1].line <= r.errors[k2].line)
  {
    SameDiagnostics(s, 0, 1);
    ScannerFacts.LineAccounting(s);
  }

  /** `handleComparisonOperator` emits EQUAL or EQUAL_EQUAL whichever of the
      four operators it is given, and doubles only on a repeated byte. */
  lemma ComparisonAlwaysEqual(s: seq<Byte>, i: nat, line: int)
    requires i < |s| && IsOperatorByte(s[i])
    ensures var st := LegacyStepAt(s, i, line);
      st.errors == [] && st.line == line &&
      (if i + 1 < |s| && s[i + 1] == s[i]
       then st.next == i + 2 && st.tokens == ["EQUAL_EQUAL == null"]
       else st.next == i + 1 && st.tokens == ["EQUAL = null"])
  {
    LegacyDispatchComparison(s, i, line);
  }

  /** A `/` not followed by another is consumed and emits nothing. */
  lemma LegacyLoneSlash(s: seq<Byte>, i: nat, line: int)
    requires i < |s| && s[i] == '/' && !(i + 1 < |s| && s[i + 1] == '/')
    ensures LegacyScanFrom(s, i, line) == LegacyScanFrom(s, i + 1, line)
  {
    var st := LegacyStepAt(s, i, line);
    assert st == Step(i + 1, line, [], []);
    assert LegacyScanFrom(s, i, line) == Then(st, LegacyScanFrom(s, i + 1, line));
  }

  /** The later revision's literal is the older one completed: `.0` after an
      integer, and a `0` after a float whose fraction was all zeros; a float
      lexeme is one with a single `.`, as the scanner produces. */
  lemma LiteralRevisions(lex: string, isFloat: bool)
    requires isFloat ==> '.' in lex && '.' !in lex[IndexOf(lex, '.') + 1..]
    ensures var legacy := LegacyNumberLiteral(lex, isFloat);
      (isFloat ==> |legacy| > 0) &&
      NumberLiteral(lex, isFloat) ==
        (if !isFloat then legacy + ".0"
         else if legacy[|legacy| - 1] == '.' then legacy + "0"
         else legacy)
  {
    if isFloat {
      var dot := IndexOf(lex, '.');
      var frac := TrimRight(lex[dot + 1..], '0');
      var o := lex[..dot] + "." + frac;
      if frac == "" {
        assert o + "0" == lex[..dot] + ".0";
      } else {
        assert frac[|frac| - 1] == lex[dot + 1..][|frac| - 1];
        assert o[|o| - 1] == frac[|frac| - 1];
      }
    }
  }

  /** As written, `!=` is two EQUAL tokens, not one BANG_EQUAL. */
  lemma BangEqualAsWritten()
    ensures LegacyTokenized("!=") == (["EQUAL = null", "EQUAL = null", "EOF null"], [])
  {
    var s: seq<Byte> := "!=";
    assert s[0] == '!' && s[1] == '=';
    ComparisonAlwaysEqual(s, 0, 1);
    ComparisonAlwaysEqual(s, 1, 1);
    assert LegacyScanFrom(s, 0, 1) == Then(LegacyStepAt(s, 0, 1), LegacyScanFrom(s, 1, 1));
    assert LegacyScanFrom(s, 1, 1) == Then(LegacyStepAt(s, 1, 1), LegacyScanFrom(s, 2, 1));
    assert Messages([]) == [];
    assert LegacyTokenized(s).0 == ["EQUAL = null", "EQUAL = null", "EOF null"];
    assert LegacyTokenized(s).1 == [];
    assert LegacyTokenized("!=") == LegacyTokenized(s);
  }

  /** As written, `<<` is one EQUAL_EQUAL token. */
  lemma RepeatedLessAsWritten()
    ensures LegacyTokenized("<<") == (["EQUAL_EQUAL == null", "EOF null"], [])
  {
    var s: seq<Byte> := "<<";
    assert s[0] == '<' && s[1] == '<';
    ComparisonAlwaysEqual(s, 0, 1);
    assert LegacyScanFrom(s, 0, 1) == Then(LegacyStepAt(s, 0, 1), LegacyScanFrom(s, 2, 1));
    assert Messages([]) == [];
    assert LegacyTokenized(s).0 == ["EQUAL_EQUAL == null", "EOF null"];
    assert LegacyTokenized(s).1 == [];
    assert LegacyTokenized("<<") == LegacyTokenized(s);
  }

  /** As written, a lone `/` leaves no token. */
  lemma LoneSlashAsWritten()
    ensures LegacyTokenized("/") == (["EOF null"], [])
  {
    var s: seq<Byte> := "/";
    assert s[0] == '/';
    LegacyLoneSlash(s, 0, 1);
    assert LegacyScanFrom(s, 0, 1) == Lexed([], [], 1);
    assert Messages([]) == [];
    assert LegacyTokenized(s).0 == ["EOF null"];
    assert LegacyTokenized(s).1 == [];
    assert LegacyTokenized("/") == LegacyTokenized(s);
  }

  /** As written, `1.0` has the literal `1.`. */
  lemma ZeroFractionAsWritten()
    ensures LegacyNumberLiteral("1.0", true) == "1."
  {
    assert IndexOf("1.0", '.') == 1;
    assert TrimRight("0", '0') == "";
  }

  /** As written, `1.50` has the literal `1.5`. */
  lemma TrailingZeroAsWritten()
    ensures LegacyNumberLiteral("1.50", true) == "1.5"
  {
    assert IndexOf("1.50", '.') == 1;
    assert TrimRight("50", '0') == "5";
  }

  /** As written, an integer `12` keeps the literal `12`. */
  lemma IntegerAsWritten()
    ensures LegacyTokenized("12") == (["NUMBER 12 12", "EOF null"], [])
  {
    var s: seq<Byte> := "12";
    assert s[0] == '1' && s[1] == '2';
    assert RunEnd(s, 2, IsDigit) == 2;
    assert RunEnd(s, 1, IsDigit) == 2;
    assert NumberEnd(s, 0) == (2, false);
    assert s[0..2] == "12";
    assert LegacyNumberLine("12", false) == "NUMBER 12 12";
    assert LegacyStepAt(s, 0, 1) == Step(2, 1, ["NUMBER 12 12"], []);
    assert LegacyScanFrom(s, 0, 1) == Then(LegacyStepAt(s, 0, 1), LegacyScanFrom(s, 2, 1));
    assert Messages([]) == [];
    assert LegacyTokenized(s).0 == ["NUMBER 12 12", "EOF null"];
    assert LegacyTokenized(s).1 == [];
    assert LegacyTokenized("12") == LegacyTokenized(s);
  }

  /** Even when a diagnostic is recorded, `EOF null` is appended. */
  lemma EofEvenWithErrors()
    ensures LegacyTokenized("@") == (["EOF null"], ["[line 1] Error: Unexpected character: @"])
  {
    var s: seq<Byte> := "@";
    assert s[0] == '@';
    ClassesDisjoint('@');
    assert LegacyStepAt(s, 0, 1) == Step(1, 1, [], [UnexpectedCharacter(1, 0, '@')]);
    assert LegacyScanFrom(s, 0, 1) == Then(LegacyStepAt(s, 0, 1), LegacyScanFrom(s, 1, 1));
    assert Messages([UnexpectedCharacter(1, 0, '@')]) == [UnexpectedMessage(1, '@')];
    ScannerFacts.AtOnLine1();
    assert LegacyTokenized(s).0 == ["EOF null"];
    assert LegacyTokenized(s).1 == ["[line 1] Error: Unexpected character: @"];
    assert LegacyTokenized("@") == LegacyTokenized(s);
  }
}
