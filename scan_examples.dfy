/** Scans of small sources, worked out from the reference definition. */
module ScanExamples {
  import opened Tokens
  import opened Lexical
  import opened Scanning
  import opened StepProperties

  /** A dot with no digit after it is not part of the number before it. */
  lemma NumberKeepsTrailingDot()
    ensures Scan("1.").tokens == [Token(Number, "1", Num("1"), 1), Token(Dot, ".", Null, 1), Token(Eof, "", Null, 1)]
  {
    var src := "1.";
    assert RunEnd(src, 1, Digits) == 1;
    assert NumberEnd(src, 0) == 1;
    assert src[0..1] == "1" && src[1..2] == ".";
    assert StepAt(src, 0, 1) == Step(1, 1, Emit(Number, Num("1")));
    assert StepAt(src, 1, 1) == Step(2, 1, Emit(Dot, Null));
    assert ScanFrom(src, 2, 1).tokens == [Token(Eof, "", Null, 1)];
    assert ScanFrom(src, 1, 1).tokens == [Token(Dot, ".", Null, 1), Token(Eof, "", Null, 1)];
  }

  /** `!` followed by `=` is one BANG_EQUAL token. */
  lemma TwoCharacterOperatorWins()
    ensures Scan("!=").tokens == [Token(BangEqual, "!=", Null, 1), Token(Eof, "", Null, 1)]
  {
    var src := "!=";
    assert src[0..2] == "!=";
    assert StepAt(src, 0, 1) == Step(2, 1, Emit(BangEqual, Null));
    assert ScanFrom(src, 2, 1).tokens == [Token(Eof, "", Null, 1)];
  }

  /** A comment stops before its line break, which is then counted. */
  lemma CommentLeavesLineBreak()
    ensures Scan("//\n+").tokens == [Token(Plus, "+", Null, 2), Token(Eof, "", Null, 2)]
  {
    var src := "//\n+";
    assert RunEnd(src, 2, NotNewline) == 2;
    assert StepAt(src, 0, 1) == Step(2, 1, Skip);
    assert StepAt(src, 2, 1) == Step(3, 2, Skip);
    assert src[3..4] == "+";
    assert StepAt(src, 3, 2) == Step(4, 2, Emit(Plus, Null));
    assert ScanFrom(src, 4, 2).tokens == [Token(Eof, "", Null, 2)];
    assert ScanFrom(src, 3, 2).tokens == [Token(Plus, "+", Null, 2), Token(Eof, "", Null, 2)];
    assert ScanFrom(src, 2, 1).tokens == ScanFrom(src, 3, 2).tokens;
  }

  /** A word that only begins with a reserved word is an identifier. */
  lemma KeywordPrefixIsIdentifier()
    ensures Scan("orx").tokens == [Token(Identifier, "orx", Null, 1), Token(Eof, "", Null, 1)]
  {
    var src := "orx";
    assert RunEnd(src, 1, Word) == 3;
    assert src[0..3] == "orx";
    assert "orx" !in Keywords;
    assert StepAt(src, 0, 1) == Step(3, 1, Emit(Identifier, Null));
    assert ScanFrom(src, 3, 1).tokens == [Token(Eof, "", Null, 1)];
  }

  /** A string token keeps its quotes in the lexeme and drops them from the
      literal. */
  lemma StringLiteralDropsQuotes()
    ensures Scan("\"hi\"").tokens == [Token(String, "\"hi\"", Str("hi"), 1), Token(Eof, "", Null, 1)]
  {
    var src := "\"hi\"";
    assert RunEnd(src, 3, NotQuote) == 3;
    assert RunEnd(src, 1, NotQuote) == 3;
    assert src[1..3] == "hi" && src[0..4] == "\"hi\"";
    assert Newlines(src, 1, 3) == 0;
    assert StringStep(src, 0, 1) == Step(4, 1, Emit(String, Str("hi")));
    StepAtQuote(src, 0, 1);
    assert StepAt(src, 0, 1) == Step(4, 1, Emit(String, Str("hi")));
    assert ScanFrom(src, 4, 1).tokens == [Token(Eof, "", Null, 1)];
    assert ScanFrom(src, 0, 1).tokens == [Token(String, src[0..4], Str("hi"), 1)] + ScanFrom(src, 4, 1).tokens;
  }

  /** An unterminated string is reported on the line the source ends on,
      and nothing but EOF follows it. */
  lemma UnterminatedStringReported()
    ensures Scan("\"a\n") == Scanned([Token(Eof, "", Null, 2)], [LexError(2, UnterminatedString)])
  {
    var src := "\"a\n";
    assert RunEnd(src, 1, NotQuote) == 3;
    assert Newlines(src, 1, 3) == 1;
    assert StepAt(src, 0, 1) == Step(3, 2, Report(UnterminatedString));
    assert ScanFrom(src, 3, 2) == Scanned([Token(Eof, "", Null, 2)], []);
  }
}
