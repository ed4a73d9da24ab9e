/** What one turn of the scanner's main loop promises, proved of StepAt. */
module StepProperties {
  import opened Tokens
  import opened Lexical
  import opened Scanning

  /** A comment stops before the line break that ends it. */
  lemma SlashStepOnOneLine(src: string, pos: nat, line: int)
    requires pos < |src| && src[pos] == '/'
    ensures SlashStep(src, pos, line).line == line
    ensures forall m :: pos <= m < SlashStep(src, pos, line).end ==> src[m] != '\n'
  {
  }

  /** Numbers, words and unexpected characters contain no line break. */
  lemma OtherStepOnOneLine(src: string, pos: nat, line: int)
    requires pos < |src| && src[pos] != '\n'
    ensures OtherStep(src, pos, line).line == line
    ensures forall m :: pos <= m < OtherStep(src, pos, line).end ==> src[m] != '\n'
  {
  }

  /** A step that starts neither at a line break nor at a quote consumes no
      line break and leaves the line counter alone. */
  lemma StepOutsideStrings(src: string, pos: nat, line: int)
    requires pos < |src| && src[pos] != '\n' && src[pos] != '"'
    ensures StepAt(src, pos, line).line == line
    ensures forall m :: pos <= m < StepAt(src, pos, line).end ==> src[m] != '\n'
  {
    if src[pos] == '/' {
      SlashStepOnOneLine(src, pos, line);
    } else {
      OtherStepOnOneLine(src, pos, line);
    }
  }

  /** A step that starts at a quote is a string step. */
  lemma StepAtQuote(src: string, pos: nat, line: int)
    requires pos < |src| && src[pos] == '"'
    ensures StepAt(src, pos, line) == StringStep(src, pos, line)
  {
  }

  /** A string counts the line breaks between its quotes, and the quotes are
      not line breaks. */
  lemma StringStepCountsNewlines(src: string, pos: nat, line: int)
    requires pos < |src| && src[pos] == '"'
    ensures StringStep(src, pos, line).line == line + Newlines(src, pos, StringStep(src, pos, line).end)
  {
    var s := StringStep(src, pos, line);
    var close := RunEnd(src, pos + 1, NotQuote);
    NewlinesSplit(src, pos, pos + 1, close);
    assert Newlines(src, pos, pos + 1) == 0;
    if close < |src| {
      NewlinesSplit(src, pos, close, close + 1);
      assert Newlines(src, close, close + 1) == 0;
    }
  }

  /** Every line break a step consumes is counted exactly once: by the
      newline case or inside a string; a comment stops before one. */
  lemma StepCountsNewlines(src: string, pos: nat, line: int)
    requires pos < |src|
    ensures StepAt(src, pos, line).line == line + Newlines(src, pos, StepAt(src, pos, line).end)
  {
    var s := StepAt(src, pos, line);
    if src[pos] == '\n' {
      assert s == Step(pos + 1, line + 1, Skip);
      assert Newlines(src, pos, pos + 1) == 1;
    } else if src[pos] == '"' {
      assert s == StringStep(src, pos, line);
      StringStepCountsNewlines(src, pos, line);
    } else {
      StepOutsideStrings(src, pos, line);
      NoNewlines(src, pos, s.end);
    }
  }

  /** Each single-character kind is spelled by its character. */
  lemma SingleKindSpelled(c: char)
    requires SingleKind(c).Some?
    ensures Spelling(SingleKind(c).value) == Some([c])
  {
  }

  /** `!`, `=`, `<` and `>` spell their one-character kind, and the
      two-character kind adds `=`. */
  lemma OperatorKindsSpelled(c: char)
    requires OperatorKinds(c).Some?
    ensures Spelling(OperatorKinds(c).value.0) == Some([c])
    ensures Spelling(OperatorKinds(c).value.1) == Some([c, '='])
  {
  }

  /** The one-character kinds of the operators are the four that an `=`
      could have extended. */
  lemma OperatorKindsExtensible(c: char)
    requires OperatorKinds(c).Some?
    ensures var one := OperatorKinds(c).value.0; one.Bang? || one.Equal? || one.Less? || one.Greater?
  {
  }

  /** The token a step emits is well formed: a STRING token's literal is its
      lexeme without the quotes, a NUMBER's lexeme has a fraction only with
      digits after the dot, an IDENTIFIER is no reserved word, and every
      other kind is spelled as it should be. */
  lemma StepWellFormed(src: string, pos: nat, line: int)
    requires pos < |src|
    ensures var s := StepAt(src, pos, line);
      s.action.Emit? ==> WellFormed(Token(s.action.kind, src[pos..s.end], s.action.literal, s.line))
  {
    var s := StepAt(src, pos, line);
    var c := src[pos];
    if SingleKind(c).Some? {
      SingleKindSpelled(c);
      assert src[pos..s.end] == [c];
    } else if OperatorKinds(c).Some? {
      OperatorKindsSpelled(c);
      if s.end == pos + 2 {
        assert src[pos..s.end] == [c, '='];
      } else {
        assert src[pos..s.end] == [c];
      }
    } else if c == '/' {
      if s.action.Emit? {
        assert src[pos..s.end] == [c];
      }
    } else if c == '"' {
      if s.action.Emit? {
        StringWellFormed(src, pos, line);
      }
    } else if s.action.Emit? {
      OtherWellFormed(src, pos, line);
    }
  }

  lemma StringWellFormed(src: string, pos: nat, line: int)
    requires pos < |src| && src[pos] == '"'
    requires StringStep(src, pos, line).action.Emit?
    ensures var s := StringStep(src, pos, line);
      WellFormed(Token(s.action.kind, src[pos..s.end], s.action.literal, s.line))
  {
    var s := StringStep(src, pos, line);
    var close := RunEnd(src, pos + 1, NotQuote);
    var w := src[pos..s.end];
    assert w[1..|w| - 1] == src[pos + 1..close];
  }

  lemma OtherWellFormed(src: string, pos: nat, line: int)
    requires pos < |src|
    requires OtherStep(src, pos, line).action.Emit?
    ensures var s := OtherStep(src, pos, line);
      WellFormed(Token(s.action.kind, src[pos..s.end], s.action.literal, s.line))
  {
    var s := OtherStep(src, pos, line);
    var w := src[pos..s.end];
    if IsDigit(src[pos]) {
      var whole := RunEnd(src, pos + 1, Digits);
      if s.end != whole {
        var k := whole - pos;
        assert w[..k] == src[pos..whole];
        assert w[k + 1..] == src[whole + 1..s.end];
        assert 0 < k < |w| && w[k] == '.' && AllDigits(w[..k]) && AllDigits(w[k + 1..]);
      } else {
        assert AllDigits(w);
      }
    } else {
      assert IsIdentifier(w);
      KeywordEntriesAreSpelled();
    }
  }

  /** Maximal munch: the character after a token could not have extended
      it. An operator followed by `=` is the two-character token, a slash
      followed by a slash is a comment, and identifiers and numbers run as
      far as they can; a number takes a dot only with a digit after it. */
  lemma StepMaximal(src: string, pos: nat, line: int)
    requires pos < |src|
    ensures var s := StepAt(src, pos, line);
      s.action.Emit? ==> Maximal(Token(s.action.kind, src[pos..s.end], s.action.literal, s.line), src, s.end)
  {
    var s := StepAt(src, pos, line);
    var c := src[pos];
    if SingleKind(c).Some? {
      SingleKindSpelled(c);
    } else if OperatorKinds(c).Some? {
      OperatorKindsExtensible(c);
      OperatorKindsSpelled(c);
    } else if c != '/' && c != '"' && s.action.Emit? && IsDigit(c) {
      NumberMaximal(src, pos);
    }
  }

  /** A number stops at a character that is no digit, and it stops before
      a dot only when no digit follows the dot. */
  lemma NumberMaximal(src: string, pos: nat)
    requires pos < |src| && IsDigit(src[pos])
    ensures var e := NumberEnd(src, pos);
      e == |src| ||
      (&& !IsDigit(src[e])
       && ('.' !in src[pos..e] ==> !(src[e] == '.' && e + 1 < |src| && IsDigit(src[e + 1]))))
  {
    var whole := RunEnd(src, pos + 1, Digits);
    var e := NumberEnd(src, pos);
    if e != whole {
      assert src[pos..e][whole - pos] == '.';
    }
  }

  /** A step emits and reports nothing exactly when it starts at a blank or
      a line break, or at a comment. */
  lemma StepSkips(src: string, pos: nat, line: int)
    requires pos < |src|
    ensures StepAt(src, pos, line).action.Skip? <==>
      IsBlank(src[pos]) || (src[pos] == '/' && pos + 1 < |src| && src[pos + 1] == '/')
  {
  }

  /** A comment runs up to the next line break, which it leaves for the
      next step, or to the end of the source. */
  lemma CommentStopsAtLineBreak(src: string, pos: nat, line: int)
    requires pos + 1 < |src| && src[pos] == '/' && src[pos + 1] == '/'
    ensures var s := StepAt(src, pos, line);
      && s.action.Skip? && s.line == line
      && (s.end == |src| || src[s.end] == '\n')
      && forall m :: pos <= m < s.end ==> src[m] != '\n'
  {
  }

  /** A step reports an unexpected character exactly when its character
      begins no lexeme, blank or comment. */
  lemma StepReportsUnexpected(src: string, pos: nat, line: int)
    requires pos < |src|
    ensures StepAt(src, pos, line).action == Report(UnexpectedCharacter(src[pos])) <==> !StartsLexeme(src[pos])
  {
    assert |UnexpectedCharacter(src[pos])| != |UnterminatedString|;
  }

  /** A step reports an unterminated string exactly when it starts at a
      quote that is not closed before the end of the source; it then
      consumes the rest of the source. */
  lemma StepReportsUnterminated(src: string, pos: nat, line: int)
    requires pos < |src|
    ensures var s := StepAt(src, pos, line);
      s.action == Report(UnterminatedString) <==> src[pos] == '"' && RunEnd(src, pos + 1, NotQuote) == |src|
    ensures var s := StepAt(src, pos, line);
      s.action == Report(UnterminatedString) ==> s.end == |src|
  {
    assert |UnexpectedCharacter(src[pos])| != |UnterminatedString|;
  }
}
