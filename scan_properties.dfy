/** What the scanner promises about its whole output, proved of ScanFrom by
    induction over the turns of the main loop. */
module ScanProperties {
  import opened Tokens
  import opened Lexical
  import opened Scanning
  import opened StepProperties

  /** Regrouping an append, stated once so that the main loop of the lexer
      can use it without the solver searching for it among the heap facts. */
  lemma Regroup<T>(a: seq<T>, b: seq<T>, c: seq<T>)
    ensures (a + b) + c == a + (b + c)
  {
  }

  /** A scan is its first step's contribution followed by the scan after it. */
  lemma ScanFromStep(src: string, pos: nat, line: int)
    requires pos < |src|
    ensures var s := StepAt(src, pos, line);
      var here := Emitted(src, pos, s);
      var rest := ScanFrom(src, s.end, s.line);
      ScanFrom(src, pos, line) == Scanned(here.tokens + rest.tokens, here.errors + rest.errors)
  {
  }

  /** The output ends with the EOF token, on the line after the last line
      break, and no other token is EOF. */
  lemma {:induction false} ScanEndsWithEof(src: string, pos: nat, line: int)
    requires pos <= |src|
    ensures var t := ScanFrom(src, pos, line).tokens;
      && |t| >= 1
      && t[|t| - 1] == Token(Eof, "", Null, line + Newlines(src, pos, |src|))
      && forall i :: 0 <= i < |t| - 1 ==> t[i].tokenType != Eof
    decreases |src| - pos
  {
    if pos < |src| {
      var s := StepAt(src, pos, line);
      var here := Emitted(src, pos, s);
      var rest := ScanFrom(src, s.end, s.line);
      ScanEndsWithEof(src, s.end, s.line);
      StepCountsNewlines(src, pos, line);
      NewlinesSplit(src, pos, s.end, |src|);
      ScanFromStep(src, pos, line);
      var t := ScanFrom(src, pos, line).tokens;
      assert t == here.tokens + rest.tokens;
      forall i | 0 <= i < |t| - 1
        ensures t[i].tokenType != Eof
      {
        if i >= |here.tokens| {
          assert t[i] == rest.tokens[i - |here.tokens|];
        }
      }
    }
  }

  /** Token lines and error lines never decrease and never fall below the
      line the scan started on. */
  lemma {:induction false} ScanLinesOrdered(src: string, pos: nat, line: int)
    requires pos <= |src|
    ensures var r := ScanFrom(src, pos, line);
      && (forall i :: 0 <= i < |r.tokens| ==> line <= r.tokens[i].line)
      && (forall i, j :: 0 <= i < j < |r.tokens| ==> r.tokens[i].line <= r.tokens[j].line)
      && (forall i :: 0 <= i < |r.errors| ==> line <= r.errors[i].line)
      && (forall i, j :: 0 <= i < j < |r.errors| ==> r.errors[i].line <= r.errors[j].line)
    decreases |src| - pos
  {
    if pos < |src| {
      var s := StepAt(src, pos, line);
      var here := Emitted(src, pos, s);
      var rest := ScanFrom(src, s.end, s.line);
      ScanLinesOrdered(src, s.end, s.line);
      StepCountsNewlines(src, pos, line);
      ScanFromStep(src, pos, line);
      var r := ScanFrom(src, pos, line);
      assert r.tokens == here.tokens + rest.tokens;
      assert r.errors == here.errors + rest.errors;
      assert forall i :: 0 <= i < |r.tokens| ==> r.tokens[i].line >= s.line || i < |here.tokens|;
    }
  }

  /** TokenStarts follows the same steps as ScanFrom. */
  lemma TokenStartsStep(src: string, pos: nat, line: int)
    requires pos < |src|
    ensures var s := StepAt(src, pos, line);
      TokenStarts(src, pos, line) == (if s.action.Emit? then [pos] else []) + TokenStarts(src, s.end, s.line)
  {
  }

  /** The first step of a scan puts its token, if any, and that token's
      start before the tokens and starts of the rest of the scan. */
  lemma ScanStepTokens(src: string, pos: nat, line: int)
    requires pos < |src|
    ensures var s := StepAt(src, pos, line);
      var rest := ScanFrom(src, s.end, s.line).tokens;
      var rst := TokenStarts(src, s.end, s.line);
      if s.action.Emit? then
        && ScanFrom(src, pos, line).tokens == [Token(s.action.kind, src[pos..s.end], s.action.literal, s.line)] + rest
        && TokenStarts(src, pos, line) == [pos] + rst
      else
        ScanFrom(src, pos, line).tokens == rest && TokenStarts(src, pos, line) == rst
  {
    ScanFromStep(src, pos, line);
    TokenStartsStep(src, pos, line);
  }

  /** The tokens `t` but the last start at the offsets `st`, at or after
      `from`: each lexeme is the non-empty text of the source there, and the
      lexemes follow one another without overlapping. */
  ghost predicate LexemesAt(src: string, from: nat, t: seq<Token>, st: seq<nat>) {
    && |st| == |t| - 1
    && (forall i :: 0 <= i < |st| ==>
          && from <= st[i] < st[i] + |t[i].lexeme| <= |src|
          && t[i].lexeme == src[st[i]..st[i] + |t[i].lexeme|])
    && (forall i, j :: 0 <= i < j < |st| ==> st[i] + |t[i].lexeme| <= st[j])
  }

  /** A token whose lexeme is `src[pos..e]`, put before tokens that start at
      or after `e`. */
  lemma LexemesCons(src: string, pos: nat, e: nat, tok: Token, t: seq<Token>, st: seq<nat>)
    requires pos < e <= |src| && tok.lexeme == src[pos..e]
    requires LexemesAt(src, e, t, st)
    ensures LexemesAt(src, pos, [tok] + t, [pos] + st)
  {
    var t', st' := [tok] + t, [pos] + st;
    forall i | 0 <= i < |st'|
      ensures pos <= st'[i] < st'[i] + |t'[i].lexeme| <= |src|
      ensures t'[i].lexeme == src[st'[i]..st'[i] + |t'[i].lexeme|]
    {
      if i > 0 {
        assert st'[i] == st[i - 1] && t'[i] == t[i - 1];
      }
    }
    forall i, j | 0 <= i < j < |st'|
      ensures st'[i] + |t'[i].lexeme| <= st'[j]
    {
      assert st'[j] == st[j - 1];
      if i > 0 {
        assert st'[i] == st[i - 1] && t'[i] == t[i - 1];
      }
    }
  }

  lemma LexemesLater(src: string, pos: nat, e: nat, t: seq<Token>, st: seq<nat>)
    requires pos <= e && LexemesAt(src, e, t, st)
    ensures LexemesAt(src, pos, t, st)
  {
  }

  /** Each token but EOF has a start offset: its lexeme is the non-empty
      text of the source from there, and the lexemes follow one another in
      order without overlapping. */
  lemma {:induction false} ScanLexemesInOrder(src: string, pos: nat, line: int)
    requires pos <= |src|
    ensures LexemesAt(src, pos, ScanFrom(src, pos, line).tokens, TokenStarts(src, pos, line))
    decreases |src| - pos
  {
    if pos < |src| {
      var s := StepAt(src, pos, line);
      var rest := ScanFrom(src, s.end, s.line).tokens;
      var rst := TokenStarts(src, s.end, s.line);
      ScanLexemesInOrder(src, s.end, s.line);
      ScanStepTokens(src, pos, line);
      if s.action.Emit? {
        LexemesCons(src, pos, s.end, Token(s.action.kind, src[pos..s.end], s.action.literal, s.line), rest, rst);
      } else {
        LexemesLater(src, pos, s.end, rest, rst);
      }
    }
  }

  /** Every token is well formed, and every token but the last is as long
      as it can be. */
  ghost predicate TokensLawful(src: string, t: seq<Token>, st: seq<nat>) {
    && (forall i :: 0 <= i < |t| ==> WellFormed(t[i]))
    && (forall i :: 0 <= i < |st| && i < |t| && st[i] + |t[i].lexeme| <= |src| ==>
          Maximal(t[i], src, st[i] + |t[i].lexeme|))
  }

  lemma LawfulCons(src: string, pos: nat, tok: Token, t: seq<Token>, st: seq<nat>)
    requires pos + |tok.lexeme| <= |src|
    requires WellFormed(tok) && Maximal(tok, src, pos + |tok.lexeme|)
    requires TokensLawful(src, t, st)
    ensures TokensLawful(src, [tok] + t, [pos] + st)
  {
    var t', st' := [tok] + t, [pos] + st;
    assert forall i :: 1 <= i < |t'| ==> t'[i] == t[i - 1];
    assert forall i :: 1 <= i < |st'| ==> st'[i] == st[i - 1];
  }

  /** Every token is well formed, and every token but EOF is as long as it
      can be. */
  lemma {:induction false} ScanTokensWellFormed(src: string, pos: nat, line: int)
    requires pos <= |src|
    ensures TokensLawful(src, ScanFrom(src, pos, line).tokens, TokenStarts(src, pos, line))
    decreases |src| - pos
  {
    if pos < |src| {
      var s := StepAt(src, pos, line);
      var rest := ScanFrom(src, s.end, s.line).tokens;
      var rst := TokenStarts(src, s.end, s.line);
      ScanTokensWellFormed(src, s.end, s.line);
      ScanStepTokens(src, pos, line);
      if s.action.Emit? {
        StepWellFormed(src, pos, line);
        StepMaximal(src, pos, line);
        LawfulCons(src, pos, Token(s.action.kind, src[pos..s.end], s.action.literal, s.line), rest, rst);
      }
    }
  }

  /** An unterminated string ends the scan: its error is the last one, and
      it and the EOF token carry the line the source ends on. */
  lemma UnterminatedStringEndsScan(src: string, pos: nat, line: int)
    requires pos < |src| && src[pos] == '"' && RunEnd(src, pos + 1, NotQuote) == |src|
    ensures var last := line + Newlines(src, pos, |src|);
      ScanFrom(src, pos, line) == Scanned([Token(Eof, "", Null, last)], [LexError(last, UnterminatedString)])
  {
    StepCountsNewlines(src, pos, line);
    ScanFromStep(src, pos, line);
  }

  /** What a whole scan promises, from the first character on line 1: one
      EOF token, last, on the line after the last line break; well-formed
      tokens on lines that never decrease; and lexemes that are the source's
      own text, in order and without overlapping. */
  lemma ScanOfSource(src: string)
    ensures var t := Scan(src).tokens;
      && |t| >= 1
      && t[|t| - 1] == Token(Eof, "", Null, 1 + Newlines(src, 0, |src|))
      && (forall i :: 0 <= i < |t| - 1 ==> t[i].tokenType != Eof)
      && (forall i :: 0 <= i < |t| ==> WellFormed(t[i]))
      && (forall i, j :: 0 <= i < j < |t| ==> 1 <= t[i].line <= t[j].line)
    ensures LexemesAt(src, 0, Scan(src).tokens, TokenStarts(src, 0, 1))
  {
    ScanEndsWithEof(src, 0, 1);
    ScanTokensWellFormed(src, 0, 1);
    ScanLinesOrdered(src, 0, 1);
    ScanLexemesInOrder(src, 0, 1);
  }
}
