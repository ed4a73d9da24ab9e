/** The Lox scanner as the Java class `Lexer` implements it: a cursor over
    the source, a line counter and a token list that grows in place. */
module Jlox {
  import opened Tokens
  import opened Lexical
  import opened Scanning
  import opened StepProperties
  import opened ScanProperties

  class Lexer {
    const source: string
    var tokens: seq<Token>
    var start: nat
    var curr: nat
    var line: int
    /** The lexical errors reported so far, in order (`Jlox.error` writes
        them to the error stream). */
    ghost var errors: seq<LexError>

    ghost predicate Valid()
      reads this
    {
      start <= curr <= |source|
    }

    constructor (source: string)
      ensures Valid()
      ensures this.source == source && tokens == [] && errors == []
      ensures start == 0 && curr == 0 && line == 1
    {
      this.source := source;
      tokens, errors := [], [];
      start, curr, line := 0, 0, 1;
    }

    /** Scans the rest of the source, appends its tokens and the EOF token to
        `tokens`, reports its errors, and returns the token list. `start` is
        scratch state: afterwards it is only known to lie within the scanned
        text, as `Valid()` says. */
    method LexTokens() returns (result: seq<Token>)
      requires Valid()
      modifies this
      ensures Valid() && curr == |source|
      ensures tokens == old(tokens) + ScanFrom(source, old(curr), old(line)).tokens
      ensures errors == old(errors) + ScanFrom(source, old(curr), old(line)).errors
      ensures line == old(line) + Newlines(source, old(curr), |source|)
      ensures result == tokens
    {
      ghost var rest := ScanFrom(source, curr, line);
      ghost var curr0, line0, tokens0, errors0 := curr, line, tokens, errors;
      while !IsDone()
        invariant Valid() && curr0 <= curr
        invariant tokens0 + rest.tokens == tokens + ScanFrom(source, curr, line).tokens
        invariant errors0 + rest.errors == errors + ScanFrom(source, curr, line).errors
        invariant line == line0 + Newlines(source, curr0, curr)
        decreases |source| - curr
      {
        ghost var before, tokensBefore, errorsBefore := line, tokens, errors;
        LexToken();
        ScanFromStep(source, start, before);
        ghost var here := Emitted(source, start, StepAt(source, start, before));
        ghost var after := ScanFrom(source, curr, line);
        Regroup(tokensBefore, here.tokens, after.tokens);
        Regroup(errorsBefore, here.errors, after.errors);
        StepCountsNewlines(source, start, before);
        NewlinesSplit(source, curr0, start, curr);
      }
      tokens := tokens + [Token(Eof, "", Null, line)];
      result := tokens;
    }

    /** The effect of `step`, taken from `start`, on the scanner: the
        cursor and the line counter are where the step leaves them, and its
        token or error has been appended. */
    ghost predicate Performed(step: Step, tokens0: seq<Token>, errors0: seq<LexError>)
      reads this
      requires start <= step.end <= |source|
    {
      && curr == step.end && line == step.line
      && tokens == tokens0 + Emitted(source, start, step).tokens
      && errors == errors0 + Emitted(source, start, step).errors
    }

    /** One turn of the main loop: marks the start of a lexeme, consumes it,
        and emits its token, skips it, or reports an error, as StepAt says. */
    method LexToken()
      requires Valid() && curr < |source|
      modifies this
      ensures Valid() && start == old(curr) && old(curr) < curr
      ensures Performed(StepAt(source, start, old(line)), old(tokens), old(errors))
    {
      start := curr;
      var c := Next();
      match c
      case ',' => AddToken(Comma, Null);
      case '.' => AddToken(Dot, Null);
      case '+' => AddToken(Plus, Null);
      case '-' => AddToken(Minus, Null);
      case '*' => AddToken(Star, Null);
      case '/' => LexSlash();
      case ';' => AddToken(Semicolon, Null);
      case '(' => AddToken(LeftParen, Null);
      case ')' => AddToken(RightParen, Null);
      case '{' => AddToken(LeftBrace, Null);
      case '}' => AddToken(RightBrace, Null);
      case '!' => LexOperator(Bang, BangEqual);
      case '=' => LexOperator(Equal, EqualEqual);
      case '<' => LexOperator(Less, LessEqual);
      case '>' => LexOperator(Greater, GreaterEqual);
      case '"' => LexString();
      case '\n' => line := line + 1;
      case ' ' | '\r' | '\t' =>
      case _ => LexOther(c);
    }

    /** The slash case: a comment when a second slash follows, which is
        skipped up to the next line break, and a SLASH token otherwise. */
    method LexSlash()
      requires start < |source| && curr == start + 1
      modifies this`curr, this`tokens
      ensures Performed(SlashStep(source, start, old(line)), old(tokens), old(errors))
    {
      var comment := Match('/');
      if comment {
        SkipComment();
      } else {
        AddToken(Slash, Null);
      }
    }

    /** The comment loop: skips to the next line break or the end of the
        source, leaving the line break unconsumed. */
    method SkipComment()
      requires curr <= |source|
      modifies this`curr
      ensures curr == RunEnd(source, old(curr), NotNewline)
    {
      ghost var from := curr;
      while Peek() != '\n' && !IsDone()
        invariant from <= curr <= |source|
        invariant forall m :: from <= m < curr ==> source[m] != '\n'
        decreases |source| - curr
      {
        var _ := Next();
      }
      RunEndUnique(source, from, NotNewline, curr);
    }

    /** The cases of `!`, `=`, `<` and `>`: the two-character token `two`
        when `=` follows, consuming it, and the one-character token `one`
        otherwise. */
    method LexOperator(one: TokenType, two: TokenType)
      requires start < |source| && curr == start + 1
      modifies this`curr, this`tokens
      ensures Performed(Operator(source, start, old(line), one, two), old(tokens), old(errors))
    {
      var matched := Match('=');
      AddToken(if matched then two else one, Null);
    }

    /** The string case, entered after the opening quote: consumes up to and
        including the closing quote, counting the line breaks inside, and
        emits a STRING token whose literal is the text between the quotes;
        without a closing quote it reports an error and emits nothing. */
    method LexString()
      requires start < |source| && curr == start + 1
      modifies this`curr, this`line, this`tokens, this`errors
      ensures Performed(StringStep(source, start, old(line)), old(tokens), old(errors))
    {
      SkipStringBody();
      if !IsDone() {
        var _ := Next(); // the closing quote
        var text := source[start + 1..curr - 1];
        AddToken(String, Str(text));
      } else {
        // Jlox.error(line, ...)
        errors := errors + [LexError(line, UnterminatedString)];
      }
    }

    /** The loop of the string case: skips to the closing quote or the end of
        the source, counting the line breaks it passes. */
    method SkipStringBody()
      requires curr <= |source|
      modifies this`curr, this`line
      ensures curr == RunEnd(source, old(curr), NotQuote)
      ensures line == old(line) + Newlines(source, old(curr), curr)
    {
      ghost var from, first := curr, line;
      while Peek() != '"' && !IsDone()
        invariant from <= curr <= |source|
        invariant forall m :: from <= m < curr ==> source[m] != '"'
        invariant line == first + Newlines(source, from, curr)
        decreases |source| - curr
      {
        if Peek() == '\n' {
          line := line + 1;
        }
        var _ := Next();
      }
      RunEndUnique(source, from, NotQuote, curr);
    }

    /** The default case: a number, a keyword or identifier, or an
        unexpected character, which is reported and skipped. */
    method LexOther(c: char)
      requires start < |source| && curr == start + 1 && c == source[start]
      modifies this`curr, this`tokens, this`errors
      ensures Performed(OtherStep(source, start, old(line)), old(tokens), old(errors))
    {
      if IsDigit(c) {
        LexNumber();
      } else if IsAlpha(c) {
        LexIdentifier();
      } else {
        // Jlox.error(line, ...)
        errors := errors + [LexError(line, UnexpectedCharacter(c))];
      }
    }

    /** The number branch, entered after the first digit: consumes the
        digits, and a dot with the digits after it when a digit follows the
        dot, then emits a NUMBER token. */
    method LexNumber()
      requires start < |source| && IsDigit(source[start]) && curr == start + 1
      modifies this`curr, this`tokens
      ensures curr == NumberEnd(source, start)
      ensures tokens == old(tokens) + [Token(Number, source[start..curr], Num(source[start..curr]), line)]
    {
      SkipDigits();
      if Peek() == '.' && IsDigit(PeekNext()) {
        var _ := Next();
        SkipDigits();
      }
      AddToken(Number, Num(source[start..curr]));
    }

    /** The digit loop of the number branch, run for the whole part and again
        for the fraction: skips to the first character that is not a digit. */
    method SkipDigits()
      requires curr <= |source|
      modifies this`curr
      ensures curr == RunEnd(source, old(curr), Digits)
    {
      ghost var from := curr;
      while IsDigit(Peek())
        invariant from <= curr <= |source|
        invariant forall m :: from <= m < curr ==> IsDigit(source[m])
        decreases |source| - curr
      {
        var _ := Next();
      }
      RunEndUnique(source, from, Digits, curr);
    }

    /** The identifier branch, entered after the first letter: consumes the
        letters, digits and underscores, and emits the keyword's token when
        the word is reserved and an IDENTIFIER token otherwise. */
    method LexIdentifier()
      requires start < |source| && IsAlpha(source[start]) && curr == start + 1
      modifies this`curr, this`tokens
      ensures curr == RunEnd(source, start + 1, Word)
      ensures var w := source[start..curr];
        tokens == old(tokens) + [Token(if w in Keywords then Keywords[w] else Identifier, w, Null, line)]
    {
      while IsAlphaNumeric(Peek())
        modifies this`curr
        invariant start + 1 <= curr <= |source|
        invariant forall m :: start + 1 <= m < curr ==> IsAlphaNumeric(source[m])
        decreases |source| - curr
      {
        var _ := Next();
      }
      RunEndUnique(source, start + 1, Word, curr);
      var text := source[start..curr];
      var kind := if text in Keywords then Keywords[text] else Identifier;
      AddToken(kind, Null);
    }

    /** Consumes and returns the character under the cursor. */
    method Next() returns (c: char)
      requires curr < |source|
      modifies this`curr
      ensures c == source[old(curr)] && curr == old(curr) + 1
    {
      c := source[curr];
      curr := curr + 1;
    }

    /** Appends a token whose lexeme is the text between `start` and the cursor. */
    method AddToken(kind: TokenType, literal: Literal)
      requires start <= curr <= |source|
      modifies this`tokens
      ensures tokens == old(tokens) + [Token(kind, source[start..curr], literal, line)]
    {
      tokens := tokens + [Token(kind, source[start..curr], literal, line)];
    }

    /** The character under the cursor, or the sentinel '\0' at the end. */
    function Peek(): (c: char)
      reads this
      ensures curr < |source| ==> c == source[curr]
      ensures curr >= |source| ==> c == '\0'
    {
      if IsDone() then '\0' else source[curr]
    }

    /** The character after the cursor, or the sentinel '\0' past the end. */
    function PeekNext(): (c: char)
      reads this
      ensures curr + 1 < |source| ==> c == source[curr + 1]
      ensures curr + 1 >= |source| ==> c == '\0'
    {
      if curr + 1 >= |source| then '\0' else source[curr + 1]
    }

    predicate IsDone()
      reads this
    {
      curr >= |source|
    }

    /** Consumes the character under the cursor only if it is `expected`. */
    method Match(expected: char) returns (matched: bool)
      requires curr <= |source|
      modifies this`curr
      ensures matched <==> old(curr) < |source| && source[old(curr)] == expected
      ensures curr == if matched then old(curr) + 1 else old(curr)
    {
      if IsDone() || source[curr] != expected {
        return false;
      }
      curr := curr + 1;
      return true;
    }
  }

  /** Scans a whole source with a fresh scanner, as the interpreter does
      before it parses: the tokens are those of Scan. */
  method Tokenize(source: string) returns (tokens: seq<Token>)
    ensures tokens == Scan(source).tokens
  {
    var lexer := new Lexer(source);
    tokens := lexer.LexTokens();
  }
}
