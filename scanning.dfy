/** A reference definition of the Lox scanner, one lexeme at a time: StepAt
    says what one turn of the scanner's main loop does at a position, and
    ScanFrom strings the turns together. */
module Scanning {
  import opened Tokens
  import opened Lexical

  /** A lexical error as the scanner reports it: the line and the message. */
  datatype LexError = LexError(line: int, message: string)

  const UnterminatedString: string := "Unterminated string."

  function UnexpectedCharacter(c: char): string {
    "Unexpected character " + [c] + "."
  }

  /** What one turn of the main loop does besides moving the cursor. */
  datatype Action =
    | Emit(kind: TokenType, literal: Literal)
    | Skip
    | Report(message: string)

  /** One turn of the main loop: where the cursor ends up, the line counter
      afterwards, and what was emitted or reported. */
  datatype Step = Step(end: nat, line: int, action: Action)

  /** The end of a number lexeme starting at `pos`: digits, then a dot and
      digits only when a digit follows the dot. */
  function NumberEnd(src: string, pos: nat): (e: nat)
    requires pos < |src| && IsDigit(src[pos])
    ensures pos < e <= |src|
  {
    var whole := RunEnd(src, pos + 1, Digits);
    if whole + 1 < |src| && src[whole] == '.' && IsDigit(src[whole + 1])
    then RunEnd(src, whole + 1, Digits)
    else whole
  }

  /** The kind of token a character makes on its own, if it is one of the
      ten one-character tokens whose case does nothing but add
      the token (`/`, the eleventh, may begin a comment instead). */
  function SingleKind(c: char): Option<TokenType> {
    match c
    case ',' => Some(Comma)
    case '.' => Some(Dot)
    case '+' => Some(Plus)
    case '-' => Some(Minus)
    case '*' => Some(Star)
    case ';' => Some(Semicolon)
    case '(' => Some(LeftParen)
    case ')' => Some(RightParen)
    case '{' => Some(LeftBrace)
    case '}' => Some(RightBrace)
    case _ => None
  }

  /** The one- and two-character kinds of `!`, `=`, `<` and `>`. */
  function OperatorKinds(c: char): Option<(TokenType, TokenType)> {
    match c
    case '!' => Some((Bang, BangEqual))
    case '=' => Some((Equal, EqualEqual))
    case '<' => Some((Less, LessEqual))
    case '>' => Some((Greater, GreaterEqual))
    case _ => None
  }

  /** `!`, `=`, `<` or `>`: the two-character kind when `=` follows. */
  function Operator(src: string, pos: nat, line: int, one: TokenType, two: TokenType): Step
    requires pos < |src|
  {
    if pos + 1 < |src| && src[pos + 1] == '=' then Step(pos + 2, line, Emit(two, Null))
    else Step(pos + 1, line, Emit(one, Null))
  }

  /** A slash: a comment running up to the next line break, or a SLASH token. */
  function SlashStep(src: string, pos: nat, line: int): Step
    requires pos < |src|
  {
    if pos + 1 < |src| && src[pos + 1] == '/' then Step(RunEnd(src, pos + 2, NotNewline), line, Skip)
    else Step(pos + 1, line, Emit(Slash, Null))
  }

  /** A string literal: everything up to the closing quote, whose line breaks
      are counted; an error when the source ends first. */
  function StringStep(src: string, pos: nat, line: int): Step
    requires pos < |src|
  {
    var close := RunEnd(src, pos + 1, NotQuote);
    var after := line + Newlines(src, pos + 1, close);
    if close < |src| then Step(close + 1, after, Emit(String, Str(src[pos + 1..close])))
    else Step(close, after, Report(UnterminatedString))
  }

  /** A character without a case of its own: a number, a word, or an error. */
  function OtherStep(src: string, pos: nat, line: int): Step
    requires pos < |src|
  {
    var c := src[pos];
    if IsDigit(c) then
      var e := NumberEnd(src, pos);
      Step(e, line, Emit(Number, Num(src[pos..e])))
    else if IsAlpha(c) then
      var e := RunEnd(src, pos + 1, Word);
      var w := src[pos..e];
      Step(e, line, Emit(if w in Keywords then Keywords[w] else Identifier, Null))
    else Step(pos + 1, line, Report(UnexpectedCharacter(c)))
  }

  /** One turn of the scanner's main loop, started at `pos` with the line
      counter at `line`. The cases are those of the scanner's `switch`,
      grouped by shape. */
  function StepAt(src: string, pos: nat, line: int): (s: Step)
    requires pos < |src|
    ensures pos < s.end <= |src|
    ensures s.action.Emit? ==> s.action.kind != Eof
  {
    var c := src[pos];
    if SingleKind(c).Some? then Step(pos + 1, line, Emit(SingleKind(c).value, Null))
    else if OperatorKinds(c).Some? then Operator(src, pos, line, OperatorKinds(c).value.0, OperatorKinds(c).value.1)
    else if c == '/' then SlashStep(src, pos, line)
    else if c == '"' then StringStep(src, pos, line)
    else if c == '\n' then Step(pos + 1, line + 1, Skip)
    else if c == ' ' || c == '\r' || c == '\t' then Step(pos + 1, line, Skip)
    else OtherStep(src, pos, line)
  }

  /** The tokens and the errors of a scan. */
  datatype Scanned = Scanned(tokens: seq<Token>, errors: seq<LexError>)

  /** What step `s`, taken at `pos`, contributes: the token it emits, whose
      lexeme is the text it consumed and whose line is the line counter once
      that text is consumed, or the error it reports, or nothing. */
  function Emitted(src: string, pos: nat, s: Step): Scanned
    requires pos <= s.end <= |src|
  {
    match s.action
    case Emit(kind, literal) => Scanned([Token(kind, src[pos..s.end], literal, s.line)], [])
    case Skip => Scanned([], [])
    case Report(message) => Scanned([], [LexError(s.line, message)])
  }

  /** Everything the scanner emits and reports from `pos` on, the EOF token
      included. */
  function ScanFrom(src: string, pos: nat, line: int): Scanned
    requires pos <= |src|
    decreases |src| - pos
  {
    if pos == |src| then Scanned([Token(Eof, "", Null, line)], [])
    else
      var s := StepAt(src, pos, line);
      var here := Emitted(src, pos, s);
      var rest := ScanFrom(src, s.end, s.line);
      Scanned(here.tokens + rest.tokens, here.errors + rest.errors)
  }

  /** A whole scan: from the first character, on line 1. */
  function Scan(src: string): Scanned {
    ScanFrom(src, 0, 1)
  }

  /** Where each token that ScanFrom emits begins (the EOF token excluded). */
  ghost function TokenStarts(src: string, pos: nat, line: int): seq<nat>
    requires pos <= |src|
    decreases |src| - pos
  {
    if pos == |src| then []
    else
      var s := StepAt(src, pos, line);
      var rest := TokenStarts(src, s.end, s.line);
      if s.action.Emit? then [pos] + rest else rest
  }
}
