/** The lexical grammar of Lox as the scanner implements it: character
    classes, maximal runs of a class, and what a well-formed lexeme of each
    token kind looks like. */
module Lexical {
  import opened Tokens

  predicate IsDigit(c: char) {
    '0' <= c <= '9'
  }

  predicate IsAlpha(c: char) {
    ('a' <= c <= 'z') || ('A' <= c <= 'Z') || c == '_'
  }

  predicate IsAlphaNumeric(c: char) {
    IsAlpha(c) || IsDigit(c)
  }

  /** The characters the scanner skips: blanks and line breaks. */
  predicate IsBlank(c: char) {
    c == ' ' || c == '\r' || c == '\t' || c == '\n'
  }

  /** The characters that begin a lexeme, a blank or a comment; any other
      character is reported as unexpected. */
  predicate StartsLexeme(c: char) {
    c in ",.+-*/;(){}!=<>\"" || IsBlank(c) || IsDigit(c) || IsAlpha(c)
  }

  /** The number of line breaks in `src[i..j]`. */
  function Newlines(src: string, i: nat, j: nat): nat
    requires i <= j <= |src|
    decreases j - i
  {
    if i == j then 0 else Newlines(src, i, j - 1) + (if src[j - 1] == '\n' then 1 else 0)
  }

  /** Counting line breaks is additive over adjacent stretches of text. */
  lemma {:induction false} NewlinesSplit(src: string, i: nat, j: nat, k: nat)
    requires i <= j <= k <= |src|
    ensures Newlines(src, i, k) == Newlines(src, i, j) + Newlines(src, j, k)
    decreases k - j
  {
    if j < k {
      NewlinesSplit(src, i, j, k - 1);
    }
  }

  /** Text without a line break has none to count. */
  lemma {:induction false} NoNewlines(src: string, i: nat, j: nat)
    requires i <= j <= |src|
    requires forall m :: i <= m < j ==> src[m] != '\n'
    ensures Newlines(src, i, j) == 0
    decreases j - i
  {
    if i < j {
      NoNewlines(src, i, j - 1);
    }
  }

  /** The classes of character that the scanner's inner loops run over. */
  datatype Run = Digits | Word | NotNewline | NotQuote

  predicate InRun(c: char, run: Run) {
    match run
    case Digits => IsDigit(c)
    case Word => IsAlphaNumeric(c)
    case NotNewline => c != '\n'
    case NotQuote => c != '"'
  }

  /** The end of the longest run of `run` characters that starts at `i`. */
  function RunEnd(src: string, i: nat, run: Run): (j: nat)
    requires i <= |src|
    ensures i <= j <= |src|
    ensures forall m :: i <= m < j ==> InRun(src[m], run)
    ensures j == |src| || !InRun(src[j], run)
    decreases |src| - i
  {
    if i == |src| || !InRun(src[i], run) then i else RunEnd(src, i + 1, run)
  }

  /** A run is determined by its two ends: any `j` at which a run of `run`
      characters from `i` stops is RunEnd(src, i, run). */
  lemma RunEndUnique(src: string, i: nat, run: Run, j: nat)
    requires i <= j <= |src|
    requires forall m :: i <= m < j ==> InRun(src[m], run)
    requires j == |src| || !InRun(src[j], run)
    ensures RunEnd(src, i, run) == j
  {
  }

  predicate AllDigits(s: string) {
    |s| > 0 && forall m :: 0 <= m < |s| ==> IsDigit(s[m])
  }

  /** A letter or underscore followed by letters, digits and underscores. */
  predicate IsIdentifier(w: string) {
    |w| > 0 && IsAlpha(w[0]) && forall m :: 0 <= m < |w| ==> IsAlphaNumeric(w[m])
  }

  /** Digits, optionally followed by a dot and more digits. */
  predicate IsNumberLexeme(w: string) {
    AllDigits(w) || exists k :: 0 < k < |w| && w[k] == '.' && AllDigits(w[..k]) && AllDigits(w[k + 1..])
  }

  /** A double quote, anything but a double quote, and a double quote. */
  predicate IsStringLexeme(w: string) {
    |w| >= 2 && w[0] == '"' && w[|w| - 1] == '"' && '"' !in w[1..|w| - 1]
  }

  /** What a token of each kind looks like, independent of how it was found. */
  predicate WellFormed(t: Token) {
    match t.tokenType
    case Identifier => IsIdentifier(t.lexeme) && t.lexeme !in Keywords && t.literal == Null
    case String => IsStringLexeme(t.lexeme) && t.literal == Str(t.lexeme[1..|t.lexeme| - 1])
    case Number => IsNumberLexeme(t.lexeme) && t.literal == Num(t.lexeme)
    case Eof => t.lexeme == "" && t.literal == Null
    case _ => Spelling(t.tokenType) == Some(t.lexeme) && t.literal == Null
  }

  /** Maximal munch: the character at `e`, just after token `t`, could not
      have extended it into a longer token. */
  predicate Maximal(t: Token, src: string, e: nat)
    requires e <= |src|
  {
    e == |src| ||
    match t.tokenType
    case Identifier => !IsAlphaNumeric(src[e])
    case Number =>
      && !IsDigit(src[e])
      && ('.' !in t.lexeme ==> !(src[e] == '.' && e + 1 < |src| && IsDigit(src[e + 1])))
    case Bang | Equal | Less | Greater => src[e] != '='
    case Slash => src[e] != '/'
    case _ => t.tokenType.IsKeyword() ==> !IsAlphaNumeric(src[e])
  }
}
