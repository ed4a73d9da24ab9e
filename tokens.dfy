/** Token kinds, tokens and the keyword table of the Lox scanner. */
module Tokens {

  datatype Option<+T> = None | Some(value: T)

  /** The kinds of token the scanner produces, in the order of the Java enum. */
  datatype TokenType =
    // Literals
    | Identifier | String | Number
    // Keywords
    | And | Class | Else | False | Fun | For | If | Nil | Or
    | Print | Return | Super | This | True | Var | While
    // Single-character tokens
    | Semicolon | Comma | Dot | Slash | Star | Minus | Plus
    | LeftParen | RightParen | LeftBrace | RightBrace
    // One or two character tokens
    | Bang | BangEqual | Equal | EqualEqual
    | Greater | GreaterEqual | Less | LessEqual
    | Eof
  {
    /** The sixteen reserved words. */
    predicate IsKeyword() {
      || And? || Class? || Else? || False? || Fun? || For? || If? || Nil?
      || Or? || Print? || Return? || Super? || This? || True? || Var? || While?
    }
  }

  /** The literal a token carries: Java's `null`, a `String`, or a `Double`.
      The value of a number stays abstract: it is represented by its digits. */
  datatype Literal = Null | Str(text: string) | Num(digits: string)

  datatype Token = Token(tokenType: TokenType, lexeme: string, literal: Literal, line: int)

  /** The reserved-word table that identifiers are looked up in. */
  const Keywords: map<string, TokenType> := map[
    "and"    := And,
    "class"  := Class,
    "else"   := Else,
    "false"  := False,
    "for"    := For,
    "fun"    := Fun,
    "if"     := If,
    "nil"    := Nil,
    "or"     := Or,
    "print"  := Print,
    "return" := Return,
    "super"  := Super,
    "this"   := This,
    "true"   := True,
    "var"    := Var,
    "while"  := While
  ]

  /** The one lexeme a token of a fixed-spelling kind can have; None for the
      kinds whose lexeme varies (identifiers, literals) and for EOF. */
  function Spelling(kind: TokenType): Option<string> {
    match kind
    case Identifier | String | Number | Eof => None
    case And => Some("and")
    case Class => Some("class")
    case Else => Some("else")
    case False => Some("false")
    case Fun => Some("fun")
    case For => Some("for")
    case If => Some("if")
    case Nil => Some("nil")
    case Or => Some("or")
    case Print => Some("print")
    case Return => Some("return")
    case Super => Some("super")
    case This => Some("this")
    case True => Some("true")
    case Var => Some("var")
    case While => Some("while")
    case Semicolon => Some(";")
    case Comma => Some(",")
    case Dot => Some(".")
    case Slash => Some("/")
    case Star => Some("*")
    case Minus => Some("-")
    case Plus => Some("+")
    case LeftParen => Some("(")
    case RightParen => Some(")")
    case LeftBrace => Some("{")
    case RightBrace => Some("}")
    case Bang => Some("!")
    case BangEqual => Some("!=")
    case Equal => Some("=")
    case EqualEqual => Some("==")
    case Greater => Some(">")
    case GreaterEqual => Some(">=")
    case Less => Some("<")
    case LessEqual => Some("<=")
  }

  /** Every entry of the keyword table maps a reserved word to the keyword
      kind spelled that way. */
  lemma KeywordEntriesAreSpelled()
    ensures forall w :: w in Keywords ==> Keywords[w].IsKeyword() && Spelling(Keywords[w]) == Some(w)
  {
    forall w | w in Keywords
      ensures Keywords[w].IsKeyword() && Spelling(Keywords[w]) == Some(w)
    {
      assert w in Keywords.Keys;
    }
  }

  /** Every keyword kind has an entry in the keyword table under its spelling. */
  lemma KeywordKindsAreInTable()
    ensures forall kind: TokenType :: kind.IsKeyword() ==>
              Spelling(kind).Some? && Spelling(kind).value in Keywords && Keywords[Spelling(kind).value] == kind
  {
  }
}
