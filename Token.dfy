/**
 * The token vocabulary of the scanner (src/lexer/token.rs): the kinds of
 * tokens, their spans, and the two lookup tables that map operator
 * spellings and symbol characters to kinds.
 */
module Token {
  import opened Wrappers

  /** A signed 64-bit integer, the payload of a number literal. */
  newtype i64 = x: int | -0x8000_0000_0000_0000 <= x < 0x8000_0000_0000_0000

  const I64_MAX: int := 0x7FFF_FFFF_FFFF_FFFF

  datatype TokenKind =
    | Ident(text: string)    // identifier
    | Number(value: i64)     // number or character literal
    | Str(body: string)      // string literal
    | Symbol(sym: char)      // single-character symbol
    | Arrow                  // ->
    | Extern | Typedef | Int | Char | Void | Struct | Bool
    | If | Else | For | Do | While | Switch | Case | Break | Continue
    | Eq                     // ==
    | Ne                     // !=
    | Le                     // <=
    | Ge                     // >=
    | LogOr                  // ||
    | LogAnd                 // &&
    | Shl                    // <<
    | Shr                    // >>
    | Inc                    // ++
    | Dec                    // --
    | MulEq | DivEq | ModEq | AddEq | SubEq   // *= /= %= += -=
    | ShlEq | ShrEq                           // <<= >>=
    | AndEq | XorEq | OrEq                    // &= ^= |=
    | Return | Sizeof | Alignof | Typeof
    | Param                  // function-like macro parameter
    | Eof                    // end marker

  /** Half-open range [start, end) recorded for a token. */
  datatype Span = Span(start: nat, end: nat)

  datatype Token = Token(kind: TokenKind, span: Span)

  /** The kinds that `FromStr` can produce: the multi-character operators. */
  predicate IsOperatorKind(k: TokenKind) {
    k in {Arrow, Eq, Ne, Le, Ge, LogOr, LogAnd, Shl, Shr, Inc, Dec,
          MulEq, DivEq, ModEq, AddEq, SubEq, ShlEq, ShrEq, AndEq, XorEq, OrEq}
  }

  /** The kinds produced by a reserved word of the language. */
  predicate IsKeywordKind(k: TokenKind) {
    k in {Int, Return, Extern, Typedef, Char, Void, Struct, Bool, If, Else,
          For, Do, While, Switch, Case, Break, Continue, Sizeof, Alignof, Typeof}
  }

  /** The 21 accepted operator spellings. */
  const OperatorSpellings: set<string> :=
    {"<<=", ">>=", "!=", "&&", "++", "--", "->", "<<", "<=", "==", ">=", ">>",
     "||", "*=", "/=", "%=", "+=", "-=", "&=", "^=", "|="}

  /** The 23 characters that form a single-character symbol. */
  const SymbolChars: set<char> :=
    {'+', '-', '*', '/', '%', '<', '>', '&', '^', '|', '!', '~', '=',
     '(', ')', '{', '}', '[', ']', ';', ',', '.', ':'}

  /** Operator lookup: an exact spelling to its kind, anything else to None. */
  function FromStr(s: string): (r: Option<TokenKind>)
    ensures r.Some? <==> s in OperatorSpellings
    ensures r.Some? ==> IsOperatorKind(r.value) && !IsKeywordKind(r.value)
    ensures |s| <= 1 ==> r == None
  {
    match s
    case "<<=" => Some(ShlEq)
    case ">>=" => Some(ShrEq)
    case "!=" => Some(Ne)
    case "&&" => Some(LogAnd)
    case "++" => Some(Inc)
    case "--" => Some(Dec)
    case "->" => Some(Arrow)
    case "<<" => Some(Shl)
    case "<=" => Some(Le)
    case "==" => Some(Eq)
    case ">=" => Some(Ge)
    case ">>" => Some(Shr)
    case "||" => Some(LogOr)
    case "*=" => Some(MulEq)
    case "/=" => Some(DivEq)
    case "%=" => Some(ModEq)
    case "+=" => Some(AddEq)
    case "-=" => Some(SubEq)
    case "&=" => Some(AndEq)
    case "^=" => Some(XorEq)
    case "|=" => Some(OrEq)
    case _ => None
  }

  /** Symbol lookup: one of the 23 symbol characters to `Symbol(c)`. */
  function FromChar(c: char): (r: Option<TokenKind>)
    ensures r.Some? <==> c in SymbolChars
    ensures r.Some? ==> r.value == Symbol(c)
  {
    match c
    case '+' => Some(Symbol(c))
    case '-' => Some(Symbol(c))
    case '*' => Some(Symbol(c))
    case '/' => Some(Symbol(c))
    case '%' => Some(Symbol(c))
    case '<' => Some(Symbol(c))
    case '>' => Some(Symbol(c))
    case '&' => Some(Symbol(c))
    case '^' => Some(Symbol(c))
    case '|' => Some(Symbol(c))
    case '!' => Some(Symbol(c))
    case '~' => Some(Symbol(c))
    case '=' => Some(Symbol(c))
    case '(' => Some(Symbol(c))
    case ')' => Some(Symbol(c))
    case '{' => Some(Symbol(c))
    case '}' => Some(Symbol(c))
    case '[' => Some(Symbol(c))
    case ']' => Some(Symbol(c))
    case ';' => Some(Symbol(c))
    case ',' => Some(Symbol(c))
    case '.' => Some(Symbol(c))
    case ':' => Some(Symbol(c))
    case _ => None
  }

  /** The spelling of an operator kind: the inverse of `FromStr`. */
  function Spelling(k: TokenKind): (s: string)
    requires IsOperatorKind(k)
  {
    match k
    case ShlEq => "<<="
    case ShrEq => ">>="
    case Ne => "!="
    case LogAnd => "&&"
    case Inc => "++"
    case Dec => "--"
    case Arrow => "->"
    case Shl => "<<"
    case Le => "<="
    case Eq => "=="
    case Ge => ">="
    case Shr => ">>"
    case LogOr => "||"
    case MulEq => "*="
    case DivEq => "/="
    case ModEq => "%="
    case AddEq => "+="
    case SubEq => "-="
    case AndEq => "&="
    case XorEq => "^="
    case OrEq => "|="
  }

  /** `FromStr` and `Spelling` are inverse: every operator kind has exactly one spelling. */
  lemma FromStrSpelling(s: string, k: TokenKind)
    ensures FromStr(s) == Some(k) <==> IsOperatorKind(k) && Spelling(k) == s
  {
    if FromStr(s) == Some(k) {
      FromStrThenSpelling(s);
    }
    if IsOperatorKind(k) && Spelling(k) == s {
      SpellingThenFromStr(k);
    }
  }

  /** An accepted spelling is the spelling of the kind it maps to. */
  lemma FromStrThenSpelling(s: string)
    requires FromStr(s).Some?
    ensures Spelling(FromStr(s).value) == s
  {
  }

  /** Every operator kind is recovered from its spelling. */
  lemma SpellingThenFromStr(k: TokenKind)
    requires IsOperatorKind(k)
    ensures FromStr(Spelling(k)) == Some(k)
  {
  }

  /** Distinct accepted spellings map to distinct kinds. */
  lemma FromStrInjective(s: string, t: string)
    requires FromStr(s).Some? && FromStr(s) == FromStr(t)
    ensures s == t
  {
    FromStrSpelling(s, FromStr(s).value);
    FromStrSpelling(t, FromStr(t).value);
  }

  /** Only `<<=` and `>>=` have three characters; every other spelling has two. */
  lemma FromStrLengths(s: string)
    requires FromStr(s).Some?
    ensures |s| == 3 <==> s in {"<<=", ">>="}
    ensures |s| == 2 <==> s !in {"<<=", ">>="}
    ensures |s| <= 2 ==> FromStr(s).value !in {ShlEq, ShrEq}
  {
  }

  /** Letters, digits, `_`, whitespace and quotes are not symbols. */
  lemma FromCharNoneOutsideSymbols(c: char)
    requires 'a' <= c <= 'z' || 'A' <= c <= 'Z' || '0' <= c <= '9' || c == '_'
          || c == ' ' || '\t' <= c <= '\r' || c == '\'' || c == '"'
    ensures FromChar(c) == None
  {
  }
}
