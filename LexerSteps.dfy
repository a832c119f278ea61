/**
 * The branches of the scanner loop of src/lexer/mod.rs, each stated as what it
 * contributes to the whole scan: the scan from the cursor equals the tokens
 * the branch pushes followed by the scan from where the branch leaves the
 * cursor and the counter. The `Lexer` class proves its loop body against
 * these, one branch at a time.
 */
module LexerSteps {
  import opened Wrappers
  import opened Token
  import opened LexerSpec
  import opened LexerProps

  // ------------------------------------------------------------ each branch and the whole scan

  /** The end of the input ends the scan. */
  lemma ScanFromEnd(input: seq<char>, start: nat)
    ensures ScanFrom(input, |input|, start) == Scanned([], Finished)
  {
  }

  /** A newline or other whitespace is consumed and contributes nothing. */
  lemma ScanFromWhitespace(input: seq<char>, pos: nat, start: nat)
    requires pos < |input| && IsWhitespace(input[pos])
    ensures ScanFrom(input, pos, start) == ScanFrom(input, pos + 1, start + 1)
  {
    StepWhitespace(input, pos);
    ScanFromSkip(input, pos, start, pos + 1);
  }

  /** A line comment is consumed up to the next newline and contributes nothing. */
  lemma ScanFromLineComment(input: seq<char>, pos: nat, start: nat)
    requires pos < |input| && HasPrefixAt(input, pos, "//")
    ensures var j := RunEnd(input, pos, NotNewline);
      pos < j && ScanFrom(input, pos, start) == ScanFrom(input, j, start + (j - pos))
  {
    StepIsLineComment(input, pos);
    ScanFromSkip(input, pos, start, RunEnd(input, pos, NotNewline));
  }

  /** A block comment is consumed up to `BlockEnd` and contributes nothing. */
  lemma ScanFromBlockComment(input: seq<char>, pos: nat, start: nat)
    requires pos < |input| && HasPrefixAt(input, pos, "/*")
    ensures var j := BlockEnd(input, pos);
      pos < j && ScanFrom(input, pos, start) == ScanFrom(input, j, start + (j - pos))
  {
    StepIsBlockComment(input, pos);
    ScanFromSkip(input, pos, start, BlockEnd(input, pos));
  }

  /** A character literal yields the character's code, recorded three past the counter; a malformed one panics. */
  lemma ScanFromCharLiteral(input: seq<char>, pos: nat, start: nat)
    requires pos < |input| && input[pos] == '\''
    ensures pos + 1 == |input| ==> ScanFrom(input, pos, start) == Scanned([], Failed(CharLiteralAtEof))
    ensures pos + 1 < |input| && (pos + 2 == |input| || input[pos + 2] != '\'')
        ==> ScanFrom(input, pos, start) == Scanned([], Failed(UnterminatedCharLiteral))
    ensures pos + 2 < |input| && input[pos + 2] == '\''
        ==> var rest := ScanFrom(input, pos + 3, start + 6);
            ScanFrom(input, pos, start)
              == Scanned([Token(Number(input[pos + 1] as int as i64), Span(start + 3, start + 6))] + rest.tokens, rest.status)
  {
    StepIsCharLiteral(input, pos);
    if pos + 2 < |input| && input[pos + 2] == '\'' {
      ScanFromEmit(input, pos, start, Number(input[pos + 1] as int as i64), 3, 3, 0);
    } else {
      ScanFromStep(input, pos, start);
    }
  }

  /**
   * A string literal yields its raw body. The closing quote, when there is one,
   * is consumed before the token is pushed; its length counts both quotes.
   */
  lemma ScanFromStringLiteral(input: seq<char>, pos: nat, start: nat)
    requires pos < |input| && input[pos] == '"'
    ensures var j := RunEnd(input, pos + 1, NotQuote);
      var body := input[pos + 1..j];
      var before := if j < |input| then j + 1 - pos else j - pos;
      var rest := ScanFrom(input, pos + before, start + before + |body| + 2);
      && pos + before <= |input|
      && ScanFrom(input, pos, start)
         == Scanned([Token(Str(body), Span(start + before, start + before + |body| + 2))] + rest.tokens, rest.status)
  {
    StepIsStringLiteral(input, pos);
    var j := RunEnd(input, pos + 1, NotQuote);
    var body := input[pos + 1..j];
    var before := if j < |input| then j + 1 - pos else j - pos;
    ScanFromEmit(input, pos, start, Str(body), |body| + 2, before, 0);
  }

  /** An operator spelling at the cursor is pushed again and again without progress. */
  lemma ScanFromOperator(input: seq<char>, pos: nat, start: nat)
    requires pos < |input| && FromStr(Window(input, pos, 2)).Some?
    ensures ScanFrom(input, pos, start) == Scanned([], Stuck(pos, FromStr(Window(input, pos, 2)).value))
  {
    StepOperator(input, pos);
    ScanFromStep(input, pos, start);
  }

  /** A symbol character is pushed at the counter, then consumed. */
  lemma ScanFromSymbol(input: seq<char>, pos: nat, start: nat)
    requires pos < |input| && input[pos] in SymbolChars
    requires FromStr(Window(input, pos, 2)) == None
    requires !HasPrefixAt(input, pos, "//") && !HasPrefixAt(input, pos, "/*")
    ensures var rest := ScanFrom(input, pos + 1, start + 2);
      ScanFrom(input, pos, start) == Scanned([Token(Symbol(input[pos]), Span(start, start + 1))] + rest.tokens, rest.status)
  {
    StepSymbol(input, pos);
    ScanFromEmit(input, pos, start, Symbol(input[pos]), 1, 0, 1);
  }

  /** A word is consumed whole and yields its keyword or `Ident`, recorded after the counter has passed it. */
  lemma ScanFromWord(input: seq<char>, pos: nat, start: nat)
    requires pos < |input| && (IsAlphabetic(input[pos]) || input[pos] == '_')
    ensures var j := RunEnd(input, pos, IsIdentChar);
      var n := j - pos;
      var rest := ScanFrom(input, j, start + 2 * n);
      && pos < j
      && ScanFrom(input, pos, start)
         == Scanned([Token(KeywordOrIdent(input[pos..j]), Span(start + n, start + 2 * n))] + rest.tokens, rest.status)
  {
    StepWord(input, pos);
    var j := RunEnd(input, pos, IsIdentChar);
    ScanFromEmit(input, pos, start, KeywordOrIdent(input[pos..j]), j - pos, j - pos, 0);
  }

  /** A digit run whose decimal value fits in i64 yields that value, recorded after the counter has passed it. */
  lemma ScanFromNumber(input: seq<char>, pos: nat, start: nat)
    requires pos < |input| && IsNumeric(input[pos])
    requires DecimalValue(input[pos..RunEnd(input, pos, IsNumeric)]) <= I64_MAX
    ensures var j := RunEnd(input, pos, IsNumeric);
      var n := j - pos;
      var v := DecimalValue(input[pos..j]);
      var rest := ScanFrom(input, j, start + 2 * n);
      && pos < j
      && ScanFrom(input, pos, start) == Scanned([Token(Number(v as i64), Span(start + n, start + 2 * n))] + rest.tokens, rest.status)
  {
    StepNumber(input, pos);
    var j := RunEnd(input, pos, IsNumeric);
    ScanFromEmit(input, pos, start, Number(DecimalValue(input[pos..j]) as i64), j - pos, j - pos, 0);
  }

  /** A digit run whose value does not fit in i64 panics (the `unwrap` of the failed parse). */
  lemma ScanFromNumberOverflow(input: seq<char>, pos: nat, start: nat)
    requires pos < |input| && IsNumeric(input[pos])
    requires DecimalValue(input[pos..RunEnd(input, pos, IsNumeric)]) > I64_MAX
    ensures ScanFrom(input, pos, start) == Scanned([], Failed(NumberOverflow))
  {
    StepNumber(input, pos);
    ScanFromStep(input, pos, start);
  }

  /** A character no branch accepts stops the scan with a panic. */
  lemma ScanFromUnrecognized(input: seq<char>, pos: nat, start: nat)
    requires pos < |input|
    requires var c := input[pos];
      !(IsWhitespace(c) || c in SymbolChars || c == '\'' || c == '"' || IsIdentChar(c))
    ensures ScanFrom(input, pos, start) == Scanned([], Failed(Unrecognized(input[pos])))
  {
    StepUnrecognized(input, pos);
    ScanFromStep(input, pos, start);
  }

  /** `'a'` alone scans to the number 97, recorded at 3..6. */
  lemma CharLiteralA(s: string)
    requires s == "'a'"
    ensures ScanAll(s) == Scanned([Token(Number(97), Span(3, 6))], Finished)
  {
    ScanFromCharLiteral(s, 0, 0);
    ScanFromEnd(s, 6);
  }
}
