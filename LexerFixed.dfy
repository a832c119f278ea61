/**
 * A corrected scanner, for comparison with the one src/lexer/mod.rs
 * implements (module LexerSpec). It differs in exactly four places:
 *  - an operator is consumed when it is pushed;
 *  - the three-character operator spellings are tried before the
 *    two-character ones;
 *  - a block comment ends right after the first `*` `/` that follows its
 *    opener;
 *  - a token's span is the range of characters it was scanned from.
 * Everything else (branch order, the literal and word branches, the panics)
 * is the branch functions of LexerSpec, unchanged.
 */
module LexerFixed {
  import opened Wrappers
  import opened Token
  import opened LexerSpec
  import opened LexerProps

  /** Where a block comment whose opener ends at `i` ends: right after the first `*` `/`, or at the end of the input. */
  function CommentEnd(input: seq<char>, i: nat): (r: nat)
    requires i <= |input|
    ensures i <= r <= |input|
    decreases |input| - i
  {
    if i + 2 > |input| then |input|
    else if input[i] == '*' && input[i + 1] == '/' then i + 2
    else CommentEnd(input, i + 1)
  }

  /** `*` `/` starts at `k`. */
  predicate CloserAt(input: seq<char>, k: int) {
    0 <= k && k + 2 <= |input| && input[k] == '*' && input[k + 1] == '/'
  }

  /** `CommentEnd` stops at the first closer at or after `i`; without one, it runs to the end. */
  lemma {:induction false} CommentEndFirst(input: seq<char>, i: nat)
    requires i <= |input|
    ensures var r := CommentEnd(input, i);
      && (forall k :: i <= k && k + 2 < r ==> !CloserAt(input, k))
      && ((i + 2 <= r && CloserAt(input, r - 2))
          || (r == |input| && forall k :: i <= k < |input| ==> !CloserAt(input, k)))
    decreases |input| - i
  {
    if i + 2 <= |input| && !CloserAt(input, i) {
      CommentEndFirst(input, i + 1);
    }
  }

  /** One iteration of the corrected loop. */
  datatype FixedStepResult =
    | Pass(next: nat)                 // whitespace or a comment, up to `next`
    | Lex(kind: TokenKind, end: nat)  // a token scanned from the cursor up to `end`
    | Halt(error: ScanError)          // a panic, as in the source

  /** A step that consumes something and stays within the input. */
  predicate FixedFits(r: FixedStepResult, pos: nat, n: nat) {
    && (r.Pass? ==> pos < r.next <= n)
    && (r.Lex? ==> pos < r.end <= n)
  }

  /** The as-written result of a literal or word branch, with its end measured from the cursor. */
  function Settle(input: seq<char>, pos: nat, s: StepResult): (r: FixedStepResult)
    requires pos < |input| && StepFits(s, pos, |input|) && (s.Emit? ==> s.before + s.after > 0)
    ensures FixedFits(r, pos, |input|)
    ensures s.Emit? ==> r == Lex(s.kind, pos + s.before + s.after)
    ensures s.Fail? ==> r == Halt(s.error)
  {
    match s
    case Skip(next) => Pass(next)
    case Emit(kind, _, before, after) => Lex(kind, pos + before + after)
    case Fail(e) => Halt(e)
  }

  /** The corrected loop body: the source's branch order, with the three corrections. */
  function FixedStep(input: seq<char>, pos: nat): (r: FixedStepResult)
    requires pos < |input|
    ensures FixedFits(r, pos, |input|)
  {
    if IsWhitespace(input[pos]) then Pass(pos + 1)
    else if HasPrefixAt(input, pos, "//") then Pass(RunEnd(input, pos, NotNewline))
    else if HasPrefixAt(input, pos, "/*") then Pass(CommentEnd(input, pos + 2))
    else FixedLexeme(input, pos)
  }

  /** The branches that read a token: the literals, then `FixedOperand`. */
  function FixedLexeme(input: seq<char>, pos: nat): (r: FixedStepResult)
    requires pos < |input|
    ensures FixedFits(r, pos, |input|)
  {
    var c := input[pos];
    if c == '\'' then Settle(input, pos, CharLiteral(input, pos))
    else if c == '"' then Settle(input, pos, StringLiteral(input, pos))
    else FixedOperand(input, pos)
  }

  /** Operators, longest spelling first, then `FixedWord`. */
  function FixedOperand(input: seq<char>, pos: nat): (r: FixedStepResult)
    requires pos < |input|
    ensures FixedFits(r, pos, |input|)
    ensures pos + 3 <= |input| && input[pos..pos + 3] in OperatorSpellings
      ==> r == Lex(FromStr(input[pos..pos + 3]).value, pos + 3)
    ensures pos + 2 <= |input| && input[pos..pos + 2] in OperatorSpellings
      && !(pos + 3 <= |input| && input[pos..pos + 3] in OperatorSpellings)
      ==> r == Lex(FromStr(input[pos..pos + 2]).value, pos + 2)
  {
    var three := Window(input, pos, 3);
    var two := Window(input, pos, 2);
    if |three| == 3 && FromStr(three).Some? then Lex(FromStr(three).value, pos + 3)
    else if FromStr(two).Some? then Lex(FromStr(two).value, pos + 2)
    else FixedWord(input, pos)
  }

  /** One-character symbols, words and numbers, as in the source but measured from the cursor. */
  function FixedWord(input: seq<char>, pos: nat): (r: FixedStepResult)
    requires pos < |input|
    ensures FixedFits(r, pos, |input|)
  {
    var c := input[pos];
    if FromChar(c).Some? then Lex(FromChar(c).value, pos + 1)
    else if IsAlphabetic(c) || c == '_' then Settle(input, pos, IdentOrKeyword(input, pos))
    else if IsNumeric(c) then Settle(input, pos, NumberLiteral(input, pos))
    else Halt(Unrecognized(c))
  }

  /** `<<=` and `>>=` are read whole wherever they occur. */
  lemma FixedShiftAssignAt(input: seq<char>, pos: nat)
    requires pos + 3 <= |input| && input[pos..pos + 3] in {"<<=", ">>="}
    ensures input[pos..pos + 3] == "<<=" ==> FixedStep(input, pos) == Lex(ShlEq, pos + 3)
    ensures input[pos..pos + 3] == ">>=" ==> FixedStep(input, pos) == Lex(ShrEq, pos + 3)
  {
    assert input[pos] == input[pos..pos + 3][0];
    NoCommentAt(input, pos);
    assert FixedStep(input, pos) == FixedOperand(input, pos);
  }

  /** The corrected scan from `pos`: every token's span is where it was read. */
  function FixedScanFrom(input: seq<char>, pos: nat): (r: Scanned)
    requires pos <= |input|
    decreases |input| - pos, 2
  {
    if pos == |input| then Scanned([], Finished)
    else FixedScanStep(input, pos)
  }

  /** One corrected iteration at `pos`, then the rest of the scan. */
  function FixedScanStep(input: seq<char>, pos: nat): (r: Scanned)
    requires pos < |input|
    decreases |input| - pos, 1
  {
    FixedScanAfter(input, pos, FixedStep(input, pos))
  }

  /** The rest of the corrected scan once the step at `pos` is known. */
  function FixedScanAfter(input: seq<char>, pos: nat, step: FixedStepResult): (r: Scanned)
    requires pos < |input| && FixedFits(step, pos, |input|)
    decreases |input| - pos, 0
  {
    match step
    case Pass(next) => FixedScanFrom(input, next)
    case Halt(e) => Scanned([], Failed(e))
    case Lex(kind, end) =>
      var rest := FixedScanFrom(input, end);
      Scanned([Token(kind, Span(pos, end))] + rest.tokens, rest.status)
  }

  function FixedScanAll(input: seq<char>): Scanned {
    FixedScanFrom(input, 0)
  }

  /** The scan from `pos` continues as the corrected step there says. */
  lemma FixedScanFromStep(input: seq<char>, pos: nat)
    requires pos < |input|
    ensures FixedScanFrom(input, pos) == FixedScanAfter(input, pos, FixedStep(input, pos))
  {
    assert FixedScanFrom(input, pos) == FixedScanStep(input, pos);
  }

  // ------------------------------------------------------------ what the text of a span spells

  /**
   * The text `text` is a spelling of a token of kind `kind`: a character
   * literal or digit run of its value, a quoted string (possibly missing its
   * closing quote), the symbol itself, an operator spelling, or the word.
   */
  predicate Denotes(text: string, kind: TokenKind) {
    match kind
    case Number(v) =>
      || (|text| == 3 && text[0] == '\'' && text[2] == '\'' && text[1] as int == v as int)
      || (|text| > 0 && (forall k :: 0 <= k < |text| ==> IsNumeric(text[k])) && DecimalValue(text) == v as int)
    case Str(body) => text == ['"'] + body + ['"'] || text == ['"'] + body
    case Symbol(c) => text == [c]
    case _ => FromStr(text) == Some(kind) || KeywordOrIdent(text) == kind
  }

  /** Every token the corrected step reads is spelled by the characters it was read from. */
  lemma FixedStepDenotes(input: seq<char>, pos: nat)
    requires pos < |input| && FixedStep(input, pos).Lex?
    ensures Denotes(input[pos..FixedStep(input, pos).end], FixedStep(input, pos).kind)
  {
    assert FixedStep(input, pos) == FixedLexeme(input, pos);
    FixedLexemeDenotes(input, pos);
  }

  lemma FixedLexemeDenotes(input: seq<char>, pos: nat)
    requires pos < |input| && FixedLexeme(input, pos).Lex?
    ensures Denotes(input[pos..FixedLexeme(input, pos).end], FixedLexeme(input, pos).kind)
  {
    var r := FixedLexeme(input, pos);
    if input[pos] == '\'' {
      var text := input[pos..r.end];
      assert |text| == 3 && text[1] == input[pos + 1];
    } else if input[pos] == '"' {
      StringTextDenotes(input, pos);
    } else {
      FixedOperandDenotes(input, pos);
    }
  }

  lemma FixedOperandDenotes(input: seq<char>, pos: nat)
    requires pos < |input| && FixedOperand(input, pos).Lex?
    ensures Denotes(input[pos..FixedOperand(input, pos).end], FixedOperand(input, pos).kind)
  {
    var r := FixedOperand(input, pos);
    var three := Window(input, pos, 3);
    var two := Window(input, pos, 2);
    if |three| == 3 && FromStr(three).Some? {
      assert input[pos..r.end] == three;
    } else if FromStr(two).Some? {
      FromStrLengths(two);
      assert input[pos..r.end] == two;
    } else {
      FixedWordDenotes(input, pos);
    }
  }

  lemma FixedWordDenotes(input: seq<char>, pos: nat)
    requires pos < |input| && FixedWord(input, pos).Lex?
    ensures Denotes(input[pos..FixedWord(input, pos).end], FixedWord(input, pos).kind)
  {
    var c := input[pos];
    if FromChar(c).Some? {
      assert input[pos..pos + 1] == [c];
    } else if IsAlphabetic(c) || c == '_' {
      var j := RunEnd(input, pos, IsIdentChar);
      assert FixedWord(input, pos) == Lex(KeywordOrIdent(input[pos..j]), j);
    } else {
      var j := RunEnd(input, pos, IsNumeric);
      assert FixedWord(input, pos) == Lex(Number(DecimalValue(input[pos..j]) as i64), j);
      RunEndMaximal(input, pos, IsNumeric);
    }
  }

  /** The characters from one quote to the next are that quote, the body, and the closing quote. */
  lemma QuotedSlice(input: seq<char>, pos: nat, j: nat)
    requires pos < j < |input| && input[pos] == '"' && input[j] == '"'
    ensures input[pos..j + 1] == ['"'] + input[pos + 1..j] + ['"']
  {
    assert input[pos..j + 1] == [input[pos]] + input[pos + 1..j] + [input[j]];
  }

  /** The closing quote of a string literal is read exactly when the body stops before the end of the input. */
  lemma StringTextClosed(input: seq<char>, pos: nat)
    requires pos < |input| && input[pos] == '"'
    ensures var s := StringLiteral(input, pos);
      && s.Emit? && s.kind.Str? && pos + s.before <= |input|
      && (RunEnd(input, pos + 1, NotQuote) < |input|
          <==> input[pos..pos + s.before] == ['"'] + s.kind.body + ['"'])
  {
    var j := RunEnd(input, pos + 1, NotQuote);
    var body := input[pos + 1..j];
    var quoted := ['"'] + body + ['"'];
    if j < |input| {
      assert StringLiteral(input, pos) == Emit(Str(body), |body| + 2, j + 1 - pos, 0);
      assert input[j] == '"' by {
        RunEndMaximal(input, pos + 1, NotQuote);
      }
      QuotedSlice(input, pos, j);
    } else {
      assert StringLiteral(input, pos) == Emit(Str(body), |body| + 2, j - pos, 0);
      assert |input[pos..j]| < |quoted|;
    }
  }

  /**
   * A string literal's text is its body between quotes; the closing quote is
   * part of it exactly when the body stops before the end of the input.
   */
  lemma StringTextDenotes(input: seq<char>, pos: nat)
    requires pos < |input| && input[pos] == '"'
    ensures var s := StringLiteral(input, pos);
      pos + s.before <= |input| && Denotes(input[pos..pos + s.before], s.kind)
    ensures var s := StringLiteral(input, pos);
      && s.Emit? && s.kind.Str? && pos + s.before <= |input|
      && (RunEnd(input, pos + 1, NotQuote) < |input|
          <==> input[pos..pos + s.before] == ['"'] + s.kind.body + ['"'])
  {
    StringTextClosed(input, pos);
    var j := RunEnd(input, pos + 1, NotQuote);
    if j == |input| {
      assert input[pos..j] == ['"'] + input[pos + 1..j];
    }
  }

  /** The spans of `ts` lie in order between `from` and the end of the input, and each spells its token. */
  predicate SourceSpans(input: seq<char>, ts: seq<Token>, from: nat) {
    && Ordered(ts, from)
    && forall i :: 0 <= i < |ts| ==>
         && ts[i].span.start < ts[i].span.end <= |input|
         && Denotes(input[ts[i].span.start..ts[i].span.end], ts[i].kind)
  }

  /**
   * The corrected scan is a round trip: its spans are in order, within the
   * input, and each one's text spells its token. It never gets stuck.
   */
  lemma {:induction false} FixedScanSourceSpans(input: seq<char>, pos: nat)
    requires pos <= |input|
    ensures SourceSpans(input, FixedScanFrom(input, pos).tokens, pos)
    ensures !FixedScanFrom(input, pos).status.Stuck?
    decreases |input| - pos
  {
    if pos < |input| {
      var step := FixedStep(input, pos);
      FixedScanFromStep(input, pos);
      match step
      case Pass(next) =>
        FixedScanSourceSpans(input, next);
        OrderedFromEarlier(FixedScanFrom(input, next).tokens, next, pos);
        SourceSpansFrom(input, FixedScanFrom(input, next).tokens, next, pos);
      case Halt(e) =>
      case Lex(kind, end) =>
        FixedScanSourceSpans(input, end);
        FixedStepDenotes(input, pos);
        SourceSpansCons(input, Token(kind, Span(pos, end)), FixedScanFrom(input, end).tokens, pos);
    }
  }

  lemma SourceSpansFrom(input: seq<char>, ts: seq<Token>, from: nat, earlier: nat)
    requires SourceSpans(input, ts, from) && earlier <= from && Ordered(ts, earlier)
    ensures SourceSpans(input, ts, earlier)
  {
  }

  lemma SourceSpansCons(input: seq<char>, t: Token, ts: seq<Token>, pos: nat)
    requires pos == t.span.start < t.span.end <= |input|
    requires Denotes(input[t.span.start..t.span.end], t.kind)
    requires SourceSpans(input, ts, t.span.end)
    ensures SourceSpans(input, [t] + ts, pos)
  {
    assert ([t] + ts)[1..] == ts;
  }
}
