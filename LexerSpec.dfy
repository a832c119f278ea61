/**
 * What one iteration of the scanner loop of src/lexer/mod.rs does, as a pure
 * function of the input and the cursor position, and what the whole loop
 * produces. The `Lexer` class (module Lexer) is proved to behave exactly so.
 *
 * The scanner is meant for ASCII input: the source's Unicode character classes
 * are restricted to their ASCII members. No member requires it; on other input
 * a non-ASCII letter, digit or space is reported as unrecognized.
 */
module LexerSpec {
  import opened Wrappers
  import opened Token

  /** `char::is_whitespace` on ASCII: tab, newline, vertical tab, form feed, return, space. */
  predicate IsWhitespace(c: char) { c == ' ' || '\t' <= c <= '\r' }

  /** `char::is_alphabetic` on ASCII. */
  predicate IsAlphabetic(c: char) { 'a' <= c <= 'z' || 'A' <= c <= 'Z' }

  /** `char::is_numeric` on ASCII. */
  predicate IsNumeric(c: char) { '0' <= c <= '9' }

  /** A character that may continue an identifier. */
  predicate IsIdentChar(c: char) { IsAlphabetic(c) || IsNumeric(c) || c == '_' }

  predicate NotNewline(c: char) { c != '\n' }

  predicate NotQuote(c: char) { c != '"' }

  function Min(a: int, b: int): int { if a <= b then a else b }

  /** The at most `n` characters that follow the cursor (`peek_n_chars`). */
  function Window(input: seq<char>, pos: nat, n: nat): (w: seq<char>)
    requires pos <= |input|
    ensures |w| == Min(n, |input| - pos)
    ensures forall k :: 0 <= k < |w| ==> w[k] == input[pos + k]
  {
    input[pos..Min(pos + n, |input|)]
  }

  /** The characters after the cursor begin with `s` (`starts_with`). */
  predicate HasPrefixAt(input: seq<char>, pos: nat, s: seq<char>)
    requires pos <= |input|
  {
    Window(input, pos, |s|) == s
  }

  /** `HasPrefixAt` is the same as "s occurs in full at pos". */
  lemma HasPrefixAtIff(input: seq<char>, pos: nat, s: seq<char>)
    requires pos <= |input|
    ensures HasPrefixAt(input, pos, s) <==> pos + |s| <= |input| && input[pos..pos + |s|] == s
  {
  }

  /** The end of the maximal run of characters satisfying `inRun` that starts at `i`. */
  function RunEnd(input: seq<char>, i: nat, inRun: char -> bool): (j: nat)
    requires i <= |input|
    ensures i <= j <= |input|
    decreases |input| - i
  {
    if i == |input| || !inRun(input[i]) then i else RunEnd(input, i + 1, inRun)
  }

  /** The run is maximal: every character in it satisfies `inRun`, and the one after it does not. */
  lemma {:induction false} RunEndMaximal(input: seq<char>, i: nat, inRun: char -> bool)
    requires i <= |input|
    ensures var j := RunEnd(input, i, inRun);
      && (forall k :: i <= k < j ==> inRun(input[k]))
      && (j == |input| || !inRun(input[j]))
    decreases |input| - i
  {
    if i < |input| && inRun(input[i]) {
      RunEndMaximal(input, i + 1, inRun);
    }
  }

  /** A block comment is closed by the three characters `**` `/` starting at `k`. */
  predicate ClosesAt(input: seq<char>, k: int) {
    0 <= k && k + 3 <= |input| && input[k..k + 3] == "**/"
  }

  /**
   * Where a block comment that begins at `i` ends: the loop consumes one
   * character at a time and stops right after a consumed `*` that is followed
   * by `*` `/`; with no such place it consumes the rest of the input.
   */
  function BlockEnd(input: seq<char>, i: nat): (r: nat)
    requires i <= |input|
    ensures i <= r <= |input|
    ensures i < |input| ==> i < r
    decreases |input| - i
  {
    if i == |input| then i
    else if input[i] == '*' && HasPrefixAt(input, i + 1, "*/") then i + 3
    else BlockEnd(input, i + 1)
  }

  /**
   * `BlockEnd` stops right after the first `**` `/` at or after `i`, or at the
   * end of the input when there is none.
   */
  lemma {:induction false} BlockEndCloses(input: seq<char>, i: nat)
    requires i <= |input|
    ensures var r := BlockEnd(input, i);
      && (forall k :: i <= k && k + 3 < r ==> !ClosesAt(input, k))
      && ((i + 3 <= r && ClosesAt(input, r - 3))
          || (r == |input| && forall k :: i <= k < |input| ==> !ClosesAt(input, k)))
    decreases |input| - i
  {
    if i < |input| {
      HasPrefixAtIff(input, i + 1, "*/");
      if i + 3 <= |input| {
        assert input[i..i + 3] == [input[i]] + input[i + 1..i + 3];
      }
      if ClosesAt(input, i) {
        assert input[i] == '*' && input[i + 1..i + 3] == "*/";
        assert BlockEnd(input, i) == i + 3;
      } else {
        assert BlockEnd(input, i) == BlockEnd(input, i + 1);
        BlockEndCloses(input, i + 1);
      }
    }
  }

  /** The value of a decimal digit. */
  function DigitValue(c: char): (d: nat)
    ensures d <= 9
    ensures IsNumeric(c) ==> c == ('0' as int + d) as char
  {
    if IsNumeric(c) then c as int - '0' as int else 0
  }

  /** The decimal value of a run of digits, most significant first (what `str::parse` reads). */
  function DecimalValue(digits: seq<char>): (v: nat)
  {
    if digits == [] then 0
    else DecimalValue(digits[..|digits| - 1]) * 10 + DigitValue(digits[|digits| - 1])
  }

  /** Ten to the power `n`. */
  function Pow10(n: nat): (p: nat)
    ensures p >= 1
  {
    if n == 0 then 1 else 10 * Pow10(n - 1)
  }

  /** A run of `n` digits has a value below `10^n`. */
  lemma {:induction false} DecimalValueBound(digits: seq<char>)
    requires forall k :: 0 <= k < |digits| ==> IsNumeric(digits[k])
    ensures DecimalValue(digits) < Pow10(|digits|)
  {
    if digits != [] {
      var init := digits[..|digits| - 1];
      DecimalValueBound(init);
      assert DecimalValue(digits) == DecimalValue(init) * 10 + DigitValue(digits[|digits| - 1]);
      assert DecimalValue(init) * 10 <= (Pow10(|init|) - 1) * 10;
    }
  }

  lemma {:induction false} Pow10Monotone(a: nat, b: nat)
    requires a <= b
    ensures Pow10(a) <= Pow10(b)
    decreases b
  {
    if a < b {
      Pow10Monotone(a, b - 1);
    }
  }

  lemma Pow10Of18()
    ensures Pow10(18) == 1_000_000_000_000_000_000
  {
    assert Pow10(3) == 1000;
    assert Pow10(6) == 1000_000;
    assert Pow10(9) == 1000_000_000;
    assert Pow10(12) == 1000_000_000_000;
    assert Pow10(15) == 1000_000_000_000_000;
  }

  /** A run of at most 18 digits always fits in i64, so only longer runs can overflow. */
  lemma ShortRunFits(digits: seq<char>)
    requires forall k :: 0 <= k < |digits| ==> IsNumeric(digits[k])
    requires |digits| <= 18
    ensures DecimalValue(digits) <= I64_MAX
  {
    DecimalValueBound(digits);
    Pow10Monotone(|digits|, 18);
    Pow10Of18();
  }

  /** The 20 reserved words. */
  const Keywords: set<string> :=
    {"int", "return", "extern", "typedef", "char", "void", "struct", "_Bool", "if", "else",
     "for", "do", "while", "switch", "case", "break", "continue", "sizeof", "_Alignof", "typeof"}

  /** The reserved words and their kinds. */
  function KeywordKind(s: string): (r: Option<TokenKind>)
    ensures r.Some? <==> s in Keywords
    ensures r.Some? ==> IsKeywordKind(r.value)
  {
    match s
    case "int" => Some(Int)
    case "return" => Some(Return)
    case "extern" => Some(Extern)
    case "typedef" => Some(Typedef)
    case "char" => Some(Char)
    case "void" => Some(Void)
    case "struct" => Some(Struct)
    case "_Bool" => Some(Bool)
    case "if" => Some(If)
    case "else" => Some(Else)
    case "for" => Some(For)
    case "do" => Some(Do)
    case "while" => Some(While)
    case "switch" => Some(Switch)
    case "case" => Some(Case)
    case "break" => Some(Break)
    case "continue" => Some(Continue)
    case "sizeof" => Some(Sizeof)
    case "_Alignof" => Some(Alignof)
    case "typeof" => Some(Typeof)
    case _ => None
  }

  /** The kind of a scanned word: its keyword if it is reserved, otherwise `Ident` of the word. */
  function KeywordOrIdent(s: string): (k: TokenKind)
    ensures s in Keywords ==> IsKeywordKind(k) && !k.Ident?
    ensures s !in Keywords ==> k == Ident(s)
  {
    if KeywordKind(s).Some? then KeywordKind(s).value else Ident(s)
  }

  datatype ScanError =
    | CharLiteralAtEof          // `'` is the last character: unwrap of None
    | UnterminatedCharLiteral   // the third character is not `'`
    | NumberOverflow            // the digit run does not fit in i64
    | Unrecognized(c: char)     // no branch matches

  /**
   * The effect of one loop iteration.
   *  - Skip: whitespace or a comment; the cursor moves to `next`, no token.
   *  - Emit: `before` characters are consumed, then `push_token(kind, len)`,
   *    then `after` more characters are consumed.
   *  - Fail: the source panics.
   */
  datatype StepResult =
    | Skip(next: nat)
    | Emit(kind: TokenKind, len: nat, before: nat, after: nat)
    | Fail(error: ScanError)

  /** Character literal: `'`, one character, `'`; its value is the character's code. */
  function CharLiteral(input: seq<char>, pos: nat): (s: StepResult)
    requires pos < |input| && input[pos] == '\''
  {
    if pos + 1 == |input| then Fail(CharLiteralAtEof)
    else if pos + 2 == |input| || input[pos + 2] != '\'' then Fail(UnterminatedCharLiteral)
    else Emit(Number(input[pos + 1] as int as i64), 3, 3, 0)
  }

  /** String literal: the raw characters up to the next `"` or the end of the input. */
  function StringLiteral(input: seq<char>, pos: nat): (s: StepResult)
    requires pos < |input| && input[pos] == '"'
  {
    var j := RunEnd(input, pos + 1, NotQuote);
    var body := input[pos + 1..j];
    Emit(Str(body), |body| + 2, if j < |input| then j + 1 - pos else j - pos, 0)
  }

  /** Identifier or keyword: the maximal run of letters, digits and `_`. */
  function IdentOrKeyword(input: seq<char>, pos: nat): (s: StepResult)
    requires pos < |input| && (IsAlphabetic(input[pos]) || input[pos] == '_')
  {
    var j := RunEnd(input, pos, IsIdentChar);
    Emit(KeywordOrIdent(input[pos..j]), j - pos, j - pos, 0)
  }

  /** Number literal: the maximal run of digits, which must fit in i64. */
  function NumberLiteral(input: seq<char>, pos: nat): (s: StepResult)
    requires pos < |input| && IsNumeric(input[pos])
  {
    var j := RunEnd(input, pos, IsNumeric);
    var v := DecimalValue(input[pos..j]);
    if v <= I64_MAX then Emit(Number(v as i64), j - pos, j - pos, 0) else Fail(NumberOverflow)
  }

  /** One iteration of the scanner loop at `pos`, branches in the source's order. */
  function Step(input: seq<char>, pos: nat): (s: StepResult)
    requires pos < |input|
    ensures StepFits(s, pos, |input|)
  {
    var c := input[pos];
    if c == '\n' then Skip(pos + 1)
    else if IsWhitespace(c) then Skip(pos + 1)
    else if HasPrefixAt(input, pos, "//") then Skip(RunEnd(input, pos, NotNewline))
    else if HasPrefixAt(input, pos, "/*") then Skip(BlockEnd(input, pos))
    else if c == '\'' then CharLiteral(input, pos)
    else if c == '"' then StringLiteral(input, pos)
    else if FromStr(Window(input, pos, 2)).Some? then Emit(FromStr(Window(input, pos, 2)).value, 2, 0, 0)
    else if FromChar(c).Some? then Emit(FromChar(c).value, 1, 0, 1)
    else if IsAlphabetic(c) || c == '_' then IdentOrKeyword(input, pos)
    else if IsNumeric(c) then NumberLiteral(input, pos)
    else Fail(Unrecognized(c))
  }

  /** How a scan ends: at the end of the input, at a panic, or stuck repeating a step forever. */
  datatype Status =
    | Finished
    | Failed(error: ScanError)
    | Stuck(at: nat, kind: TokenKind)

  datatype Scanned = Scanned(tokens: seq<Token>, status: Status)

  /**
   * The tokens the loop pushes from cursor `pos` with counter `start`, and how
   * it ends. `start` grows by one per consumed character and by `len` per pushed
   * token. A step that emits without consuming anything would be repeated
   * forever by the source; the model reports it as `Stuck`.
   */
  function ScanFrom(input: seq<char>, pos: nat, start: nat): (r: Scanned)
    requires pos <= |input|
    decreases |input| - pos, 3
  {
    if pos == |input| then Scanned([], Finished)
    else ScanPeeked(input, pos, start, input[pos])
  }

  /** The loop body entered with the peeked character `c`. */
  function ScanPeeked(input: seq<char>, pos: nat, start: nat, c: char): (r: Scanned)
    requires pos < |input| && c == input[pos]
    decreases |input| - pos, 2
  {
    ScanStep(input, pos, start)
  }

  /** One iteration at `pos`, then the rest of the scan. */
  function ScanStep(input: seq<char>, pos: nat, start: nat): (r: Scanned)
    requires pos < |input|
    decreases |input| - pos, 1
  {
    ScanAfter(input, pos, start, Step(input, pos))
  }

  /** A step result that stays within the input, as every result of `Step` does. */
  predicate StepFits(step: StepResult, pos: nat, n: nat) {
    && (step.Skip? ==> pos < step.next <= n)
    && (step.Emit? ==> pos + step.before + step.after <= n)
  }

  /** The rest of the scan once the step taken at `pos` is known to be `step`. */
  function ScanAfter(input: seq<char>, pos: nat, start: nat, step: StepResult): (r: Scanned)
    requires pos < |input| && StepFits(step, pos, |input|)
    decreases |input| - pos, 0
  {
    match step
    case Skip(next) => ScanFrom(input, next, start + (next - pos))
    case Fail(e) => Scanned([], Failed(e))
    case Emit(kind, len, before, after) =>
      if before + after == 0 then Scanned([], Stuck(pos, kind))
      else
        var tok := Token(kind, Span(start + before, start + before + len));
        var rest := ScanFrom(input, pos + before + after, start + before + len + after);
        Scanned([tok] + rest.tokens, rest.status)
  }

  /** The scan of a whole input by a fresh scanner. */
  function ScanAll(input: seq<char>): Scanned
  {
    ScanFrom(input, 0, 0)
  }

  /** The scan from `pos` continues as the step there says. */
  lemma ScanFromStep(input: seq<char>, pos: nat, start: nat)
    requires pos < |input|
    ensures ScanFrom(input, pos, start) == ScanAfter(input, pos, start, Step(input, pos))
  {
    assert ScanFrom(input, pos, start) == ScanStep(input, pos, start);
  }

  /** The rest of the scan after an emitting step that consumes something. */
  lemma ScanAfterEmit(input: seq<char>, pos: nat, start: nat, kind: TokenKind, len: nat, before: nat, after: nat)
    requires pos < |input| && pos + before + after <= |input| && before + after > 0
    ensures var rest := ScanFrom(input, pos + before + after, start + before + len + after);
      ScanAfter(input, pos, start, Emit(kind, len, before, after))
        == Scanned([Token(kind, Span(start + before, start + before + len))] + rest.tokens, rest.status)
  {
  }

  /** One skipping step of `ScanFrom`. */
  lemma ScanFromSkip(input: seq<char>, pos: nat, start: nat, next: nat)
    requires pos < |input| && Step(input, pos) == Skip(next)
    ensures pos < next <= |input|
    ensures ScanFrom(input, pos, start) == ScanFrom(input, next, start + (next - pos))
  {
    ScanFromStep(input, pos, start);
  }

  /** One emitting step of `ScanFrom` that consumes something. */
  lemma ScanFromEmit(input: seq<char>, pos: nat, start: nat, kind: TokenKind, len: nat, before: nat, after: nat)
    requires pos < |input| && Step(input, pos) == Emit(kind, len, before, after) && before + after > 0
    ensures pos + before + after <= |input|
    ensures var rest := ScanFrom(input, pos + before + after, start + before + len + after);
      ScanFrom(input, pos, start)
        == Scanned([Token(kind, Span(start + before, start + before + len))] + rest.tokens, rest.status)
  {
    ScanFromStep(input, pos, start);
    ScanAfterEmit(input, pos, start, kind, len, before, after);
  }
}
