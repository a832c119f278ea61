/**
 * Properties of the scanner specification (module LexerSpec): which branch
 * handles which input, what each branch yields, the order of the emitted
 * spans, and the scan of the test program of src/lexer/mod.rs.
 */
module LexerProps {
  import opened Wrappers
  import opened Token
  import opened LexerSpec

  /** The characters an operator spelling can start with. */
  const OperatorStarts: set<char> := {'<', '>', '!', '&', '+', '-', '|', '*', '/', '%', '=', '^'}

  /** Every operator spelling starts with a symbol character and is not a comment opener. */
  lemma SpellingShape(s: string)
    requires s in OperatorSpellings
    ensures 2 <= |s| && s[0] in OperatorStarts && s[0] in SymbolChars
    ensures s[0] == '/' ==> s[1] == '='
  {
  }

  /** Only a `/` can start a comment. */
  lemma NoCommentAt(input: seq<char>, pos: nat)
    requires pos < |input| && input[pos] != '/'
    ensures !HasPrefixAt(input, pos, "//") && !HasPrefixAt(input, pos, "/*")
  {
    assert Window(input, pos, 2)[0] == input[pos];
  }

  /** The window after a letter, digit, `_`, whitespace or quote never spells an operator. */
  lemma NoOperatorAt(input: seq<char>, pos: nat)
    requires pos < |input| && input[pos] !in OperatorStarts
    ensures FromStr(Window(input, pos, 2)) == None
  {
    var w := Window(input, pos, 2);
    if w in OperatorSpellings {
      SpellingShape(w);
      assert false;
    }
  }

  /** Newlines and other whitespace are skipped one character at a time and yield no token. */
  lemma StepWhitespace(input: seq<char>, pos: nat)
    requires pos < |input| && IsWhitespace(input[pos])
    ensures Step(input, pos) == Skip(pos + 1)
  {
  }

  /** `//` skips up to, not including, the next newline (or to the end), with no token. */
  lemma StepLineComment(input: seq<char>, pos: nat)
    requires pos + 2 <= |input| && input[pos..pos + 2] == "//"
    ensures var j := Step(input, pos).next;
      Step(input, pos).Skip? && pos + 2 <= j <= |input|
      && (j == |input| || input[j] == '\n')
      && forall k :: pos <= k < j ==> input[k] != '\n'
  {
    RunEndMaximal(input, pos, NotNewline);
    assert input[pos] == '/' && input[pos + 1] == '/';
    assert HasPrefixAt(input, pos, "//");
  }

  /** A block comment opener skips to just after the first `*` that is followed by `*` `/`, or to the end; no token. */
  lemma StepBlockComment(input: seq<char>, pos: nat)
    requires pos + 2 <= |input| && input[pos..pos + 2] == "/*"
    ensures Step(input, pos) == Skip(BlockEnd(input, pos))
  {
    assert input[pos] == '/' && input[pos + 1] == '*';
    assert !HasPrefixAt(input, pos, "//") by {
      assert Window(input, pos, 2)[1] == '*';
    }
    assert HasPrefixAt(input, pos, "/*");
  }

  /** A quote, a character and a quote give the character's code as a number, three characters long. */
  lemma StepCharLiteral(input: seq<char>, pos: nat)
    requires pos + 3 <= |input| && input[pos] == '\'' && input[pos + 2] == '\''
    ensures Step(input, pos) == Emit(Number(input[pos + 1] as int as i64), 3, 3, 0)
  {
  }

  /** A quote without a character and a closing quote after it panics. */
  lemma StepCharLiteralUnterminated(input: seq<char>, pos: nat)
    requires pos < |input| && input[pos] == '\''
    requires pos + 2 >= |input| || input[pos + 2] != '\''
    ensures Step(input, pos).Fail?
    ensures Step(input, pos).error in {CharLiteralAtEof, UnterminatedCharLiteral}
  {
  }

  /** A string literal is the raw text up to the next `"`; without one it runs to the end. */
  lemma StepStringLiteral(input: seq<char>, pos: nat)
    requires pos < |input| && input[pos] == '"'
    ensures var s := Step(input, pos);
      s.Emit? && s.kind.Str? && s.after == 0 && s.len == |s.kind.body| + 2
      && pos + 1 + |s.kind.body| <= |input|
      && s.kind.body == input[pos + 1..pos + 1 + |s.kind.body|]
      && (forall k :: 0 <= k < |s.kind.body| ==> s.kind.body[k] != '"')
      && (if pos + 1 + |s.kind.body| < |input|
          then input[pos + 1 + |s.kind.body|] == '"' && s.before == |s.kind.body| + 2
          else s.before == |s.kind.body| + 1)
  {
    RunEndMaximal(input, pos + 1, NotQuote);
  }

  /** A letter or `_` starts a word: the maximal run of letters, digits and `_`. */
  lemma StepWord(input: seq<char>, pos: nat)
    requires pos < |input| && (IsAlphabetic(input[pos]) || input[pos] == '_')
    ensures var j := RunEnd(input, pos, IsIdentChar);
      && pos < j
      && Step(input, pos) == Emit(KeywordOrIdent(input[pos..j]), j - pos, j - pos, 0)
      && (j == |input| || !IsIdentChar(input[j]))
  {
    RunEndMaximal(input, pos, IsIdentChar);
    StepIsIdentOrKeyword(input, pos);
  }

  /** A quote that is not in a comment selects the character literal branch. */
  lemma StepIsCharLiteral(input: seq<char>, pos: nat)
    requires pos < |input| && input[pos] == '\''
    ensures Step(input, pos) == CharLiteral(input, pos)
  {
    NoCommentAt(input, pos);
  }

  /** A double quote selects the string literal branch. */
  lemma StepIsStringLiteral(input: seq<char>, pos: nat)
    requires pos < |input| && input[pos] == '"'
    ensures Step(input, pos) == StringLiteral(input, pos)
  {
    NoCommentAt(input, pos);
  }

  /** `//` selects the line comment branch. */
  lemma StepIsLineComment(input: seq<char>, pos: nat)
    requires pos < |input| && HasPrefixAt(input, pos, "//")
    ensures Step(input, pos) == Skip(RunEnd(input, pos, NotNewline))
  {
    assert input[pos] == Window(input, pos, 2)[0] == '/';
  }

  /** A block comment opener selects the block comment branch. */
  lemma StepIsBlockComment(input: seq<char>, pos: nat)
    requires pos < |input| && HasPrefixAt(input, pos, "/*")
    ensures Step(input, pos) == Skip(BlockEnd(input, pos))
  {
    var w := Window(input, pos, 2);
    assert input[pos] == w[0] == '/';
    assert w[1] == '*';
  }

  /** A letter or `_` selects the identifier branch. */
  lemma StepIsIdentOrKeyword(input: seq<char>, pos: nat)
    requires pos < |input| && (IsAlphabetic(input[pos]) || input[pos] == '_')
    ensures Step(input, pos) == IdentOrKeyword(input, pos)
  {
    NoOperatorAt(input, pos);
    NoCommentAt(input, pos);
    assert FromChar(input[pos]) == None;
  }

  /** A digit selects the number branch. */
  lemma StepIsNumberLiteral(input: seq<char>, pos: nat)
    requires pos < |input| && IsNumeric(input[pos])
    ensures Step(input, pos) == NumberLiteral(input, pos)
  {
    NoOperatorAt(input, pos);
    NoCommentAt(input, pos);
    var c := input[pos];
    assert FromChar(c) == None && !IsAlphabetic(c) && c != '_' && !IsWhitespace(c);
  }

  /** A digit starts a number: the decimal value of the maximal digit run, or a panic if it overflows i64. */
  lemma StepNumber(input: seq<char>, pos: nat)
    requires pos < |input| && IsNumeric(input[pos])
    ensures var j := RunEnd(input, pos, IsNumeric);
      var v := DecimalValue(input[pos..j]);
      && pos < j
      && (v <= I64_MAX ==> Step(input, pos) == Emit(Number(v as i64), j - pos, j - pos, 0))
      && (v > I64_MAX ==> Step(input, pos) == Fail(NumberOverflow))
  {
    StepIsNumberLiteral(input, pos);
  }

  /** A digit run of at most 18 characters never takes the overflow panic: it is always a number token. */
  lemma ShortNumberFits(input: seq<char>, pos: nat)
    requires pos < |input| && IsNumeric(input[pos])
    requires RunEnd(input, pos, IsNumeric) <= pos + 18
    ensures var j := RunEnd(input, pos, IsNumeric);
      && DecimalValue(input[pos..j]) <= I64_MAX
      && Step(input, pos) == Emit(Number(DecimalValue(input[pos..j]) as i64), j - pos, j - pos, 0)
  {
    var j := RunEnd(input, pos, IsNumeric);
    RunEndMaximal(input, pos, IsNumeric);
    var digits := input[pos..j];
    assert forall k :: 0 <= k < |digits| ==> IsNumeric(digits[k]) by {
      forall k | 0 <= k < |digits| ensures IsNumeric(digits[k]) {
        assert digits[k] == input[pos + k];
      }
    }
    ShortRunFits(digits);
    StepNumber(input, pos);
  }

  /** An operator spelling in the two-character window wins over every later branch; nothing is consumed. */
  lemma StepOperator(input: seq<char>, pos: nat)
    requires pos < |input| && FromStr(Window(input, pos, 2)).Some?
    ensures Step(input, pos) == Emit(FromStr(Window(input, pos, 2)).value, 2, 0, 0)
  {
    var w := Window(input, pos, 2);
    SpellingShape(w);
    if input[pos] == '/' {
      assert w[1] == '=';
      assert !HasPrefixAt(input, pos, "//") && !HasPrefixAt(input, pos, "/*");
    } else {
      NoCommentAt(input, pos);
    }
  }

  /** No `Symbol` is emitted where the next two characters spell an operator. */
  lemma NoSymbolBeforeOperator(input: seq<char>, pos: nat)
    requires pos < |input| && Step(input, pos).Emit? && Step(input, pos).kind.Symbol?
    ensures FromStr(Window(input, pos, 2)) == None
  {
    if FromStr(Window(input, pos, 2)).Some? {
      StepOperator(input, pos);
    }
  }

  /** A symbol character that starts neither a comment nor an operator is pushed, then consumed. */
  lemma StepSymbol(input: seq<char>, pos: nat)
    requires pos < |input| && input[pos] in SymbolChars
    requires FromStr(Window(input, pos, 2)) == None
    requires !HasPrefixAt(input, pos, "//") && !HasPrefixAt(input, pos, "/*")
    ensures Step(input, pos) == Emit(Symbol(input[pos]), 1, 0, 1)
  {
  }

  /** The scanner panics on a character exactly when no branch can start with it. */
  lemma StepUnrecognized(input: seq<char>, pos: nat)
    requires pos < |input|
    ensures Step(input, pos) == Fail(Unrecognized(input[pos]))
        <==> !(IsWhitespace(input[pos]) || input[pos] in SymbolChars || input[pos] == '\''
               || input[pos] == '"' || IsIdentChar(input[pos]))
  {
    var c := input[pos];
    if IsWhitespace(c) || c in SymbolChars || c == '\'' || c == '"' || IsIdentChar(c) {
      if c in SymbolChars && FromStr(Window(input, pos, 2)) == None
         && !HasPrefixAt(input, pos, "//") && !HasPrefixAt(input, pos, "/*") {
        StepSymbol(input, pos);
      } else if FromStr(Window(input, pos, 2)).Some? {
        StepOperator(input, pos);
      }
    } else {
      NoOperatorAt(input, pos);
      NoCommentAt(input, pos);
    }
  }

  /** Distinct reserved words give distinct keyword kinds. */
  lemma KeywordKindInjective(s: string, t: string)
    requires KeywordKind(s).Some? && KeywordKind(s) == KeywordKind(t)
    ensures s == t
  {
  }

  // ------------------------------------------------------------ span order

  /** Each span starts no earlier than `from` and than the end of the span before it. */
  predicate Ordered(ts: seq<Token>, from: nat)
    decreases |ts|
  {
    ts == [] || (from <= ts[0].span.start <= ts[0].span.end && Ordered(ts[1..], ts[0].span.end))
  }

  lemma {:induction false} OrderedFromEarlier(ts: seq<Token>, from: nat, earlier: nat)
    requires earlier <= from && Ordered(ts, from)
    ensures Ordered(ts, earlier)
  {
  }

  /** Ordered spans lie after `from`, and any two of them are in order and do not overlap. */
  lemma {:induction false} OrderedPairwise(ts: seq<Token>, from: nat)
    requires Ordered(ts, from)
    ensures forall i :: 0 <= i < |ts| ==> from <= ts[i].span.start <= ts[i].span.end
    ensures forall i, j :: 0 <= i < j < |ts| ==> ts[i].span.end <= ts[j].span.start
    decreases |ts|
  {
    if ts != [] {
      OrderedPairwise(ts[1..], ts[0].span.end);
      forall i, j | 0 <= i < j < |ts| ensures ts[i].span.end <= ts[j].span.start {
        if i > 0 {
          assert ts[i] == ts[1..][i - 1] && ts[j] == ts[1..][j - 1];
        } else {
          assert ts[j] == ts[1..][j - 1];
        }
      }
      forall i | 0 <= i < |ts| ensures from <= ts[i].span.start <= ts[i].span.end {
        if i > 0 {
          assert ts[i] == ts[1..][i - 1];
        }
      }
    }
  }

  /**
   * Because `start` never decreases, the spans the scan pushes are in order,
   * start at or after the initial counter, and do not overlap.
   */
  lemma {:induction false} ScanFromOrdered(input: seq<char>, pos: nat, start: nat)
    requires pos <= |input|
    ensures Ordered(ScanFrom(input, pos, start).tokens, start)
    decreases |input| - pos, 1
  {
    if pos < |input| {
      var st := Step(input, pos);
      if st.Skip? {
        OrderedAfterSkip(input, pos, start);
      } else if st.Emit? && st.before + st.after > 0 {
        OrderedAfterEmit(input, pos, start);
      } else {
        ScanFromStep(input, pos, start);
      }
    }
  }

  lemma {:induction false} OrderedAfterSkip(input: seq<char>, pos: nat, start: nat)
    requires pos < |input| && Step(input, pos).Skip?
    ensures Ordered(ScanFrom(input, pos, start).tokens, start)
    decreases |input| - pos, 0
  {
    var st := Step(input, pos);
    var start' := start + (st.next - pos);
    ScanFromSkip(input, pos, start, st.next);
    ScanFromOrdered(input, st.next, start');
    OrderedFromEarlier(ScanFrom(input, st.next, start').tokens, start', start);
  }

  lemma {:induction false} OrderedAfterEmit(input: seq<char>, pos: nat, start: nat)
    requires pos < |input| && Step(input, pos).Emit?
    requires Step(input, pos).before + Step(input, pos).after > 0
    ensures Ordered(ScanFrom(input, pos, start).tokens, start)
    decreases |input| - pos, 0
  {
    var st := Step(input, pos);
    var end := start + st.before + st.len;
    var rest := ScanFrom(input, pos + st.before + st.after, end + st.after);
    ScanFromEmit(input, pos, start, st.kind, st.len, st.before, st.after);
    ScanFromOrdered(input, pos + st.before + st.after, end + st.after);
    OrderedFromEarlier(rest.tokens, end + st.after, end);
    assert ScanFrom(input, pos, start).tokens[1..] == rest.tokens;
  }

  /** The spans of a whole scan are in order and pairwise disjoint. */
  lemma ScanSpansDisjoint(input: seq<char>)
    ensures var ts := ScanAll(input).tokens;
      forall i, j :: 0 <= i < j < |ts| ==> ts[i].span.start <= ts[i].span.end <= ts[j].span.start
  {
    ScanFromOrdered(input, 0, 0);
    OrderedPairwise(ScanAll(input).tokens, 0);
  }

  // ------------------------------------------------------------ the test program

  const TestProgram: string := "int main(){ return 0;}"

  /** The tokens the scan of the test program pushes, with their (double-counted) spans. */
  const TestProgramTokens: seq<Token> := [
    Token(Int, Span(3, 6)), Token(Ident("main"), Span(11, 15)),
    Token(Symbol('('), Span(15, 16)), Token(Symbol(')'), Span(17, 18)),
    Token(Symbol('{'), Span(19, 20)), Token(Return, Span(28, 34)),
    Token(Number(0), Span(36, 37)), Token(Symbol(';'), Span(37, 38)),
    Token(Symbol('}'), Span(39, 40))]

  /** The kinds of a token sequence. */
  function Kinds(ts: seq<Token>): seq<TokenKind> {
    seq(|ts|, i requires 0 <= i < |ts| => ts[i].kind)
  }

  /** A symbol character at `pos` that is not followed by anything making an operator is pushed. */
  lemma StepLoneSymbol(input: seq<char>, pos: nat)
    requires pos < |input| && input[pos] in SymbolChars && input[pos] !in OperatorStarts
    ensures Step(input, pos) == Emit(Symbol(input[pos]), 1, 0, 1)
  {
    NoOperatorAt(input, pos);
    NoCommentAt(input, pos);
    StepSymbol(input, pos);
  }

  /** The word at 0 of the test program and the kind it makes. */
  lemma TestProgramWordAt0(s: string)
    requires s == TestProgram
    ensures RunEnd(s, 0, IsIdentChar) == 3 && s[0..3] == "int"
  {
    assert RunEnd(s, 3, IsIdentChar) == 3;
    assert RunEnd(s, 1, IsIdentChar) == 3;
    assert RunEnd(s, 0, IsIdentChar) == 3;
  }

  lemma TestProgramStepAt0(s: string)
    requires s == TestProgram
    ensures Step(s, 0) == Emit(Int, 3, 3, 0)
  {
    StepWord(s, 0);
    TestProgramWordAt0(s);
    IntKind();
  }

  lemma IntKind()
    ensures KeywordOrIdent("int") == Int
  {
  }

  /** The word at 4 of the test program and the kind it makes. */
  lemma TestProgramWordAt4(s: string)
    requires s == TestProgram
    ensures RunEnd(s, 4, IsIdentChar) == 8 && s[4..8] == "main"
  {
    assert RunEnd(s, 8, IsIdentChar) == 8;
    assert RunEnd(s, 6, IsIdentChar) == 8;
    assert RunEnd(s, 4, IsIdentChar) == 8;
  }

  lemma TestProgramStepAt4(s: string)
    requires s == TestProgram
    ensures Step(s, 4) == Emit(Ident("main"), 4, 4, 0)
  {
    StepWord(s, 4);
    TestProgramWordAt4(s);
    MainKind();
  }

  lemma MainKind()
    ensures KeywordOrIdent("main") == Ident("main")
  {
  }

  /** The word at 12 of the test program and the kind it makes. */
  lemma TestProgramWordAt12(s: string)
    requires s == TestProgram
    ensures RunEnd(s, 12, IsIdentChar) == 18 && s[12..18] == "return"
  {
    assert RunEnd(s, 18, IsIdentChar) == 18;
    assert RunEnd(s, 16, IsIdentChar) == 18;
    assert RunEnd(s, 14, IsIdentChar) == 18;
    assert RunEnd(s, 12, IsIdentChar) == 18;
  }

  lemma TestProgramStepAt12(s: string)
    requires s == TestProgram
    ensures Step(s, 12) == Emit(Return, 6, 6, 0)
  {
    StepWord(s, 12);
    TestProgramWordAt12(s);
    ReturnKind();
  }

  lemma ReturnKind()
    ensures KeywordOrIdent("return") == Return
  {
  }

  /** The number at 19 of the test program. */
  lemma TestProgramNumberAt19(s: string)
    requires s == TestProgram
    ensures RunEnd(s, 19, IsNumeric) == 20 && s[19..20] == "0"
    ensures DecimalValue("0") == 0
  {
    assert RunEnd(s, 20, IsNumeric) == 20;
  }

  lemma TestProgramStepAt19(s: string)
    requires s == TestProgram
    ensures Step(s, 19) == Emit(Number(0), 1, 1, 0)
  {
    StepNumber(s, 19);
    TestProgramNumberAt19(s);
  }

  // One step of the scan over the test program at each cursor position (and counter) the loop reaches.

  lemma TestProgramUnfold21(s: string)
    requires s == TestProgram
    ensures ScanFrom(s, 21, 39) == Scanned([Token(Symbol('}'), Span(39, 40))] + ScanFrom(s, 22, 41).tokens, ScanFrom(s, 22, 41).status)
  {
    StepLoneSymbol(s, 21);
    ScanFromEmit(s, 21, 39, Symbol('}'), 1, 0, 1);
  }

  lemma TestProgramUnfold20(s: string)
    requires s == TestProgram
    ensures ScanFrom(s, 20, 37) == Scanned([Token(Symbol(';'), Span(37, 38))] + ScanFrom(s, 21, 39).tokens, ScanFrom(s, 21, 39).status)
  {
    StepLoneSymbol(s, 20);
    ScanFromEmit(s, 20, 37, Symbol(';'), 1, 0, 1);
  }

  lemma TestProgramUnfold19(s: string)
    requires s == TestProgram
    ensures ScanFrom(s, 19, 35) == Scanned([Token(Number(0), Span(36, 37))] + ScanFrom(s, 20, 37).tokens, ScanFrom(s, 20, 37).status)
  {
    TestProgramStepAt19(s);
    ScanFromEmit(s, 19, 35, Number(0), 1, 1, 0);
  }

  lemma TestProgramUnfold18(s: string)
    requires s == TestProgram
    ensures ScanFrom(s, 18, 34) == ScanFrom(s, 19, 35)
  {
    StepWhitespace(s, 18);
    ScanFromSkip(s, 18, 34, 19);
  }

  lemma TestProgramUnfold12(s: string)
    requires s == TestProgram
    ensures ScanFrom(s, 12, 22) == Scanned([Token(Return, Span(28, 34))] + ScanFrom(s, 18, 34).tokens, ScanFrom(s, 18, 34).status)
  {
    TestProgramStepAt12(s);
    ScanFromEmit(s, 12, 22, Return, 6, 6, 0);
  }

  lemma TestProgramUnfold11(s: string)
    requires s == TestProgram
    ensures ScanFrom(s, 11, 21) == ScanFrom(s, 12, 22)
  {
    StepWhitespace(s, 11);
    ScanFromSkip(s, 11, 21, 12);
  }

  lemma TestProgramUnfold10(s: string)
    requires s == TestProgram
    ensures ScanFrom(s, 10, 19) == Scanned([Token(Symbol('{'), Span(19, 20))] + ScanFrom(s, 11, 21).tokens, ScanFrom(s, 11, 21).status)
  {
    StepLoneSymbol(s, 10);
    ScanFromEmit(s, 10, 19, Symbol('{'), 1, 0, 1);
  }

  lemma TestProgramUnfold9(s: string)
    requires s == TestProgram
    ensures ScanFrom(s, 9, 17) == Scanned([Token(Symbol(')'), Span(17, 18))] + ScanFrom(s, 10, 19).tokens, ScanFrom(s, 10, 19).status)
  {
    StepLoneSymbol(s, 9);
    ScanFromEmit(s, 9, 17, Symbol(')'), 1, 0, 1);
  }

  lemma TestProgramUnfold8(s: string)
    requires s == TestProgram
    ensures ScanFrom(s, 8, 15) == Scanned([Token(Symbol('('), Span(15, 16))] + ScanFrom(s, 9, 17).tokens, ScanFrom(s, 9, 17).status)
  {
    StepLoneSymbol(s, 8);
    ScanFromEmit(s, 8, 15, Symbol('('), 1, 0, 1);
  }

  lemma TestProgramUnfold4(s: string)
    requires s == TestProgram
    ensures ScanFrom(s, 4, 7) == Scanned([Token(Ident("main"), Span(11, 15))] + ScanFrom(s, 8, 15).tokens, ScanFrom(s, 8, 15).status)
  {
    TestProgramStepAt4(s);
    ScanFromEmit(s, 4, 7, Ident("main"), 4, 4, 0);
  }

  lemma TestProgramUnfold3(s: string)
    requires s == TestProgram
    ensures ScanFrom(s, 3, 6) == ScanFrom(s, 4, 7)
  {
    StepWhitespace(s, 3);
    ScanFromSkip(s, 3, 6, 4);
  }

  lemma TestProgramUnfold0(s: string)
    requires s == TestProgram
    ensures ScanFrom(s, 0, 0) == Scanned([Token(Int, Span(3, 6))] + ScanFrom(s, 3, 6).tokens, ScanFrom(s, 3, 6).status)
  {
    TestProgramScanStep0(s);
    TestProgramScanAfter0(s);
  }

  lemma TestProgramScanStep0(s: string)
    requires s == TestProgram
    ensures ScanFrom(s, 0, 0) == ScanAfter(s, 0, 0, Emit(Int, 3, 3, 0))
  {
    TestProgramStepAt0(s);
    ScanFromStep(s, 0, 0);
  }

  lemma TestProgramScanAfter0(s: string)
    requires s == TestProgram
    ensures ScanAfter(s, 0, 0, Emit(Int, 3, 3, 0)) == Scanned([Token(Int, Span(3, 6))] + ScanFrom(s, 3, 6).tokens, ScanFrom(s, 3, 6).status)
  {
    ScanAfterEmit(s, 0, 0, Int, 3, 3, 0);
  }

  // The test program scanned from each cursor position (and counter) the loop reaches, last first.

  lemma TestProgramFrom21(s: string)
    requires s == TestProgram
    ensures ScanFrom(s, 21, 39) == Scanned(TestProgramTokens[8..], Finished)
  {
    assert ScanFrom(s, 22, 41) == Scanned([], Finished);
    TestProgramUnfold21(s);
    assert TestProgramTokens[8..] == [TestProgramTokens[8]] + TestProgramTokens[9..];
  }

  lemma TestProgramFrom20(s: string)
    requires s == TestProgram
    ensures ScanFrom(s, 20, 37) == Scanned(TestProgramTokens[7..], Finished)
  {
    TestProgramFrom21(s);
    TestProgramUnfold20(s);
    assert TestProgramTokens[7..] == [TestProgramTokens[7]] + TestProgramTokens[8..];
  }

  lemma TestProgramFrom19(s: string)
    requires s == TestProgram
    ensures ScanFrom(s, 19, 35) == Scanned(TestProgramTokens[6..], Finished)
  {
    TestProgramFrom20(s);
    TestProgramUnfold19(s);
    assert TestProgramTokens[6..] == [TestProgramTokens[6]] + TestProgramTokens[7..];
  }

  lemma TestProgramFrom18(s: string)
    requires s == TestProgram
    ensures ScanFrom(s, 18, 34) == Scanned(TestProgramTokens[6..], Finished)
  {
    TestProgramFrom19(s);
    TestProgramUnfold18(s);
  }

  lemma TestProgramFrom12(s: string)
    requires s == TestProgram
    ensures ScanFrom(s, 12, 22) == Scanned(TestProgramTokens[5..], Finished)
  {
    TestProgramFrom18(s);
    TestProgramUnfold12(s);
    assert TestProgramTokens[5..] == [TestProgramTokens[5]] + TestProgramTokens[6..];
  }

  lemma TestProgramFrom11(s: string)
    requires s == TestProgram
    ensures ScanFrom(s, 11, 21) == Scanned(TestProgramTokens[5..], Finished)
  {
    TestProgramFrom12(s);
    TestProgramUnfold11(s);
  }

  lemma TestProgramFrom10(s: string)
    requires s == TestProgram
    ensures ScanFrom(s, 10, 19) == Scanned(TestProgramTokens[4..], Finished)
  {
    TestProgramFrom11(s);
    TestProgramUnfold10(s);
    assert TestProgramTokens[4..] == [TestProgramTokens[4]] + TestProgramTokens[5..];
  }

  lemma TestProgramFrom9(s: string)
    requires s == TestProgram
    ensures ScanFrom(s, 9, 17) == Scanned(TestProgramTokens[3..], Finished)
  {
    TestProgramFrom10(s);
    TestProgramUnfold9(s);
    assert TestProgramTokens[3..] == [TestProgramTokens[3]] + TestProgramTokens[4..];
  }

  lemma TestProgramFrom8(s: string)
    requires s == TestProgram
    ensures ScanFrom(s, 8, 15) == Scanned(TestProgramTokens[2..], Finished)
  {
    TestProgramFrom9(s);
    TestProgramUnfold8(s);
    assert TestProgramTokens[2..] == [TestProgramTokens[2]] + TestProgramTokens[3..];
  }

  lemma TestProgramFrom4(s: string)
    requires s == TestProgram
    ensures ScanFrom(s, 4, 7) == Scanned(TestProgramTokens[1..], Finished)
  {
    TestProgramFrom8(s);
    TestProgramUnfold4(s);
    assert TestProgramTokens[1..] == [TestProgramTokens[1]] + TestProgramTokens[2..];
  }

  lemma TestProgramFrom3(s: string)
    requires s == TestProgram
    ensures ScanFrom(s, 3, 6) == Scanned(TestProgramTokens[1..], Finished)
  {
    TestProgramFrom4(s);
    TestProgramUnfold3(s);
  }

  lemma TestProgramFrom0(s: string)
    requires s == TestProgram
    ensures ScanFrom(s, 0, 0) == Scanned(TestProgramTokens[0..], Finished)
  {
    TestProgramFrom3(s);
    TestProgramUnfold0(s);
    assert TestProgramTokens[0..] == [TestProgramTokens[0]] + TestProgramTokens[1..];
  }

  /**
   * The test program scans to the expected kinds. The spans show how `start`
   * counts every character twice: "int" occupies 0..3 but is recorded as 3..6.
   */
  lemma ScanTestProgram(s: string)
    requires s == TestProgram
    ensures ScanAll(s) == Scanned(TestProgramTokens, Finished)
  {
    TestProgramFrom0(s);
  }

  /** The kinds the test expects, in order; the scan of the test program terminates. */
  lemma TestProgramKinds(s: string)
    requires s == TestProgram
    ensures ScanAll(s).status == Finished
    ensures Kinds(ScanAll(s).tokens)
         == [Int, Ident("main"), Symbol('('), Symbol(')'), Symbol('{'), Return, Number(0), Symbol(';'), Symbol('}')]
  {
    ScanTestProgram(s);
    TestProgramTokenKinds();
  }

  lemma TestProgramTokenKinds()
    ensures Kinds(TestProgramTokens)
         == [Int, Ident("main"), Symbol('('), Symbol(')'), Symbol('{'), Return, Number(0), Symbol(';'), Symbol('}')]
  {
  }
}
