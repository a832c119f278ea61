/**
 * Small inputs on which the scanner of src/lexer/mod.rs (module LexerSpec)
 * does something other than what it evidently means to do, each next to
 * what the corrected scanner (module LexerFixed) does with the same input.
 */
module LexerFindings {
  import opened Wrappers
  import opened Token
  import opened LexerSpec
  import opened LexerProps
  import opened LexerSteps
  import opened LexerFixed

  // ------------------------------------------------------------ an operator is pushed but never consumed

  /** `a==b`: after `a`, the scan is stuck pushing `==` forever at position 1. */
  lemma OperatorNeverAdvances(s: string)
    requires s == "a==b"
    ensures ScanAll(s) == Scanned([Token(Ident("a"), Span(1, 2))], Stuck(1, Eq))
  {
    assert RunEnd(s, 1, IsIdentChar) == 1;
    assert s[0..1] == "a";
    ScanFromWord(s, 0, 0);
    assert Window(s, 1, 2) == "==";
    ScanFromOperator(s, 1, 2);
  }

  /** The corrected scan of `a==b` consumes the operator and reads `b`. */
  lemma FixedOperatorAdvances(s: string)
    requires s == "a==b"
    ensures FixedScanAll(s)
      == Scanned([Token(Ident("a"), Span(0, 1)), Token(Eq, Span(1, 3)), Token(Ident("b"), Span(3, 4))], Finished)
  {
    FixedOperatorSteps(s);
    FixedScanFromStep(s, 0);
    FixedScanFromStep(s, 1);
    FixedScanFromStep(s, 3);
  }

  lemma FixedOperatorSteps(s: string)
    requires s == "a==b"
    ensures FixedStep(s, 0) == Lex(Ident("a"), 1)
    ensures FixedStep(s, 1) == Lex(Eq, 3)
    ensures FixedStep(s, 3) == Lex(Ident("b"), 4)
  {
    FixedOperatorWord(s);
    FixedOperatorEq(s);
    FixedOperatorB(s);
  }

  lemma FixedOperatorB(s: string)
    requires s == "a==b"
    ensures FixedStep(s, 3) == Lex(Ident("b"), 4)
  {
    assert RunEnd(s, 4, IsIdentChar) == 4;
    assert s[3..4] == "b";
  }

  lemma FixedOperatorWord(s: string)
    requires s == "a==b"
    ensures FixedStep(s, 0) == Lex(Ident("a"), 1)
  {
    assert RunEnd(s, 1, IsIdentChar) == 1;
  }

  lemma FixedOperatorEq(s: string)
    requires s == "a==b"
    ensures FixedStep(s, 1) == Lex(Eq, 3)
  {
    assert Window(s, 1, 3) == "==b" && Window(s, 1, 2) == "==";
  }

  // ------------------------------------------------------------ a two-character peek never sees `<<=` or `>>=`

  /** Whatever follows the cursor, the two-character window never spells `<<=` or `>>=`. */
  lemma ShiftAssignNeverPeeked(input: seq<char>, pos: nat)
    requires pos <= |input|
    ensures FromStr(Window(input, pos, 2)) != Some(ShlEq)
    ensures FromStr(Window(input, pos, 2)) != Some(ShrEq)
  {
    var w := Window(input, pos, 2);
    if FromStr(w).Some? {
      FromStrLengths(w);
    }
  }

  /** `<<=` is read as `<<`, which then repeats forever. */
  lemma ShiftAssignStuck(s: string)
    requires s == "<<="
    ensures ScanAll(s) == Scanned([], Stuck(0, Shl))
  {
    ShiftAssignStep(s);
    ScanFromStep(s, 0, 0);
  }

  lemma ShiftAssignStep(s: string)
    requires s == "<<="
    ensures Step(s, 0) == Emit(Shl, 2, 0, 0)
  {
    assert Window(s, 0, 2) == "<<";
    StepOperator(s, 0);
  }

  /** The corrected scan reads `<<=` as one `ShlEq`. */
  lemma FixedShiftAssign(s: string)
    requires s == "<<="
    ensures FixedScanAll(s) == Scanned([Token(ShlEq, Span(0, 3))], Finished)
  {
    FixedScanFromStep(s, 0);
    assert Window(s, 0, 3) == "<<=";
    assert FixedStep(s, 0) == Lex(ShlEq, 3);
  }

  // ------------------------------------------------------------ a block comment closes only at a starred closer

  /** `/` `*` ` x ` `*` `/` ` int`: the comment never closes and swallows `int`. */
  lemma BlockCommentRunsOn(s: string)
    requires s == "/* x */ int"
    ensures ScanAll(s) == Scanned([], Finished)
  {
    assert Window(s, 0, 2) == "/*";
    ScanFromBlockComment(s, 0, 0);
    BlockEndOfExample(s);
    ScanFromEnd(s, 11);
  }

  /** The as-written comment end of the example, one character at a time from the end. */
  lemma BlockEndOfExample(s: string)
    requires s == "/* x */ int"
    ensures BlockEnd(s, 0) == |s|
  {
    assert BlockEnd(s, 11) == 11;
    assert BlockEnd(s, 10) == 11;
    assert BlockEnd(s, 9) == 11;
    assert BlockEnd(s, 8) == 11;
    assert BlockEnd(s, 7) == 11;
    assert BlockEnd(s, 6) == 11;
    assert !HasPrefixAt(s, 6, "*/");
    assert BlockEnd(s, 5) == 11;
    assert BlockEnd(s, 4) == 11;
    assert BlockEnd(s, 3) == 11;
    assert BlockEnd(s, 2) == 11;
    assert !HasPrefixAt(s, 2, "*/");
    assert BlockEnd(s, 1) == 11;
  }

  /** The corrected scan closes the comment at the first closer and reads `int` at 8..11. */
  lemma FixedBlockComment(s: string)
    requires s == "/* x */ int"
    ensures FixedScanAll(s) == Scanned([Token(Int, Span(8, 11))], Finished)
  {
    FixedBlockCommentSteps(s);
    FixedScanFromStep(s, 0);
    FixedScanFromStep(s, 7);
    FixedScanFromStep(s, 8);
  }

  lemma FixedBlockCommentSteps(s: string)
    requires s == "/* x */ int"
    ensures FixedStep(s, 0) == Pass(7)
    ensures FixedStep(s, 7) == Pass(8)
    ensures FixedStep(s, 8) == Lex(Int, 11)
  {
    assert Window(s, 0, 2) == "/*";
    assert CommentEnd(s, 5) == 7;
    assert CommentEnd(s, 4) == 7;
    assert CommentEnd(s, 3) == 7;
    assert CommentEnd(s, 2) == 7;
    WordInt(s, 8);
  }

  /** `int` at `p`, followed by the end of the input. */
  lemma WordInt(s: string, p: nat)
    requires p + 3 == |s| && s[p..] == "int"
    ensures FixedStep(s, p) == Lex(Int, p + 3)
  {
    IntRun(s, p);
    assert s[p..p + 3] == "int";
    assert IdentOrKeyword(s, p) == Emit(Int, 3, 3, 0);
  }

  /** The identifier run of `int` at the end of the input ends with it. */
  lemma IntRun(s: string, p: nat)
    requires p + 3 == |s| && s[p..] == "int"
    ensures RunEnd(s, p, IsIdentChar) == p + 3
  {
    assert s[p] == 'i' && s[p + 1] == 'n' && s[p + 2] == 't';
    assert RunEnd(s, p + 3, IsIdentChar) == p + 3;
    assert RunEnd(s, p + 2, IsIdentChar) == p + 3;
    assert RunEnd(s, p + 1, IsIdentChar) == p + 3;
  }

  // ------------------------------------------------------------ spans are not source offsets

  /** `int` occupies characters 0..3 but is recorded at 3..6, past the end of the input. */
  lemma SpanPastInput(s: string)
    requires s == "int"
    ensures ScanAll(s) == Scanned([Token(Int, Span(3, 6))], Finished)
    ensures ScanAll(s).tokens[0].span.end > |s|
  {
    IntRun(s, 0);
    assert s[0..3] == "int";
    ScanFromWord(s, 0, 0);
    ScanFromEnd(s, 6);
  }

  /** The corrected scan records `int` at 0..3, and its span spells it. */
  lemma FixedSpanInInput(s: string)
    requires s == "int"
    ensures FixedScanAll(s) == Scanned([Token(Int, Span(0, 3))], Finished)
    ensures s[FixedScanAll(s).tokens[0].span.start..FixedScanAll(s).tokens[0].span.end] == "int"
  {
    WordInt(s, 0);
    FixedScanFromStep(s, 0);
  }
}
