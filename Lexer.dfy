/**
 * The `Lexer` of src/lexer/mod.rs: a cursor over the input, a running
 * counter `start` and the vector of pushed tokens, all updated in place.
 * `Scan` is proved to push exactly the tokens of `ScanFrom` and to stop the
 * way `ScanFrom` says: at the end of the input, at a panic, or where the
 * source would loop forever.
 */
module Lexer {
  import opened Wrappers
  import opened Token
  import opened LexerSpec
  import opened LexerSteps

  /**
   * The state (p, s, ts) lies on the way of the scan that started in state
   * (p0, s0, ts0): `ts` extends `ts0`, and the scan from (p0, s0) is what was
   * pushed since then followed by the scan from (p, s).
   */
  predicate Resumes(input: seq<char>, p0: nat, s0: nat, ts0: seq<Token>, p: nat, s: nat, ts: seq<Token>)
  {
    && p0 <= p <= |input|
    && |ts0| <= |ts| && ts[..|ts0|] == ts0
    && ScanFrom(input, p0, s0) == Scanned(ts[|ts0|..] + ScanFrom(input, p, s).tokens, ScanFrom(input, p, s).status)
  }

  /** Two stretches of the same scan make one. */
  lemma ResumesTrans(input: seq<char>, p0: nat, s0: nat, ts0: seq<Token>, p1: nat, s1: nat, ts1: seq<Token>,
                     p2: nat, s2: nat, ts2: seq<Token>)
    requires Resumes(input, p0, s0, ts0, p1, s1, ts1)
    requires Resumes(input, p1, s1, ts1, p2, s2, ts2)
    ensures Resumes(input, p0, s0, ts0, p2, s2, ts2)
  {
    assert ts2[..|ts1|][..|ts0|] == ts2[..|ts0|];
    assert ts2[|ts0|..] == ts1[|ts0|..] + ts2[|ts1|..];
    var r := ScanFrom(input, p2, s2);
    assert ts1[|ts0|..] + (ts2[|ts1|..] + r.tokens) == ts2[|ts0|..] + r.tokens;
  }

  /** A branch that pushes `toks` and leaves the cursor at (p, s) with the scan from (p0, s0) continuing from there. */
  lemma ResumesAfterPush(input: seq<char>, p0: nat, s0: nat, ts0: seq<Token>, toks: seq<Token>, p: nat, s: nat)
    requires p0 <= p <= |input|
    requires ScanFrom(input, p0, s0) == Scanned(toks + ScanFrom(input, p, s).tokens, ScanFrom(input, p, s).status)
    ensures Resumes(input, p0, s0, ts0, p, s, ts0 + toks)
  {
    assert (ts0 + toks)[..|ts0|] == ts0;
    assert (ts0 + toks)[|ts0|..] == toks;
  }

  /** One character of the block comment loop. */
  lemma BlockEndAt(input: seq<char>, q: nat)
    requires q < |input|
    ensures input[q] == '*' && HasPrefixAt(input, q + 1, "*/") ==> q + 3 <= |input| && BlockEnd(input, q) == q + 3
    ensures !(input[q] == '*' && HasPrefixAt(input, q + 1, "*/")) ==> BlockEnd(input, q) == BlockEnd(input, q + 1)
  {
  }

  // The state each branch of the loop leaves behind, as a stretch of the scan.

  lemma LineCommentResumes(input: seq<char>, p0: nat, s0: nat, ts0: seq<Token>, p: nat, s: nat)
    requires p0 < |input| && HasPrefixAt(input, p0, "//")
    requires p == RunEnd(input, p0, NotNewline) && s == s0 + (p - p0)
    ensures p0 < p && Resumes(input, p0, s0, ts0, p, s, ts0)
  {
    ScanFromLineComment(input, p0, s0);
    ResumesAfterPush(input, p0, s0, ts0, [], p, s);
    assert ts0 + [] == ts0;
  }

  lemma BlockCommentResumes(input: seq<char>, p0: nat, s0: nat, ts0: seq<Token>, p: nat, s: nat)
    requires p0 < |input| && HasPrefixAt(input, p0, "/*")
    requires p == BlockEnd(input, p0) && s == s0 + (p - p0)
    ensures p0 < p && Resumes(input, p0, s0, ts0, p, s, ts0)
  {
    ScanFromBlockComment(input, p0, s0);
    ResumesAfterPush(input, p0, s0, ts0, [], p, s);
    assert ts0 + [] == ts0;
  }

  lemma StringResumes(input: seq<char>, p0: nat, s0: nat, ts0: seq<Token>, body: seq<char>, p: nat, s: nat, ts: seq<Token>)
    requires p0 < |input| && input[p0] == '"'
    requires var j := RunEnd(input, p0 + 1, NotQuote);
      body == input[p0 + 1..j] && p == (if j < |input| then j + 1 else j)
    requires s == s0 + (p - p0) + |body| + 2
    requires ts == ts0 + [Token(Str(body), Span(s0 + (p - p0), s))]
    ensures p0 < p && Resumes(input, p0, s0, ts0, p, s, ts)
  {
    ScanFromStringLiteral(input, p0, s0);
    ResumesAfterPush(input, p0, s0, ts0, [Token(Str(body), Span(s0 + (p - p0), s))], p, s);
  }

  lemma WordResumes(input: seq<char>, p0: nat, s0: nat, ts0: seq<Token>, word: seq<char>, p: nat, s: nat, ts: seq<Token>)
    requires p0 < |input| && (IsAlphabetic(input[p0]) || input[p0] == '_')
    requires p == RunEnd(input, p0, IsIdentChar) && word == input[p0..p]
    requires s == s0 + 2 * |word| && ts == ts0 + [Token(KeywordOrIdent(word), Span(s0 + |word|, s))]
    ensures p0 < p && Resumes(input, p0, s0, ts0, p, s, ts)
  {
    ScanFromWord(input, p0, s0);
    ResumesAfterPush(input, p0, s0, ts0, [Token(KeywordOrIdent(word), Span(s0 + |word|, s))], p, s);
  }

  lemma NumberOverflows(input: seq<char>, p0: nat, s0: nat, digits: seq<char>)
    requires p0 < |input| && IsNumeric(input[p0])
    requires digits == input[p0..RunEnd(input, p0, IsNumeric)] && DecimalValue(digits) > I64_MAX
    ensures ScanFrom(input, p0, s0) == Scanned([], Failed(NumberOverflow))
  {
    ScanFromNumberOverflow(input, p0, s0);
  }

  lemma NumberResumes(input: seq<char>, p0: nat, s0: nat, ts0: seq<Token>, p: nat, s: nat, ts: seq<Token>)
    requires p0 < |input| && IsNumeric(input[p0])
    requires p == RunEnd(input, p0, IsNumeric) && DecimalValue(input[p0..p]) <= I64_MAX
    requires s == s0 + 2 * (p - p0) && ts == ts0 + [Token(Number(DecimalValue(input[p0..p]) as i64), Span(s0 + (p - p0), s))]
    ensures p0 < p && Resumes(input, p0, s0, ts0, p, s, ts)
  {
    ScanFromNumber(input, p0, s0);
    ResumesAfterPush(input, p0, s0, ts0, [Token(Number(DecimalValue(input[p0..p]) as i64), Span(s0 + (p - p0), s))], p, s);
  }

  class Lexer {
    /** The text being scanned; the cursor `pos` stands for the `Peekable` character iterator. */
    const input: seq<char>
    var pos: nat
    var start: nat
    var tokens: seq<Token>

    ghost predicate Valid()
      reads this
    {
      pos <= |input|
    }

    /** `Lexer::new`: the cursor at the first character, the counter at 0, no tokens. */
    constructor (input: seq<char>)
      ensures Valid()
      ensures this.input == input && pos == 0 && start == 0 && tokens == []
    {
      this.input := input;
      pos := 0;
      start := 0;
      tokens := [];
    }

    /** `input_chars_next`: consume one character; the counter counts it. */
    method NextChar() returns (c: Option<char>)
      requires Valid()
      modifies this
      ensures Valid() && tokens == old(tokens)
      ensures old(pos) < |input| ==> c == Some(input[old(pos)]) && pos == old(pos) + 1 && start == old(start) + 1
      ensures old(pos) == |input| ==> c == None && pos == old(pos) && start == old(start)
    {
      if pos < |input| {
        c := Some(input[pos]);
        pos := pos + 1;
        start := start + 1;
      } else {
        c := None;
      }
    }

    /** `input_chars_peek`: the character under the cursor, if any. */
    method PeekChar() returns (c: Option<char>)
      requires Valid()
      ensures pos < |input| ==> c == Some(input[pos])
      ensures pos == |input| ==> c == None
    {
      c := if pos < |input| then Some(input[pos]) else None;
    }

    /** `peek_n_chars`: the next `n` characters, fewer at the end of the input. */
    method PeekNChars(n: nat) returns (w: seq<char>)
      requires Valid()
      ensures w == Window(input, pos, n)
    {
      w := [];
      var probe := pos;
      for i := 0 to n
        invariant probe == pos + i <= |input|
        invariant w == input[pos..probe]
      {
        if probe < |input| {
          w := w + [input[probe]];
          probe := probe + 1;
        } else {
          break;
        }
      }
    }

    /** `starts_with`: the next characters are `s`. */
    method StartsWith(s: seq<char>) returns (b: bool)
      requires Valid()
      ensures b == HasPrefixAt(input, pos, s)
    {
      var w := PeekNChars(|s|);
      b := w == s;
    }

    /** `push_token`: the token covers `len` from the counter, which then moves past it. */
    method PushToken(kind: TokenKind, len: nat)
      requires Valid()
      modifies this
      ensures Valid() && pos == old(pos)
      ensures tokens == old(tokens) + [Token(kind, Span(old(start), old(start) + len))]
      ensures start == old(start) + len
    {
      var end := start + len;
      var span := Span(start, end);
      start := end;
      tokens := tokens + [Token(kind, span)];
    }

    /**
     * The peek-and-consume loop shared by the line comment, identifier and
     * number branches: consume characters while they satisfy `inRun`.
     */
    method TakeWhile(inRun: char -> bool) returns (run: seq<char>)
      requires Valid()
      modifies this
      ensures Valid() && tokens == old(tokens)
      ensures pos == RunEnd(input, old(pos), inRun) && run == input[old(pos)..pos]
      ensures start == old(start) + (pos - old(pos))
    {
      ghost var p0, j := pos, RunEnd(input, pos, inRun);
      run := [];
      while true
        invariant Valid() && p0 <= pos && start == old(start) + (pos - p0) && tokens == old(tokens)
        invariant RunEnd(input, pos, inRun) == j
        invariant run == input[p0..pos]
        decreases |input| - pos
      {
        var c := PeekChar();
        if c.None? || !inRun(c.value) {
          break;
        }
        run := run + [c.value];
        c := NextChar();
      }
    }

    /** A newline or other whitespace character: consume it. */
    method SkipSpace()
      requires Valid() && pos < |input| && IsWhitespace(input[pos])
      modifies this
      ensures Valid() && pos == old(pos) + 1 && start == old(start) + 1 && tokens == old(tokens)
      ensures Resumes(input, old(pos), old(start), old(tokens), pos, start, tokens)
    {
      ghost var p0, s0, ts0 := pos, start, tokens;
      var _ := NextChar();
      ScanFromWhitespace(input, p0, s0);
      ResumesAfterPush(input, p0, s0, ts0, [], pos, start);
    }

    /** A one-character symbol: push it with length 1, then consume it. */
    method ScanSymbol(c: char)
      requires Valid() && pos < |input| && c == input[pos] && c in SymbolChars
      requires FromStr(Window(input, pos, 2)) == None
      requires !HasPrefixAt(input, pos, "//") && !HasPrefixAt(input, pos, "/*")
      modifies this
      ensures Valid() && pos == old(pos) + 1 && start == old(start) + 2
      ensures tokens == old(tokens) + [Token(Symbol(c), Span(old(start), old(start) + 1))]
      ensures Resumes(input, old(pos), old(start), old(tokens), pos, start, tokens)
    {
      ghost var p0, s0, ts0 := pos, start, tokens;
      var sym := FromChar(c);
      PushToken(sym.value, 1);
      var _ := NextChar();
      ScanFromSymbol(input, p0, s0);
      ResumesAfterPush(input, p0, s0, ts0, [Token(Symbol(c), Span(s0, s0 + 1))], pos, start);
    }

    /** The line comment loop: consume everything up to, not including, the next newline. */
    method SkipLineComment()
      requires Valid() && pos < |input| && HasPrefixAt(input, pos, "//")
      modifies this
      ensures Valid() && old(pos) < pos && pos == RunEnd(input, old(pos), NotNewline)
      ensures start == old(start) + (pos - old(pos)) && tokens == old(tokens)
      ensures Resumes(input, old(pos), old(start), old(tokens), pos, start, tokens)
    {
      ghost var p0, s0 := pos, start;
      var _ := TakeWhile(NotNewline);
      LineCommentResumes(input, p0, s0, tokens, pos, start);
    }

    /**
     * The block comment loop: consume a character at a time; after a `*` that
     * is followed by `*` `/`, consume those two and stop.
     */
    method SkipBlockComment()
      requires Valid() && pos < |input| && HasPrefixAt(input, pos, "/*")
      modifies this
      ensures Valid() && old(pos) < pos && pos == BlockEnd(input, old(pos))
      ensures start == old(start) + (pos - old(pos)) && tokens == old(tokens)
      ensures Resumes(input, old(pos), old(start), old(tokens), pos, start, tokens)
    {
      ghost var p0, s0, j := pos, start, BlockEnd(input, pos);
      while true
        invariant Valid() && p0 <= pos && start == s0 + (pos - p0) && tokens == old(tokens)
        invariant BlockEnd(input, pos) == j
        decreases |input| - pos
      {
        ghost var q := pos;
        var c := NextChar();
        if c.None? {
          break;
        }
        BlockEndAt(input, q);
        if c.value == '*' {
          var closes := StartsWith("*/");
          if closes {
            c := NextChar();
            c := NextChar();
            break;
          }
        }
      }
      BlockCommentResumes(input, p0, s0, tokens, pos, start);
    }

    /** The character literal branch: the code of the quoted character, or a panic. */
    method ScanCharLiteral() returns (halt: Option<Status>)
      requires Valid() && pos < |input| && input[pos] == '\''
      modifies this
      ensures Valid()
      ensures halt.Some? ==> tokens == old(tokens) && ScanFrom(input, old(pos), old(start)) == Scanned([], halt.value)
      ensures halt.None? ==> old(pos) < pos && Resumes(input, old(pos), old(start), old(tokens), pos, start, tokens)
      ensures halt.Some? ==> halt.value == (if old(pos) + 1 == |input| then Failed(CharLiteralAtEof) else Failed(UnterminatedCharLiteral))
      ensures halt.None? <==> old(pos) + 2 < |input| && input[old(pos) + 2] == '\''
      ensures halt.None? ==>
        && pos == old(pos) + 3 && start == old(start) + 6
        && tokens == old(tokens) + [Token(Number(input[old(pos) + 1] as int as i64), Span(old(start) + 3, old(start) + 6))]
    {
      ghost var p0, s0, ts0 := pos, start, tokens;
      ScanFromCharLiteral(input, p0, s0);
      var quote := NextChar();
      var c := NextChar();
      if c.None? {
        return Some(Failed(CharLiteralAtEof));
      }
      var close := NextChar();
      if close != Some('\'') {
        return Some(Failed(UnterminatedCharLiteral));
      }
      PushToken(Number(c.value as int as i64), 3);
      ResumesAfterPush(input, p0, s0, ts0, [Token(Number(c.value as int as i64), Span(s0 + 3, s0 + 6))], pos, start);
      halt := None;
    }

    /** The string literal branch: the raw characters up to the next `"` or the end. */
    method ScanStringLiteral()
      requires Valid() && pos < |input| && input[pos] == '"'
      modifies this
      ensures Valid() && old(pos) < pos
      ensures var j := RunEnd(input, old(pos) + 1, NotQuote);
        var body := input[old(pos) + 1..j];
        && pos == (if j < |input| then j + 1 else j)
        && start == old(start) + (pos - old(pos)) + |body| + 2
        && tokens == old(tokens) + [Token(Str(body), Span(old(start) + (pos - old(pos)), start))]
      ensures Resumes(input, old(pos), old(start), old(tokens), pos, start, tokens)
    {
      ghost var p0, s0, ts0 := pos, start, tokens;
      var quote := NextChar();
      var s := TakeQuoted();
      PushToken(Str(s), |s| + 2);
      StringResumes(input, p0, s0, ts0, s, pos, start, tokens);
    }

    /** The string loop: every character up to the closing quote, which is consumed too. */
    method TakeQuoted() returns (s: seq<char>)
      requires Valid()
      modifies this
      ensures Valid() && tokens == old(tokens)
      ensures var j := RunEnd(input, old(pos), NotQuote);
        && s == input[old(pos)..j]
        && pos == (if j < |input| then j + 1 else j)
      ensures start == old(start) + (pos - old(pos))
    {
      ghost var p0, j := pos, RunEnd(input, pos, NotQuote);
      s := [];
      while true
        invariant Valid() && p0 <= pos && start == old(start) + (pos - p0) && tokens == old(tokens)
        invariant RunEnd(input, pos, NotQuote) == j
        invariant s == input[p0..pos]
        decreases |input| - pos
      {
        var c := NextChar();
        if c.None? {
          break;
        }
        if c.value == '"' {
          assert pos - 1 == j;
          break;
        }
        s := s + [c.value];
      }
    }

    /** The identifier branch: the maximal word, then its keyword or `Ident`. */
    method ScanWord()
      requires Valid() && pos < |input| && (IsAlphabetic(input[pos]) || input[pos] == '_')
      modifies this
      ensures Valid() && old(pos) < pos && pos == RunEnd(input, old(pos), IsIdentChar)
      ensures start == old(start) + 2 * (pos - old(pos))
      ensures tokens == old(tokens) + [Token(KeywordOrIdent(input[old(pos)..pos]), Span(old(start) + (pos - old(pos)), start))]
      ensures Resumes(input, old(pos), old(start), old(tokens), pos, start, tokens)
    {
      ghost var p0, s0, ts0 := pos, start, tokens;
      var s := TakeWhile(IsIdentChar);
      PushToken(KeywordOrIdent(s), |s|);
      WordResumes(input, p0, s0, ts0, s, pos, start, tokens);
    }

    /** `scan_number`: the maximal digit run, parsed as i64 (a panic when it does not fit). */
    method ScanNumber() returns (halt: Option<Status>)
      requires Valid() && pos < |input| && IsNumeric(input[pos])
      modifies this
      ensures Valid()
      ensures halt.Some? ==> tokens == old(tokens) && ScanFrom(input, old(pos), old(start)) == Scanned([], halt.value)
      ensures halt.None? ==> old(pos) < pos && Resumes(input, old(pos), old(start), old(tokens), pos, start, tokens)
      ensures pos == RunEnd(input, old(pos), IsNumeric)
      ensures halt.Some? <==> DecimalValue(input[old(pos)..pos]) > I64_MAX
      ensures halt.Some? ==> halt.value == Failed(NumberOverflow)
      ensures halt.None? ==>
        && start == old(start) + 2 * (pos - old(pos))
        && DecimalValue(input[old(pos)..pos]) <= I64_MAX
        && tokens == old(tokens) + [Token(Number(DecimalValue(input[old(pos)..pos]) as i64), Span(old(start) + (pos - old(pos)), start))]
    {
      ghost var p0, s0, ts0 := pos, start, tokens;
      var s := TakeWhile(IsNumeric);
      var v := DecimalValue(s);
      if v > I64_MAX {
        NumberOverflows(input, p0, s0, s);
        return Some(Failed(NumberOverflow));
      }
      PushToken(Number(v as i64), |s|);
      NumberResumes(input, p0, s0, ts0, pos, start, tokens);
      halt := None;
    }

    /**
     * One pass of the loop of `scan` with `c` peeked: the branches in the
     * source's order. A branch that panics, or the operator branch (which the
     * source repeats forever), ends the scan with the status `halt`.
     */
    method Iterate(c: char) returns (halt: Option<Status>)
      requires Valid() && pos < |input| && c == input[pos]
      modifies this
      ensures Valid()
      ensures halt.Some? ==> tokens == old(tokens) && ScanFrom(input, old(pos), old(start)) == Scanned([], halt.value)
      ensures halt.None? ==> old(pos) < pos && Resumes(input, old(pos), old(start), old(tokens), pos, start, tokens)
    {
      ghost var p0, s0, ts0 := pos, start, tokens;
      halt := None;
      if c == '\n' || IsWhitespace(c) {
        SkipSpace();
        return;
      }
      var lineComment := StartsWith("//");
      if lineComment {
        SkipLineComment();
        return;
      }
      var blockComment := StartsWith("/*");
      if blockComment {
        SkipBlockComment();
        return;
      }
      if c == '\'' {
        halt := ScanCharLiteral();
        return;
      }
      if c == '"' {
        ScanStringLiteral();
        return;
      }
      var nextTwo := PeekNChars(2);
      var op := FromStr(nextTwo);
      if op.Some? {
        ScanFromOperator(input, p0, s0);
        return Some(Stuck(pos, op.value));
      }
      var sym := FromChar(c);
      if sym.Some? {
        ScanSymbol(c);
        return;
      }
      if IsAlphabetic(c) || c == '_' {
        ScanWord();
        return;
      }
      if IsNumeric(c) {
        halt := ScanNumber();
        return;
      }
      ScanFromUnrecognized(input, p0, s0);
      halt := Some(Failed(Unrecognized(c)));
    }

    /**
     * `scan`: run the loop until the input is used up. The tokens pushed are
     * exactly those of `ScanFrom`; a panic or a step that would repeat forever
     * stops it with the status `ScanFrom` gives.
     */
    method Scan() returns (status: Status)
      requires Valid()
      modifies this
      ensures Valid()
      ensures tokens == old(tokens) + ScanFrom(input, old(pos), old(start)).tokens
      ensures status == ScanFrom(input, old(pos), old(start)).status
    {
      ghost var p0, s0, ts0 := pos, start, tokens;
      ResumesAfterPush(input, p0, s0, ts0, [], p0, s0);
      while true
        invariant Valid() && Resumes(input, p0, s0, ts0, pos, start, tokens)
        decreases |input| - pos
      {
        var peeked := PeekChar();
        if peeked.None? {
          ScanFromEnd(input, start);
          assert tokens == ts0 + tokens[|ts0|..];
          return Finished;
        }
        ghost var p1, s1, ts1 := pos, start, tokens;
        var halt := Iterate(peeked.value);
        if halt.Some? {
          assert tokens == ts0 + tokens[|ts0|..];
          return halt.value;
        }
        ResumesTrans(input, p0, s0, ts0, p1, s1, ts1, pos, start, tokens);
      }
    }
  }

  /** Scanning a fresh lexer pushes the tokens of `ScanAll` and ends with its status. */
  method Tokenize(input: seq<char>) returns (tokens: seq<Token>, status: Status)
    ensures tokens == ScanAll(input).tokens && status == ScanAll(input).status
  {
    var lexer := new Lexer(input);
    status := lexer.Scan();
    tokens := lexer.tokens;
  }
}
