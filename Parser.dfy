/**
 * The declaration-head parser of src/parser/mod.rs: a cursor over the token
 * sequence with one token of lookahead, `decl_specifiers`, `ident` and the
 * part of `toplevel` the source implements (base type, pointer stars, name,
 * and an optional `(`). The source's panics are `Err` results.
 */
module Parser {
  import opened Wrappers
  import opened Token
  import Common
  import LexerProps

  /** Why parsing stops (each a panic in the source). */
  datatype ParseError =
    | EndOfInput            // `unwrap` of a missing token
    | StructNotImplemented  // `struct` is reserved but not supported
    | InvalidType           // any other token where a type is expected
    | InvalidIdentifier     // a token other than an identifier where a name is expected

  /** The base type a declaration-specifier keyword names (`decl_specifiers`' match). */
  function BaseType(k: TokenKind): (r: Result<Common.Type, ParseError>)
  {
    match k
    case Void => Ok(Common.NewVoid())
    case Bool => Ok(Common.NewBool())
    case Char => Ok(Common.NewChar())
    case Int => Ok(Common.NewInt())
    case Struct => Err(StructNotImplemented)
    case _ => Err(InvalidType)
  }

  /**
   * Exactly `void`, `_Bool`, `char` and `int` name a base type, each its own
   * scalar; `struct` is not implemented and anything else is not a type.
   */
  lemma BaseTypeCases(k: TokenKind)
    ensures BaseType(k).Ok? <==> k in {Void, Bool, Char, Int}
    ensures k == Void ==> BaseType(k) == Ok(Common.NewVoid())
    ensures k == Bool ==> BaseType(k) == Ok(Common.NewBool())
    ensures k == Char ==> BaseType(k) == Ok(Common.NewChar())
    ensures k == Int ==> BaseType(k) == Ok(Common.NewInt())
    ensures k == Struct ==> BaseType(k) == Err(StructNotImplemented)
    ensures BaseType(k).Err? && k != Struct ==> BaseType(k) == Err(InvalidType)
  {
  }

  /** Every base type a keyword names is well formed. */
  lemma BaseTypeValid(k: TokenKind)
    requires BaseType(k).Ok?
    ensures Common.Valid(BaseType(k).value)
  {
  }

  /** The name an identifier token carries (`ident`'s match). */
  function IdentName(k: TokenKind): (r: Result<string, ParseError>)
    ensures r.Ok? <==> k.Ident?
    ensures r.Ok? ==> k == Ident(r.value)
    ensures r.Err? ==> r.error == InvalidIdentifier
  {
    match k
    case Ident(s) => Ok(s)
    case _ => Err(InvalidIdentifier)
  }

  /** `base` wrapped in `k` pointers, innermost first. */
  function PtrTo(base: Common.Type, k: nat): Common.Type
  {
    if k == 0 then base else Common.NewPtr(PtrTo(base, k - 1))
  }

  /** The number of consecutive `*` tokens from `p`. */
  function StarRun(ts: seq<Token>, p: nat): (k: nat)
    requires p <= |ts|
    ensures p + k <= |ts|
    decreases |ts| - p
  {
    if p < |ts| && ts[p].kind == Symbol('*') then 1 + StarRun(ts, p + 1) else 0
  }

  /** What `toplevel` reads: the declared type, the name, and whether a `(` follows. */
  datatype Decl = Decl(ty: Common.Type, name: string, isFunction: bool)

  /** A parse result together with the cursor after it. */
  datatype Parsed = Parsed(result: Result<Decl, ParseError>, next: nat)

  /**
   * `toplevel` from cursor `i`: a declaration specifier, any number of `*`,
   * then `ParseNamed`.
   */
  function ParseToplevel(ts: seq<Token>, i: nat): (r: Parsed)
    requires i <= |ts|
    ensures i <= r.next <= |ts|
  {
    if i == |ts| then Parsed(Err(EndOfInput), i)
    else match BaseType(ts[i].kind)
      case Err(e) => Parsed(Err(e), i + 1)
      case Ok(base) =>
        var k := StarRun(ts, i + 1);
        ParseNamed(ts, PtrTo(base, k), i + 1 + k)
  }

  /** The rest of `toplevel` once the type `ty` is read and the cursor is at `j`: an identifier, then `(` if it is there. */
  function ParseNamed(ts: seq<Token>, ty: Common.Type, j: nat): (r: Parsed)
    requires j <= |ts|
    ensures j <= r.next <= |ts|
  {
    if j == |ts| then Parsed(Err(EndOfInput), j)
    else match IdentName(ts[j].kind)
      case Err(e) => Parsed(Err(e), j + 1)
      case Ok(name) =>
        var paren := j + 1 < |ts| && ts[j + 1].kind == Symbol('(');
        Parsed(Ok(Decl(ty, name, paren)), if paren then j + 2 else j + 1)
  }

  /** `ParseToplevel` when its first token is missing or names no base type. */
  lemma ToplevelErr(ts: seq<Token>, i: nat, e: ParseError, next: nat)
    requires i <= |ts|
    requires (i == |ts| && e == EndOfInput && next == i) || (i < |ts| && BaseType(ts[i].kind) == Err(e) && next == i + 1)
    ensures ParseToplevel(ts, i) == Parsed(Err(e), next)
  {
  }

  /** `ParseToplevel` once the base type `base` is read at `i`: the rest is `ParseNamed` after the stars. */
  lemma ToplevelNamed(ts: seq<Token>, i: nat, base: Common.Type)
    requires i < |ts| && BaseType(ts[i].kind) == Ok(base)
    ensures ParseToplevel(ts, i)
      == ParseNamed(ts, PtrTo(base, StarRun(ts, i + 1)), i + 1 + StarRun(ts, i + 1))
  {
  }

  /** `ParseNamed` when the identifier is missing or is another kind of token. */
  lemma NamedErr(ts: seq<Token>, ty: Common.Type, j: nat, e: ParseError, next: nat)
    requires j <= |ts|
    requires (j == |ts| && e == EndOfInput && next == j) || (j < |ts| && IdentName(ts[j].kind) == Err(e) && next == j + 1)
    ensures ParseNamed(ts, ty, j) == Parsed(Err(e), next)
  {
  }

  /** `ParseNamed` when the identifier `name` is at `j` and `paren` says whether `(` follows. */
  lemma NamedOk(ts: seq<Token>, ty: Common.Type, j: nat, name: string, paren: bool)
    requires j < |ts| && ts[j].kind == Ident(name)
    requires paren <==> j + 1 < |ts| && ts[j + 1].kind == Symbol('(')
    ensures ParseNamed(ts, ty, j) == Parsed(Ok(Decl(ty, name, paren)), if paren then j + 2 else j + 1)
  {
    assert IdentName(ts[j].kind) == Ok(name);
  }

  // ------------------------------------------------------------ the cursor

  class Parser {
    /** The token stream, and the index of the next token (`input_tokens`). */
    const tokens: seq<Token>
    var next: nat

    ghost predicate Valid()
      reads this
    {
      next <= |tokens|
    }

    constructor(tokens: seq<Token>)
      ensures Valid() && this.tokens == tokens && next == 0
    {
      this.tokens := tokens;
      next := 0;
    }

    /** `input_tokens_next`: the next token, consumed; `None` at the end. */
    method NextToken() returns (t: Option<Token>)
      requires Valid()
      modifies this
      ensures Valid()
      ensures old(next) < |tokens| ==> t == Some(tokens[old(next)]) && next == old(next) + 1
      ensures old(next) == |tokens| ==> t == None && next == old(next)
    {
      if next < |tokens| {
        t := Some(tokens[next]);
        next := next + 1;
      } else {
        t := None;
      }
    }

    /** `input_tokens_consume`: consume the next token exactly when it has kind `k`. */
    method Consume(k: TokenKind) returns (b: bool)
      requires Valid()
      modifies this
      ensures Valid()
      ensures b <==> old(next) < |tokens| && tokens[old(next)].kind == k
      ensures next == if b then old(next) + 1 else old(next)
    {
      if next < |tokens| && tokens[next].kind == k {
        next := next + 1;
        return true;
      }
      return false;
    }

    /** `decl_specifiers`: consume one token and name its base type. */
    method DeclSpecifiers() returns (r: Result<Common.Type, ParseError>)
      requires Valid()
      modifies this
      ensures Valid()
      ensures old(next) == |tokens| ==> r == Err(EndOfInput) && next == old(next)
      ensures old(next) < |tokens| ==> r == BaseType(tokens[old(next)].kind) && next == old(next) + 1
    {
      var t := NextToken();
      if t.None? {
        return Err(EndOfInput);
      }
      r := BaseType(t.value.kind);
    }

    /** `ident`: consume one token and return the name it carries. */
    method Ident() returns (r: Result<string, ParseError>)
      requires Valid()
      modifies this
      ensures Valid()
      ensures old(next) == |tokens| ==> r == Err(EndOfInput) && next == old(next)
      ensures old(next) < |tokens| ==> r == IdentName(tokens[old(next)].kind) && next == old(next) + 1
    {
      var t := NextToken();
      if t.None? {
        return Err(EndOfInput);
      }
      r := IdentName(t.value.kind);
    }

    /** The pointer loop of `toplevel`: wrap `ty` in one `Ptr` per `*` consumed. */
    method PointerStars(ty: Common.Type) returns (t: Common.Type)
      requires Valid()
      modifies this
      ensures Valid()
      ensures next == old(next) + StarRun(tokens, old(next))
      ensures t == PtrTo(ty, StarRun(tokens, old(next)))
    {
      ghost var i := next;
      t := ty;
      while true
        invariant Valid() && i <= next
        invariant t == PtrTo(ty, next - i)
        invariant StarRun(tokens, i) == (next - i) + StarRun(tokens, next)
        decreases |tokens| - next
      {
        var star := Consume(Symbol('*'));
        if !star {
          break;
        }
        t := Common.NewPtr(t);
      }
    }

    /** `toplevel`: the declared type, its name, and whether a parameter list opens. */
    method Toplevel() returns (r: Result<Decl, ParseError>)
      requires Valid()
      modifies this
      ensures Valid()
      ensures Parsed(r, next) == ParseToplevel(tokens, old(next))
    {
      ghost var i := next;
      var base := DeclSpecifiers();
      if base.Err? {
        ToplevelErr(tokens, i, base.error, next);
        return Err(base.error);
      }
      var ty := PointerStars(base.value);
      r := Named(ty);
      ToplevelNamed(tokens, i, base.value);
    }

    /** The tail of `toplevel` once the type `ty` is read: the identifier, then an optional `(`. */
    method Named(ty: Common.Type) returns (r: Result<Decl, ParseError>)
      requires Valid()
      modifies this
      ensures Valid()
      ensures Parsed(r, next) == ParseNamed(tokens, ty, old(next))
    {
      ghost var j := next;
      var name := Ident();
      if name.Err? {
        NamedErr(tokens, ty, j, name.error, next);
        return Err(name.error);
      }
      var paren := Consume(Symbol('('));
      r := Ok(Decl(ty, name.value, paren));
      NamedOk(tokens, ty, j, name.value, paren);
    }

    /** `parse`: one top-level declaration head. */
    method Parse() returns (r: Result<Decl, ParseError>)
      requires Valid()
      modifies this
      ensures Valid()
      ensures Parsed(r, next) == ParseToplevel(tokens, old(next))
    {
      r := Toplevel();
    }
  }

  // ------------------------------------------------------------ properties of the specification

  /** The star run is maximal: all `*` up to its end, and the token after it (if any) is not `*`. */
  lemma {:induction false} StarRunMaximal(ts: seq<Token>, p: nat)
    requires p <= |ts|
    ensures var e := p + StarRun(ts, p);
      && (forall q :: p <= q < e ==> ts[q].kind == Symbol('*'))
      && (e == |ts| || ts[e].kind != Symbol('*'))
    decreases |ts| - p
  {
    if p < |ts| && ts[p].kind == Symbol('*') {
      StarRunMaximal(ts, p + 1);
    }
  }

  /** Wrapping in `k >= 1` pointers gives a pointer of size and alignment 8, and keeps the type well formed. */
  lemma {:induction false} PtrToShape(base: Common.Type, k: nat)
    ensures k >= 1 ==> PtrTo(base, k).kind == Common.Ptr(PtrTo(base, k - 1))
    ensures k >= 1 ==> PtrTo(base, k).size == 8 && PtrTo(base, k).align == 8
    ensures Common.Valid(PtrTo(base, k)) <==> Common.Valid(base)
  {
    if k >= 1 {
      PtrToShape(base, k - 1);
    }
  }

  /**
   * A successful `toplevel` read a type keyword, `k` stars, an identifier, and
   * the `(` exactly when one follows: `1 + k + 1` tokens, plus one for `(`.
   * Its type is the base type under `k` pointers, well formed, and of size 8
   * when `k >= 1`; the token after the stars is not `*`.
   */
  lemma ToplevelSuccess(ts: seq<Token>, i: nat)
    requires i <= |ts| && ParseToplevel(ts, i).result.Ok?
    ensures var k := StarRun(ts, i + 1);
      var d := ParseToplevel(ts, i).result.value;
      var j := i + 1 + k;
      && j < |ts|
      && ts[i].kind in {Void, Bool, Char, Int}
      && d.ty == PtrTo(BaseType(ts[i].kind).value, k)
      && Common.Valid(d.ty)
      && (k >= 1 ==> d.ty.size == 8)
      && ts[j].kind == Ident(d.name)
      && (d.isFunction <==> j + 1 < |ts| && ts[j + 1].kind == Symbol('('))
      && ParseToplevel(ts, i).next == j + 1 + (if d.isFunction then 1 else 0)
  {
    var k := StarRun(ts, i + 1);
    StarRunMaximal(ts, i + 1);
    PtrToShape(BaseType(ts[i].kind).value, k);
  }

  /** `toplevel` fails exactly when a token is missing, the first is not a type keyword, or the name is not an identifier. */
  lemma ToplevelFailure(ts: seq<Token>, i: nat)
    requires i <= |ts|
    ensures i == |ts| ==> ParseToplevel(ts, i).result == Err(EndOfInput)
    ensures i < |ts| && ts[i].kind == Struct ==> ParseToplevel(ts, i) == Parsed(Err(StructNotImplemented), i + 1)
    ensures i < |ts| && ts[i].kind !in {Void, Bool, Char, Int, Struct} ==> ParseToplevel(ts, i) == Parsed(Err(InvalidType), i + 1)
    ensures i < |ts| && ts[i].kind in {Void, Bool, Char, Int} ==>
      var j := i + 1 + StarRun(ts, i + 1);
      && (j == |ts| ==> ParseToplevel(ts, i) == Parsed(Err(EndOfInput), j))
      && (j < |ts| && !ts[j].kind.Ident? ==> ParseToplevel(ts, i) == Parsed(Err(InvalidIdentifier), j + 1))
  {
  }

  /** On the tokens of `int main(){ return 0;}` the head is `int main` with `(` consumed and `)` next. */
  lemma ToplevelTestProgram()
    ensures ParseToplevel(LexerProps.TestProgramTokens, 0)
      == Parsed(Ok(Decl(Common.NewInt(), "main", true)), 3)
    ensures LexerProps.TestProgramTokens[3].kind == Symbol(')')
  {
    assert StarRun(LexerProps.TestProgramTokens, 1) == 0;
  }
}
