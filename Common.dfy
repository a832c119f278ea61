/**
 * The type and AST value model (src/common.rs): immutable `Type` values whose
 * size and alignment are fixed when they are built, variables, and AST nodes.
 */
module Common {

  /** An unsigned 32-bit integer, the width of sizes, alignments and lengths. */
  newtype u32 = x: int | 0 <= x < 0x1_0000_0000

  datatype TypeKind =
    | Void
    | Bool
    | Char
    | Int
    | Ptr(to: Type)
    | Array(elem: Type, len: u32)
    | Func(ret: Type, params: seq<Type>)

  /** The fields are private in the source and set only by the constructors below. */
  datatype Type = Type(size: u32, align: u32, kind: TypeKind)

  /** The storage size a kind determines, computed from scratch. */
  function SizeOf(k: TypeKind): int
  {
    match k
    case Void => 0
    case Bool => 1
    case Char => 1
    case Int => 4
    case Ptr(_) => 8
    case Array(e, n) => SizeOf(e.kind) * n as int
    case Func(_, _) => 0
  }

  /** The alignment a kind determines, computed from scratch. */
  function AlignOf(k: TypeKind): int
  {
    match k
    case Void => 0
    case Bool => 1
    case Char => 1
    case Int => 4
    case Ptr(_) => 8
    case Array(e, _) => AlignOf(e.kind)
    case Func(_, _) => 0
  }

  /** Every node of the type stores the size and alignment its kind determines. */
  predicate Valid(t: Type)
    decreases t
  {
    && t.size as int == SizeOf(t.kind)
    && t.align as int == AlignOf(t.kind)
    && match t.kind
       case Ptr(p) => Valid(p)
       case Array(e, _) => Valid(e)
       case Func(r, ps) => Valid(r) && forall i :: 0 <= i < |ps| ==> Valid(ps[i])
       case _ => true
  }

  function NewVoid(): (t: Type)
    ensures Valid(t) && t.kind == Void && t.size == 0 && t.align == 0
  {
    Type(0, 0, Void)
  }

  function NewBool(): (t: Type)
    ensures Valid(t) && t.kind == Bool && t.size == 1 && t.align == 1
  {
    Type(1, 1, Bool)
  }

  function NewChar(): (t: Type)
    ensures Valid(t) && t.kind == Char && t.size == 1 && t.align == 1
  {
    Type(1, 1, Char)
  }

  function NewInt(): (t: Type)
    ensures Valid(t) && t.kind == Int && t.size == 4 && t.align == 4
  {
    Type(4, 4, Int)
  }

  /** A pointer is one machine word whatever it points to. */
  function NewPtr(to: Type): (t: Type)
    ensures t.kind == Ptr(to) && t.size == 8 && t.align == 8
    ensures Valid(t) <==> Valid(to)
  {
    Type(8, 8, Ptr(to))
  }

  /**
   * An array of `len` elements. The product is `u32` arithmetic in the source;
   * the model takes the release-build reading, where it wraps modulo 2^32, so
   * the array is well formed exactly when the product fits.
   */
  function NewArray(elem: Type, len: u32): (t: Type)
    ensures t.kind == Array(elem, len) && t.align == elem.align
    ensures t.size as int == (elem.size as int * len as int) % 0x1_0000_0000
    ensures Valid(t) <==> Valid(elem) && elem.size as int * len as int < 0x1_0000_0000
  {
    Type(((elem.size as int * len as int) % 0x1_0000_0000) as u32, elem.align, Array(elem, len))
  }

  /** A function type is not a storable value: size and alignment 0. */
  function NewFunc(ret: Type, params: seq<Type>): (t: Type)
    ensures t.kind == Func(ret, params) && t.size == 0 && t.align == 0
    ensures Valid(t) <==> Valid(ret) && forall i :: 0 <= i < |params| ==> Valid(params[i])
  {
    Type(0, 0, Func(ret, params))
  }

  /** In every valid type the alignment is 0, 1, 4 or 8. */
  lemma {:induction false} AlignValues(t: Type)
    requires Valid(t)
    ensures t.align in {0, 1, 4, 8}
  {
    match t.kind
    case Array(e, _) => AlignValues(e);
    case _ =>
  }

  /** `m * j` is a multiple of each possible alignment `m`. */
  lemma MultipleOfAlignment(m: int, j: int)
    requires m in {1, 4, 8}
    ensures (m * j) % m == 0
  {
  }

  /** In every valid type the size is a multiple of the alignment (and 0 when the alignment is 0). */
  lemma {:induction false} SizeMultipleOfAlign(t: Type)
    requires Valid(t)
    ensures t.align == 0 ==> t.size == 0
    ensures t.align > 0 ==> t.size % t.align == 0
  {
    match t.kind
    case Array(e, n) =>
      SizeMultipleOfAlign(e);
      AlignValues(e);
      if e.align > 0 {
        var k := e.size as int / e.align as int;
        assert e.size as int == e.align as int * k;
        assert t.size as int == e.align as int * (k * n as int) by {
          assert e.size as int * n as int == (e.align as int * k) * n as int;
        }
        MultipleOfAlignment(e.align as int, k * n as int);
      }
    case _ =>
  }

  /** Example sizes: an array of five ints is 20 bytes, `char *` is 8, `void` is 0. */
  lemma ArrayOfFiveInts()
    ensures NewArray(NewInt(), 5).size == 20 && NewArray(NewInt(), 5).align == 4
    ensures NewPtr(NewChar()).size == 8 && NewVoid().size == 0
  {
  }

  // ---------------------------------------------------------------- variables

  datatype VarKind = Local(slot: u32) | Global(name: string)

  datatype Var = Var(ty: Type, name: string, kind: VarKind)

  /** A new variable is local with its frame slot not yet assigned (0). */
  function NewVar(ty: Type, name: string): (v: Var)
    ensures v.ty == ty && v.name == name
    ensures v.kind.Local? && v.kind.slot == 0
  {
    Var(ty, name, Local(0))
  }

  // ---------------------------------------------------------------- AST nodes

  datatype NodeKind =
    | Num(val: u32)
    | VarDef(init: Node)
    | Add(lhs: Node, rhs: Node)
    | Sub(lhs: Node, rhs: Node)
    | Mul(lhs: Node, rhs: Node)
    | Div(lhs: Node, rhs: Node)
    | Eq(lhs: Node, rhs: Node)
    | Ne(lhs: Node, rhs: Node)
    | Lt(lhs: Node, rhs: Node)
    | Le(lhs: Node, rhs: Node)
    | Assign(lhs: Node, rhs: Node)
    | Addr(operand: Node)
    | Deref(operand: Node)
    | Return(value: Node)
    | If(cond: Node, thenBranch: Node, elseBranch: Node)
    | For(init: Node, cond: Node, step: Node, body: Node)
    | Block(stmts: seq<Node>)
    | FuncCall(callee: string, args: seq<Node>)

  datatype Node = Node(kind: NodeKind, ty: Type, name: string)

  /** The owned child nodes of a node, in order. */
  function Children(n: Node): seq<Node>
  {
    match n.kind
    case Num(_) => []
    case VarDef(i) => [i]
    case Add(l, r) => [l, r]
    case Sub(l, r) => [l, r]
    case Mul(l, r) => [l, r]
    case Div(l, r) => [l, r]
    case Eq(l, r) => [l, r]
    case Ne(l, r) => [l, r]
    case Lt(l, r) => [l, r]
    case Le(l, r) => [l, r]
    case Assign(l, r) => [l, r]
    case Addr(o) => [o]
    case Deref(o) => [o]
    case Return(v) => [v]
    case If(c, t, e) => [c, t, e]
    case For(i, c, s, b) => [i, c, s, b]
    case Block(ss) => ss
    case FuncCall(_, as_) => as_
  }

  /** The node's type is valid, and so is every node below it. */
  predicate WellFormed(n: Node)
    decreases n
  {
    && Valid(n.ty)
    && match n.kind
       case Num(_) => true
       case VarDef(i) => WellFormed(i)
       case Add(l, r) => WellFormed(l) && WellFormed(r)
       case Sub(l, r) => WellFormed(l) && WellFormed(r)
       case Mul(l, r) => WellFormed(l) && WellFormed(r)
       case Div(l, r) => WellFormed(l) && WellFormed(r)
       case Eq(l, r) => WellFormed(l) && WellFormed(r)
       case Ne(l, r) => WellFormed(l) && WellFormed(r)
       case Lt(l, r) => WellFormed(l) && WellFormed(r)
       case Le(l, r) => WellFormed(l) && WellFormed(r)
       case Assign(l, r) => WellFormed(l) && WellFormed(r)
       case Addr(o) => WellFormed(o)
       case Deref(o) => WellFormed(o)
       case Return(v) => WellFormed(v)
       case If(c, t, e) => WellFormed(c) && WellFormed(t) && WellFormed(e)
       case For(i, c, s, b) => WellFormed(i) && WellFormed(c) && WellFormed(s) && WellFormed(b)
       case Block(ss) => forall i :: 0 <= i < |ss| ==> WellFormed(ss[i])
       case FuncCall(_, as_) => forall i :: 0 <= i < |as_| ==> WellFormed(as_[i])
  }

  /** An integer literal node: type int, no name. */
  function NewNum(val: u32): (n: Node)
    ensures n.kind == Num(val) && Children(n) == []
    ensures n.ty == NewInt() && n.name == "" && WellFormed(n)
  {
    Node(Num(val), NewInt(), "")
  }

  /** The placeholder node (`new_defalut` in the source): the literal 0. */
  function NewDefault(): (n: Node)
    ensures n == NewNum(0)
  {
    Node(Num(0), NewInt(), "")
  }

  /** A variable definition keeps the declared type and name and owns its initialiser. */
  function NewVarDef(ty: Type, name: string, init: Node): (n: Node)
    ensures n.kind == VarDef(init) && Children(n) == [init]
    ensures n.ty == ty && n.name == name
    ensures WellFormed(n) <==> Valid(ty) && WellFormed(init)
  {
    Node(VarDef(init), ty, name)
  }

  function NewAdd(lhs: Node, rhs: Node): (n: Node)
    ensures n.kind.Add? && Children(n) == [lhs, rhs]
    ensures n.ty == NewInt() && n.name == ""
    ensures WellFormed(n) <==> WellFormed(lhs) && WellFormed(rhs)
  {
    Node(Add(lhs, rhs), NewInt(), "")
  }

  function NewSub(lhs: Node, rhs: Node): (n: Node)
    ensures n.kind.Sub? && Children(n) == [lhs, rhs]
    ensures n.ty == NewInt() && n.name == ""
    ensures WellFormed(n) <==> WellFormed(lhs) && WellFormed(rhs)
  {
    Node(Sub(lhs, rhs), NewInt(), "")
  }

  function NewMul(lhs: Node, rhs: Node): (n: Node)
    ensures n.kind.Mul? && Children(n) == [lhs, rhs]
    ensures n.ty == NewInt() && n.name == ""
    ensures WellFormed(n) <==> WellFormed(lhs) && WellFormed(rhs)
  {
    Node(Mul(lhs, rhs), NewInt(), "")
  }

  function NewDiv(lhs: Node, rhs: Node): (n: Node)
    ensures n.kind.Div? && Children(n) == [lhs, rhs]
    ensures n.ty == NewInt() && n.name == ""
    ensures WellFormed(n) <==> WellFormed(lhs) && WellFormed(rhs)
  {
    Node(Div(lhs, rhs), NewInt(), "")
  }

  function NewEq(lhs: Node, rhs: Node): (n: Node)
    ensures n.kind.Eq? && Children(n) == [lhs, rhs]
    ensures n.ty == NewInt() && n.name == ""
    ensures WellFormed(n) <==> WellFormed(lhs) && WellFormed(rhs)
  {
    Node(Eq(lhs, rhs), NewInt(), "")
  }

  function NewNe(lhs: Node, rhs: Node): (n: Node)
    ensures n.kind.Ne? && Children(n) == [lhs, rhs]
    ensures n.ty == NewInt() && n.name == ""
    ensures WellFormed(n) <==> WellFormed(lhs) && WellFormed(rhs)
  {
    Node(Ne(lhs, rhs), NewInt(), "")
  }

  function NewLt(lhs: Node, rhs: Node): (n: Node)
    ensures n.kind.Lt? && Children(n) == [lhs, rhs]
    ensures n.ty == NewInt() && n.name == ""
    ensures WellFormed(n) <==> WellFormed(lhs) && WellFormed(rhs)
  {
    Node(Lt(lhs, rhs), NewInt(), "")
  }

  function NewLe(lhs: Node, rhs: Node): (n: Node)
    ensures n.kind.Le? && Children(n) == [lhs, rhs]
    ensures n.ty == NewInt() && n.name == ""
    ensures WellFormed(n) <==> WellFormed(lhs) && WellFormed(rhs)
  {
    Node(Le(lhs, rhs), NewInt(), "")
  }
}
