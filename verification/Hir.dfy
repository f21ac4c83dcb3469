/** The lowered program representation shared by the ownership passes, the MIR lowering
    and the reference semantics: expression trees over symbols resolved to unique ids. */
module Hir {
  import opened Wrappers

  type Sym = nat
  type Def = nat

  /** Run-time values. Numbers are unbounded; strings, characters and floats are not modelled. */
  datatype Value =
    | IntV(i: int)
    | BoolV(b: bool)
    | UnitV
    | ArrayV(elems: seq<Value>)
    | VariantV(def: Def, tag: nat, payload: seq<Value>)
    | StructV(def: Def, fields: map<nat, Value>)

  datatype BinOp = Add | Sub | Mul | Div | Rem | Eq | Ne | Lt | Le | Gt | Ge
  datatype UnOp = Neg | Not

  /** Operations that evaluate every operand left to right and then compute one value.
      `copy` on `Index` and `Slice` says that the result type is a copy type. */
  datatype Op =
    | Bin(bop: BinOp)
    | Un(uop: UnOp)
    | Len
    | Index(copy: bool)
    | Slice(hasLo: bool, hasHi: bool, copy: bool)
    | ArrayLit
    | VariantLit(def: Def, variant: nat)
    | StructLit(def: Def, slots: seq<nat>)
    | Call(def: Def)

  /** `unit` on `If` and `Match` says that the checker gave the node type unit;
      `copy` on `Field` says that the projected field has a copy type. */
  datatype Expr =
    | Lit(v: Value)
    | Var(sym: Sym)
    | Field(base: Expr, field: nat, copy: bool)
    | Prim(op: Op, args: seq<Expr>)
    | Logic(isOr: bool, lhs: Expr, rhs: Expr)
    | If(cond: Expr, thn: Expr, els: Option<Expr>, unit: bool)
    | Block(stmts: seq<Stmt>, tail: Option<Expr>)
    | Match(scrut: Expr, arms: seq<Arm>, unit: bool)
    | ForRange(var_: Sym, lo: Option<Expr>, hi: Option<Expr>, body: Expr)
    | ForEach(var_: Sym, iter: Expr, body: Expr)
    | Poison

  datatype Stmt =
    | Let(sym: Sym, init: Option<Expr>)
    | Assign(target: Sym, path: seq<nat>, value: Expr)
    | ExprStmt(expr: Expr)
    | Return(result: Option<Expr>)

  datatype Arm = Arm(pat: Pat, body: Expr)

  datatype Pat =
    | VariantPat(variant: nat, binds: seq<Option<Sym>>)
    | BindPat(sym: Option<Sym>)
    | PoisonPat

  /** Inferred parameter behaviour, weakest first (`Unknown` is treated like `Move`). */
  datatype Behavior = Copy | Borrow | BorrowMut | Move | Escape | Unknown

  /** Whether a value is consumed or only observed. */
  datatype Ctx = ReadCtx | MoveCtx

  type Contracts = map<Def, seq<Behavior>>

  /** The contract of argument `i`; a missing entry counts as `Move`. */
  function ContractAt(cs: Contracts, def: Def, i: nat): Behavior {
    if def in cs && i < |cs[def]| then cs[def][i] else Move
  }

  predicate Consumes(b: Behavior) {
    b == Move || b == Escape || b == Unknown
  }

  function BehaviorCtx(b: Behavior): Ctx {
    if Consumes(b) then MoveCtx else ReadCtx
  }

  /** The context operand `i` of an operation is evaluated in. */
  function ArgCtx(cs: Contracts, op: Op, i: nat, ctx: Ctx): Ctx {
    match op
    case Bin(_) => ReadCtx
    case Un(_) => ReadCtx
    case Len => ReadCtx
    case Index(copy) => if i == 0 && !copy then ctx else ReadCtx
    case Slice(_, _, copy) => if i == 0 && !copy then ctx else ReadCtx
    case ArrayLit => MoveCtx
    case VariantLit(_, _) => MoveCtx
    case StructLit(_, _) => MoveCtx
    case Call(def) => BehaviorCtx(ContractAt(cs, def, i))
  }

  // ---------- scalar operations ----------

  /** Integer division rounds toward zero. */
  function TruncDiv(a: int, b: int): int
    requires b != 0
  {
    if a >= 0 then a / b else -((-a) / b)
  }

  function TruncRem(a: int, b: int): int
    requires b != 0
  {
    a - b * TruncDiv(a, b)
  }

  /** Structural equality is defined on scalars only; aggregates never compare equal. */
  predicate ValuesEq(a: Value, b: Value) {
    match (a, b)
    case (IntV(x), IntV(y)) => x == y
    case (BoolV(x), BoolV(y)) => x == y
    case (UnitV, UnitV) => true
    case _ => false
  }

  function Binary(op: BinOp, l: Value, r: Value): Option<Value> {
    match op
    case Eq => Some(BoolV(ValuesEq(l, r)))
    case Ne => Some(BoolV(!ValuesEq(l, r)))
    case _ => if l.IntV? && r.IntV? then IntBinary(op, l.i, r.i) else None
  }

  function IntBinary(op: BinOp, a: int, b: int): Option<Value> {
    match op
    case Add => Some(IntV(a + b))
    case Sub => Some(IntV(a - b))
    case Mul => Some(IntV(a * b))
    case Div => if b == 0 then None else Some(IntV(TruncDiv(a, b)))
    case Rem => if b == 0 then None else Some(IntV(TruncRem(a, b)))
    case Lt => Some(BoolV(a < b))
    case Le => Some(BoolV(a <= b))
    case Gt => Some(BoolV(a > b))
    case Ge => Some(BoolV(a >= b))
    case Eq => Some(BoolV(a == b))
    case Ne => Some(BoolV(a != b))
  }

  function Unary(op: UnOp, v: Value): Option<Value> {
    match (op, v)
    case (Neg, IntV(i)) => Some(IntV(-i))
    case (Not, BoolV(b)) => Some(BoolV(!b))
    case _ => None
  }

  function IndexInto(base: Value, index: Value): Option<Value> {
    if base.ArrayV? && index.IntV? && 0 <= index.i < |base.elems| then Some(base.elems[index.i]) else None
  }

  function SliceOf(base: Value, lo: Value, hi: Value): Option<Value> {
    if base.ArrayV? && lo.IntV? && hi.IntV? && 0 <= lo.i <= hi.i <= |base.elems|
    then Some(ArrayV(base.elems[lo.i..hi.i]))
    else None
  }

  function PlaceFields(slots: seq<nat>, vals: seq<Value>): map<nat, Value>
    decreases |vals|
  {
    if vals == [] then map[]
    else
      var last := |vals| - 1;
      PlaceFields(slots, vals[..last])[(if last < |slots| then slots[last] else last) := vals[last]]
  }

  /** The value of a non-call operation on its operand values; `None` is a trap. */
  function Apply(op: Op, vals: seq<Value>): Option<Value>
    requires !op.Call?
  {
    match op
    case Bin(b) => if |vals| == 2 then Binary(b, vals[0], vals[1]) else None
    case Un(u) => if |vals| == 1 then Unary(u, vals[0]) else None
    case Len => if |vals| == 1 && vals[0].ArrayV? then Some(IntV(|vals[0].elems|)) else None
    case Index(_) => if |vals| == 2 then IndexInto(vals[0], vals[1]) else None
    case Slice(hasLo, hasHi, _) =>
      var want := 1 + (if hasLo then 1 else 0) + (if hasHi then 1 else 0);
      if |vals| != want || !vals[0].ArrayV? then None
      else
        var lo := if hasLo then vals[1] else IntV(0);
        var hi := if hasHi then vals[want - 1] else IntV(|vals[0].elems|);
        SliceOf(vals[0], lo, hi)
    case ArrayLit => Some(ArrayV(vals))
    case VariantLit(def, variant) => Some(VariantV(def, variant, vals))
    case StructLit(def, slots) => Some(StructV(def, PlaceFields(slots, vals)))
  }
}
