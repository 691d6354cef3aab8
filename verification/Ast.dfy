/** The syntax trees built by the Oleren parser, as far as they are modelled here. */
module Ast {
  import opened Options

  datatype BinOp =
    | Or | And | BitOr | BitXor | BitAnd
    | EqEq | Neq | Lt | Gt | Leq | Geq
    | Shl | Shr | Plus | Minus | Star | Slash | Percent

  datatype AsgOp = SetTo | PlusSet | MinusSet | StarSet | SlashSet | PercentSet

  datatype PreOp = Neg | Not | Addr | RawDeref | SmartDeref

  datatype Expr =
    | Int(n: int)
    | Ident(name: string)
    | ErrLit(variant: string)                              // err.NAME
    | Binary(op: BinOp, left: Expr, right: Expr)
    | Unary(pre: PreOp, operand: Expr)
    | Assign(asg: AsgOp, lhs: Expr, rhs: Expr)
    | Field(target: Expr, field: string)                   // target.name
    | FieldPtr(target: Expr, field: string)                // target->name
    | Subscript(target: Expr, index: Expr)
    | Deref(target: Expr)                                  // target.*
    | Call(callee: Expr, args: seq<Expr>)
    | Tuple(elems: seq<Expr>)
    | Try(tried: Expr)
    | CatchElse(tried: Expr, fallback: Expr)               // tried catch fallback
    | CatchBlock(tried: Expr, errVar: Option<string>, handler: Block)

  type Block = seq<Stmt>

  datatype Else = NoElse | ElseBlock(body: Block) | ElseIf(chain: Stmt)

  // A missing pattern is the default arm `_`; an expression body is a one-statement block.
  datatype Arm = Arm(pattern: Option<Expr>, body: Block)

  datatype Stmt =
    | ExprStmt(e: Expr)
    | Print(e: Expr)                                       // @pl(e)
    | VarDecl(x: string, init: Expr)
    | If(cond: Expr, thn: Block, els: Else)
    | When(subject: Expr, arms: seq<Arm>)
    | While(cond: Expr, body: Block)
    | Break
    | Continue
    | Defer(deferred: Block)
    | ErrDefer(deferred: Block)
    | Ret(value: Option<Expr>)

  // Plain: `-> T`, `-> void` or no return type.  Fallible: `-> !T` or `-> Set!T`.
  datatype RetType = Plain(isVoid: bool) | Fallible(set_: Option<string>, isVoid: bool)

  datatype FnDecl = FnDecl(name: string, params: seq<string>, ret: RetType, body: Block)

  datatype ErrDecl = ErrDecl(name: string, variants: seq<string>)

  // `globals` are the names of the variables and constants declared at top level.
  datatype Program = Program(fns: seq<FnDecl>, errs: seq<ErrDecl>, globals: seq<string>)

  // First declaration with the name, as the linear scans of the compiler find it.
  function FindFn(fns: seq<FnDecl>, f: string): Option<FnDecl> {
    if fns == [] then None
    else if fns[0].name == f then Some(fns[0])
    else FindFn(fns[1..], f)
  }

  function FindErrSet(errs: seq<ErrDecl>, s: string): Option<ErrDecl> {
    if errs == [] then None
    else if errs[0].name == s then Some(errs[0])
    else FindErrSet(errs[1..], s)
  }

  predicate IsErrName(errs: seq<ErrDecl>, s: string) {
    FindErrSet(errs, s).Some?
  }

  // The operand of `ret` that the emitter recognises as an error by its shape alone.
  predicate IsErrReturn(errs: seq<ErrDecl>, e: Expr) {
    match e
    case ErrLit(_) => true
    case Field(Ident(s), _) => IsErrName(errs, s)
    case _ => false
  }

  // ---------- the four kinds of expressions ----------

  // Read where they stand: no operand is evaluated.
  predicate IsAtom(e: Expr) {
    e.Int? || e.Ident? || e.ErrLit? || (e.Field? && e.target.Ident?)
  }

  // The right operand is evaluated only if the left one does not decide.
  predicate IsLogic(e: Expr) { e.Binary? && (e.op == And || e.op == Or) }

  predicate IsSet(e: Expr) { e.Assign? && e.lhs.Ident? }

  predicate IsControl(e: Expr) { e.Try? || e.CatchElse? || e.CatchBlock? || IsSet(e) }

  // All operands are evaluated, then something is made of their values.
  predicate IsOp(e: Expr) { !IsAtom(e) && !IsLogic(e) && !IsControl(e) }

  // What is made of the values.  OSame is the comparison that `when` is written with.
  datatype Oper =
    | OBin(op: BinOp)
    | OUn(pre: PreOp)
    | OField(field: string)
    | OPtr(field: string)
    | OSub
    | ODeref
    | OTuple
    | OCall(f: string)
    | OCallX                                               // a callee that is not a name
    | OAsg(asg: AsgOp)                                     // to anything but a name
    | OSame

  function OperOf(e: Expr): Oper
    requires IsOp(e)
  {
    if e.Binary? then OBin(e.op)
    else if e.Unary? then OUn(e.pre)
    else if e.Field? then OField(e.field)
    else if e.FieldPtr? then OPtr(e.field)
    else if e.Subscript? then OSub
    else if e.Deref? then ODeref
    else if e.Tuple? then OTuple
    else if e.Assign? then OAsg(e.asg)
    else if e.callee.Ident? then OCall(e.callee.name)
    else OCallX
  }

  // In the order of the text.
  function Operands(e: Expr): (es: seq<Expr>)
    ensures forall i | 0 <= i < |es| :: e decreases to es[i]
  {
    if e.Binary? then [e.left, e.right]
    else if e.Unary? then [e.operand]
    else if (e.Field? && !e.target.Ident?) || e.FieldPtr? || e.Deref? then [e.target]
    else if e.Subscript? then [e.target, e.index]
    else if e.Tuple? then e.elems
    else if e.Assign? && !e.lhs.Ident? then [e.lhs, e.rhs]
    else if e.Call? then if e.callee.Ident? then e.args else [e.callee] + e.args
    else []
  }

  // ---------- where the emitted text needs care ----------

  // C++ reads `-x.f` and `(int64_t)1.f` with the postfix operator first.
  predicate PostfixTarget(e: Expr) { !e.Unary? && !e.Int? }

  // `--x` and `&&x` are one C++ operator each.
  predicate Doubled(pre: PreOp, x: Expr) { (pre == Neg || pre == Addr) && x.Unary? && x.pre == pre }
}
