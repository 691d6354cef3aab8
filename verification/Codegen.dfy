/** The emitter as it works: one pass over the tree that appends to the output and bumps
    its two counters.  What it appends is the text of the lowered program. */
module Codegen {
  import opened Ast
  import opened Options
  import opened Seqs
  import opened Cpp
  import opened Lowering
  import opened Preservation

  // A piece of output: fixed text, a numbered name, a name, an operator, or what is written
  // for a name or literal of the source.
  datatype Word =
    | W(text: string)
    | N(stem: string, n: nat)
    | Id(name: string)
    | Op2(op: BinOp)
    | Op1(pre: PreOp)
    | OpSet(asg: AsgOp)
    | X(e: Expr)

  // ---------- the text of C++ programs ----------

  function BinText(op: BinOp): string {
    match op
    case Or => " || "
    case And => " && "
    case BitOr => " | "
    case BitXor => " ^ "
    case BitAnd => " & "
    case EqEq => " == "
    case Neq => " != "
    case Lt => " < "
    case Gt => " > "
    case Leq => " <= "
    case Geq => " >= "
    case Shl => " << "
    case Shr => " >> "
    case Plus => " + "
    case Minus => " - "
    case Star => " * "
    case Slash => " / "
    case Percent => " % "
  }

  function PreText(pre: PreOp): string {
    match pre
    case Neg => "-"
    case Not => "!"
    case Addr => "&"
    case RawDeref => "*"
    case SmartDeref => "*"
  }

  function AsgText(asg: AsgOp): string {
    match asg
    case SetTo => " = "
    case PlusSet => " += "
    case MinusSet => " -= "
    case StarSet => " *= "
    case SlashSet => " /= "
    case PercentSet => " %= "
  }

  // How operators are spelled.
  function Spelled(w: Word): string
    requires w.Op2? || w.Op1? || w.OpSet?
  {
    match w
    case Op2(op) => BinText(op)
    case Op1(pre) => PreText(pre)
    case OpSet(asg) => AsgText(asg)
  }

  // `.len` and `.cap` are properties of strings, arrays and lists.
  function FieldText(f: string): seq<Word> {
    if f == "len" then [W(".size()")] else if f == "cap" then [W(".capacity()")] else [W("."), Id(f)]
  }

  function TextX(e: TExpr): seq<Word> {
    match e
    case TPure(p) => [X(p)]
    case TOp(_, _) => TextOp(e)
    case TLogic(op, l, r) => [W("(")] + TextX(l) + [Op2(op)] + TextX(r) + [W(")")]
    case TAssign(op, x, a) => [Id(x), OpSet(op)] + TextX(a)
    case TIsBad(n) => [W("!"), N("_r_", n), W(".is_ok()")]
    case TErrOf(n) => [N("_r_", n), W(".error()")]
    case TValOf(n) => [N("_r_", n), W(".value()")]
    case TPick(n, a) => [N("_r_", n), W(".is_ok()?"), N("_r_", n), W(".value():(")] + TextX(a) + [W(")")]
    case TNotOk => [W("!_fn_ok")]
    case TStmtExpr(ss, a) => [W("(__extension__({")] + Text(ss) + TextX(a) + [W(";}))")]
  }

  function TextOp(e: TExpr): seq<Word>
    requires e.TOp?
    decreases e, 0
  {
    var o, n := e.o, |e.args|;
    if o.OTuple? then [W("std::make_tuple(")] + Commas(e.args) + [W(")")]
    else if o.OCall? then [Id(o.f), W("(")] + Commas(e.args) + [W(")")]
    else if n == 0 then []
    else if o.OCallX? then TextX(e.args[0]) + [W("(")] + Commas(e.args[1..]) + [W(")")]
    else if n == 1 then
      if o.OUn? then [Op1(o.pre)] + TextX(e.args[0])
      else if o.OField? then TextX(e.args[0]) + FieldText(o.field)
      else if o.OPtr? then TextX(e.args[0]) + [W("->"), Id(o.field)]
      else [W("(*")] + TextX(e.args[0]) + [W(")")]
    else if o.OBin? then [W("(")] + TextX(e.args[0]) + [Op2(o.op)] + TextX(e.args[1]) + [W(")")]
    else if o.OSub? then TextX(e.args[0]) + [W("[")] + TextX(e.args[1]) + [W("]")]
    else if o.OAsg? then TextX(e.args[0]) + [OpSet(o.asg)] + TextX(e.args[1])
    else TextX(e.args[0]) + [W(" == ")] + TextX(e.args[1])
  }

  // What is still to be written of a list, of which something may have been written.
  function Ahead(es: seq<TExpr>, first: bool): seq<Word> {
    if first || es == [] then Commas(es) else [W(", ")] + Commas(es)
  }

  function Commas(es: seq<TExpr>): seq<Word> {
    if es == [] then []
    else if |es| == 1 then TextX(es[0])
    else TextX(es[0]) + [W(", ")] + Commas(es[1..])
  }

  function TextS(s: TStmt): seq<Word> {
    match s
    case TEval(e) => TextX(e) + [W(";")]
    case TPrint(e) => [W("std::cout << ")] + TextX(e) + [W(" << std::endl;")]
    case TDecl(x, e) =>
      [W(if e.TErrOf? then "_OlrnError" else "auto"), W(x), W(" = ")] + TextX(e) + [W(";")]
    case TTemp(n, e) => [W("auto "), N("_r_", n), W(" = (")] + TextX(e) + [W(");")]
    case TIf(c, a, b) => [W("if (")] + TextX(c) + [W(") {")] + Text(a) + [W("}")] + TextE(b, false)
    case TWhile(c, a) => [W("while (")] + TextX(c) + [W(") {")] + Text(a) + [W("}")]
    case TBlock(a) => [W("{")] + Text(a) + [W("}")]
    case TGuard(onError, id, a) =>
      [W("_OlrnDeferGuard "), N(if onError then "_errdefer_" else "_defer_", id), W("([&]() {")] +
      (if onError then [W("if (!_fn_ok) {")] + Text(a) + [W("}")] else Text(a)) + [W("});")]
    case TSetOk => [W("_fn_ok = true;")]
    case TReturn(None, wrapped) => [W(if wrapped then "return _OlrnResult();" else "return;")]
    case TReturn(Some(e), wrapped) =>
      if wrapped then [W("return _OlrnResult(")] + TextX(e) + [W(");")]
      else [W("return ")] + TextX(e) + [W(";")]
    case TBreak => [W("break;")]
    case TContinue => [W("continue;")]
  }

  // What follows the first branch of an if; `first` leaves out the leading `else`.
  function TextE(b: TElse, first: bool): seq<Word> {
    match b
    case TNoElse => []
    case TElseBlock(ss) => [W(" else {")] + Text(ss) + [W("}")]
    case TElseIf(s) => (if first then [] else [W(" else ")]) + TextS(s)
  }

  function Text(ss: seq<TStmt>): seq<Word> {
    if ss == [] then [] else TextS(ss[0]) + Text(ss[1..])
  }

  function TextFn(fn: TFn): seq<Word> {
    [W(fn.name), W("{")] + (if fn.flag then [W("bool _fn_ok = false;")] else []) + Text(fn.body) + [W("}")]
  }

  lemma {:induction false} TextAppend(a: seq<TStmt>, b: seq<TStmt>)
    ensures Text(a + b) == Text(a) + Text(b)
  {
    if a == [] {
      assert a + b == b;
    } else {
      assert (a + b)[1..] == a[1..] + b;
      TextAppend(a[1..], b);
    }
  }

  lemma TextOne(s: TStmt)
    ensures Text([s]) == TextS(s)
  {
    assert [s][1..] == [];
  }

  lemma TextTwo(s: TStmt, t: TStmt)
    ensures Text([s, t]) == TextS(s) + TextS(t)
  {
    assert [s, t] == [s] + [t];
    TextAppend([s], [t]);
    TextOne(s);
    TextOne(t);
  }

  // ---------- trees as the parser builds them ----------

  // `x.len()` is written without the call; it has no tree of its own here.
  predicate IsLenCall(e: Expr) { e.Call? && e.callee.Field? && e.callee.field == "len" && e.args == [] }

  predicate ShapeX(e: Expr) {
    if IsAtom(e) then true
    else if IsLogic(e) || IsOp(e) then
      !IsLenCall(e) && forall i | 0 <= i < |Operands(e)| :: ShapeX(Operands(e)[i])
    else if e.Assign? then ShapeX(e.rhs)
    else
      ShapeX(e.tried) && (e.CatchElse? ==> ShapeX(e.fallback)) && (e.CatchBlock? ==> Shape(e.handler))
  }

  predicate ShapeS(s: Stmt) {
    match s
    case ExprStmt(e) => ShapeX(e)
    case Print(e) => ShapeX(e)
    case VarDecl(_, e) => ShapeX(e)
    case If(e, a, els) => ShapeX(e) && Shape(a) && ShapeE(els)
    case When(e, arms) =>
      // the output is C++ only if the chain starts with a test and ends with the default
      && ShapeX(e) && arms != [] && arms[0].pattern.Some?
      && (forall i | 0 <= i < |arms| - 1 :: arms[i].pattern.Some?)
      && (forall i | 0 <= i < |arms| :: ShapeA(arms[i]))
    case While(e, b) => ShapeX(e) && Shape(b)
    case Defer(b) => Shape(b)
    case ErrDefer(b) => Shape(b)
    case Ret(Some(e)) => ShapeX(e)
    case _ => true
  }

  predicate ShapeE(els: Else) {
    match els
    case NoElse => true
    case ElseBlock(b) => Shape(b)
    case ElseIf(s) => s.If? && ShapeS(s)
  }

  predicate ShapeA(arm: Arm) { (arm.pattern.Some? ==> ShapeX(arm.pattern.value)) && Shape(arm.body) }

  predicate Shape(ss: Block) { forall i | 0 <= i < |ss| :: ShapeS(ss[i]) }

  // ---------- gluing output together ----------

  lemma Glue2(o: seq<Word>, a: seq<Word>, b: seq<Word>)
    ensures (o + a) + b == o + (a + b)
  {}

  lemma Glue3(o: seq<Word>, a: seq<Word>, b: seq<Word>, c: seq<Word>)
    ensures o + a + b + c == o + (a + b + c)
  {}

  lemma Glue4(o: seq<Word>, a: seq<Word>, b: seq<Word>, c: seq<Word>, d: seq<Word>)
    ensures o + a + b + c + d == o + (a + b + c + d)
  {}

  lemma Glue5(o: seq<Word>, a: seq<Word>, b: seq<Word>, c: seq<Word>, d: seq<Word>, e: seq<Word>)
    ensures o + a + b + c + d + e == o + (a + b + c + d + e)
  {
    Glue4(o, a, b, c, d);
    Glue2(o, a + b + c + d, e);
  }

  // open, two statements, result, close
  lemma GlueTwo(o: seq<Word>, a: seq<Word>, b: seq<Word>, c: seq<Word>, d: seq<Word>)
    ensures o + a + b + c + d == o + (a + (b + c) + d)
  {}

  // ---------- the emitter ----------

  function IfBad(n: nat): seq<Word> { [W("if (")] + TextX(TIsBad(n)) + [W(") {")] }

  lemma TextIfBad(n: nat, a: seq<TStmt>)
    ensures TextS(TIf(TIsBad(n), a, TNoElse)) == IfBad(n) + Text(a) + [W("}")]
  {
    assert TextE(TNoElse, false) == [];
  }

  function Propagate(n: nat): TStmt { TIf(TIsBad(n), [TReturn(Some(TErrOf(n)), true)], TNoElse) }

  function Handler(n: nat, x: Option<string>, b: seq<TStmt>): TStmt {
    TIf(TIsBad(n), CatchVar(x, n) + b, TNoElse)
  }

  lemma TextStmtExpr(s: TStmt, t: TStmt, a: TExpr)
    ensures TextX(TStmtExpr([s, t], a)) ==
      [W("(__extension__({")] + (TextS(s) + TextS(t)) + (TextX(a) + [W(";}))")])
  {
    TextTwo(s, t);
    Glue2([W("(__extension__({")] + Text([s, t]), TextX(a), [W(";}))")]);
  }

  lemma TextBlock(s: TStmt, t: TStmt)
    ensures Text([TBlock([s, t])]) == [W("{")] + (TextS(s) + TextS(t)) + [W("}")]
  {
    TextTwo(s, t);
    TextOne(TBlock([s, t]));
  }

  class Codegen {
    var out: seq<Word>
    var tries: nat
    var defers: nat
    var inErrFn: bool
    var hasErrDefer: bool
    const errs: seq<ErrDecl>

    constructor (errs: seq<ErrDecl>)
      ensures out == [] && this.errs == errs && Count() == Cnt(0, 0) && !inErrFn && !hasErrDefer
    {
      out, tries, defers, inErrFn, hasErrDefer := [], 0, 0, false, false;
      this.errs := errs;
    }

    function Config(): Cfg reads this { Cfg(errs, inErrFn, hasErrDefer) }

    function Count(): Cnt reads this { Cnt(tries, defers) }

    method Put(ws: seq<Word>)
      modifies `out
      ensures out == old(out) + ws
    {
      out := out + ws;
    }

    // The operands from the i-th on, with commas between them.
    method EmitArgs(e: Expr, from: nat)
      requires ShapeX(e) && (IsLogic(e) || IsOp(e)) && from <= |Operands(e)|
      modifies `out, `tries, `defers
      ensures var (ts, c1) := LowerOps(Config(), e, from, old(Count()));
        out == old(out) + Commas(ts) && Count() == c1
      decreases e, 0
    {
      ghost var o := out;
      ghost var (all, cEnd) := LowerOps(Config(), e, from, Count());
      var i, first := from, true;
      while i < |Operands(e)|
        invariant from <= i <= |Operands(e)|
        invariant o + Ahead(all, true) == out + Ahead(LowerOps(Config(), e, i, Count()).0, first)
        invariant LowerOps(Config(), e, i, Count()).1 == cEnd
      {
        EmitArg(e, i, first);
        first := false;
        i := i + 1;
      }
      assert Ahead([], first) == [];
      AppNil(out);
    }

    // One round of the loop over arguments.
    method EmitArg(e: Expr, i: nat, first: bool)
      requires ShapeX(e) && (IsLogic(e) || IsOp(e)) && i < |Operands(e)|
      modifies `out, `tries, `defers
      ensures var (ts, c1) := LowerOps(Config(), e, i, old(Count()));
        var (us, c2) := LowerOps(Config(), e, i + 1, Count());
        c1 == c2 && old(out) + Ahead(ts, first) == out + Ahead(us, false)
      decreases Operands(e)[i], 3
    {
      ghost var o, g := out, Config();
      ghost var (t, c1) := LowerExpr(g, Operands(e)[i], Count());
      ghost var us := LowerOps(g, e, i + 1, c1).0;
      var sep := if first then [] else [W(", ")];
      Put(sep);
      EmitExpr(Operands(e)[i]);
      AheadCons(o, sep, t, us, first);
    }

    // The opening of every `try` and `catch`: a fresh temporary holds the result.
    method EmitTemp(n: nat, e: Expr)
      requires ShapeX(e)
      modifies `out, `tries, `defers
      ensures var (t, c1) := LowerExpr(Config(), e, old(Count()));
        out == old(out) + TextS(TTemp(n, t)) && Count() == c1
      decreases e, 3
    {
      ghost var o, t := out, LowerExpr(Config(), e, Count()).0;
      Put([W("auto "), N("_r_", n), W(" = (")]);
      EmitExpr(e);
      Put([W(");")]);
      Glue3(o, [W("auto "), N("_r_", n), W(" = (")], TextX(t), [W(");")]);
    }

    method EmitPropagate(n: nat)
      modifies `out
      ensures out == old(out) + TextS(Propagate(n))
    {
      Put(IfBad(n) + [W("return _OlrnResult("), N("_r_", n), W(".error()"), W(");")] + [W("}")]);
      TextOne(TReturn(Some(TErrOf(n)), true));
      TextIfBad(n, [TReturn(Some(TErrOf(n)), true)]);
    }

    // if (!_r_n.is_ok()) { _OlrnError x = _r_n.error(); body }
    method EmitHandler(n: nat, x: Option<string>, b: Block)
      requires Shape(b)
      modifies `out, `tries, `defers
      ensures var (ts, c1) := LowerList(Config(), b, old(Count()));
        out == old(out) + TextS(Handler(n, x, ts)) && Count() == c1
      decreases b, 3
    {
      ghost var o, ts := out, LowerList(Config(), b, Count()).0;
      Put(IfBad(n));
      ghost var bind := Text(CatchVar(x, n));
      if x.Some? {
        TextOne(TDecl(x.value, TErrOf(n)));
        Put([W("_OlrnError"), W(x.value), W(" = "), N("_r_", n), W(".error()"), W(";")]);
      }
      assert out == o + IfBad(n) + bind;
      EmitStmts(b);
      Put([W("}")]);
      GlueTwo(o, IfBad(n), bind, Text(ts), [W("}")]);
      TextAppend(CatchVar(x, n), ts);
      TextIfBad(n, CatchVar(x, n) + ts);
    }

    method EmitExpr(e: Expr)
      requires ShapeX(e)
      modifies `out, `tries, `defers
      ensures var (t, c1) := LowerExpr(Config(), e, old(Count()));
        out == old(out) + TextX(t) && Count() == c1
      decreases e, 2
    {
      if IsAtom(e) {
        Put([X(e)]);
      } else if e.Binary? {
        EmitBinary(e);
      } else if IsOp(e) {
        if e.Call? || e.Tuple? {
          EmitCall(e);
        } else if e.Subscript? || e.Assign? {
          EmitPair(e);
        } else {
          EmitSingle(e);
        }
      } else if e.Assign? {
        ghost var o := out;
        ghost var t := LowerExpr(Config(), e.rhs, Count()).0;
        Put([Id(e.lhs.name), OpSet(e.asg)]);
        EmitExpr(e.rhs);
        Glue2(o, [Id(e.lhs.name), OpSet(e.asg)], TextX(t));
      } else if e.Try? {
        EmitTry(e);
      } else if e.CatchBlock? {
        EmitCatch(e);
      } else {
        EmitElse(e);
      }
    }

    // Always in parentheses.
    method EmitBinary(e: Expr)
      requires e.Binary? && ShapeX(e)
      modifies `out, `tries, `defers
      ensures var (t, c1) := LowerExpr(Config(), e, old(Count()));
        out == old(out) + TextX(t) && Count() == c1
      decreases e, 1
    {
      ghost var o := out;
      ghost var (l, c1) := LowerExpr(Config(), e.left, Count());
      ghost var r := LowerExpr(Config(), e.right, c1).0;
      assert Operands(e)[0] == e.left && Operands(e)[1] == e.right;
      if IsOp(e) { LowerPair(Config(), e, Count()); }
      Put([W("(")]);
      EmitExpr(e.left);
      Put([Op2(e.op)]);
      EmitExpr(e.right);
      Put([W(")")]);
      Glue5(o, [W("(")], TextX(l), [Op2(e.op)], TextX(r), [W(")")]);
    }

    // A subscript, or an assignment to something that is not a name.
    method EmitPair(e: Expr)
      requires (e.Subscript? || e.Assign?) && IsOp(e) && ShapeX(e)
      modifies `out, `tries, `defers
      ensures var (t, c1) := LowerExpr(Config(), e, old(Count()));
        out == old(out) + TextX(t) && Count() == c1
      decreases e, 1
    {
      ghost var o := out;
      var a, b := if e.Subscript? then e.target else e.lhs, if e.Subscript? then e.index else e.rhs;
      var mid := [if e.Subscript? then W("[") else OpSet(e.asg)];
      ghost var (l, c1) := LowerExpr(Config(), a, Count());
      ghost var r := LowerExpr(Config(), b, c1).0;
      assert Operands(e)[0] == a && Operands(e)[1] == b;
      LowerPair(Config(), e, Count());
      EmitExpr(a);
      Put(mid);
      EmitExpr(b);
      Glue3(o, TextX(l), mid, TextX(r));
      if e.Subscript? {
        Put([W("]")]);
        Glue4(o, TextX(l), mid, TextX(r), [W("]")]);
      }
    }

    // A prefix operator, a field or a dereference.
    method EmitSingle(e: Expr)
      requires (e.Unary? || e.Field? || e.FieldPtr? || e.Deref?) && IsOp(e) && ShapeX(e)
      modifies `out, `tries, `defers
      ensures var (t, c1) := LowerExpr(Config(), e, old(Count()));
        out == old(out) + TextX(t) && Count() == c1
      decreases e, 1
    {
      ghost var o := out;
      var a := if e.Unary? then e.operand else e.target;
      ghost var t := LowerExpr(Config(), a, Count()).0;
      assert Operands(e)[0] == a;
      LowerSingle(Config(), e, Count());
      var open := if e.Unary? then [Op1(e.pre)] else if e.Deref? then [W("(*")] else [];
      var close :=
        if e.Field? then FieldText(e.field) else if e.FieldPtr? then [W("->"), Id(e.field)]
        else if e.Deref? then [W(")")] else [];
      Put(open);
      EmitExpr(a);
      Put(close);
      Glue3(o, open, TextX(t), close);
      if e.Unary? { AppNil(open + TextX(t)); } else { AppNil(TextX(t)); }
    }

    method EmitCall(e: Expr)
      requires (e.Call? || e.Tuple?) && ShapeX(e)
      modifies `out, `tries, `defers
      ensures var (t, c1) := LowerExpr(Config(), e, old(Count()));
        out == old(out) + TextX(t) && Count() == c1
      decreases e, 1
    {
      ghost var o, g := out, Config();
      if e.Call? && !e.callee.Ident? {
        assert Operands(e)[0] == e.callee;
        ghost var (t, c1) := LowerExpr(g, e.callee, Count());
        ghost var ts := LowerOps(g, e, 1, c1).0;
        EmitExpr(e.callee);
        Put([W("(")]);
        EmitArgs(e, 1);
        Put([W(")")]);
        Glue4(o, TextX(t), [W("(")], Commas(ts), [W(")")]);
        ConsTail(t, ts);
      } else {
        ghost var ts := LowerOps(g, e, 0, Count()).0;
        var open := if e.Tuple? then [W("std::make_tuple(")] else [Id(e.callee.name), W("(")];
        Put(open);
        EmitArgs(e, 0);
        Put([W(")")]);
        Glue3(o, open, Commas(ts), [W(")")]);
      }
    }

    method EmitTry(e: Expr)
      requires e.Try? && ShapeX(e)
      modifies `out, `tries, `defers
      ensures var (t, c1) := LowerExpr(Config(), e, old(Count()));
        out == old(out) + TextX(t) && Count() == c1
      decreases e, 1
    {
      var n := tries;
      tries := tries + 1;
      ghost var o, t := out, LowerExpr(Config(), e.tried, Count()).0;
      Put([W("(__extension__({")]);
      EmitTemp(n, e.tried);
      EmitPropagate(n);
      Put([N("_r_", n), W(".value()")] + [W(";}))")]);
      GlueTwo(o, [W("(__extension__({")], TextS(TTemp(n, t)), TextS(Propagate(n)),
              [N("_r_", n), W(".value()")] + [W(";}))")]);
      TextStmtExpr(TTemp(n, t), Propagate(n), TValOf(n));
    }

    method EmitCatch(e: Expr)
      requires e.CatchBlock? && ShapeX(e)
      modifies `out, `tries, `defers
      ensures var (t, c1) := LowerExpr(Config(), e, old(Count()));
        out == old(out) + TextX(t) && Count() == c1
      decreases e, 1
    {
      var n := tries;
      tries := tries + 1;
      ghost var o := out;
      ghost var (t, c1) := LowerExpr(Config(), e.tried, Count());
      ghost var h := Handler(n, e.errVar, LowerList(Config(), e.handler, c1).0);
      Put([W("(__extension__({")]);
      EmitTemp(n, e.tried);
      EmitHandler(n, e.errVar, e.handler);
      Put([N("_r_", n), W(".value()")] + [W(";}))")]);
      GlueTwo(o, [W("(__extension__({")], TextS(TTemp(n, t)), TextS(h),
              [N("_r_", n), W(".value()")] + [W(";}))")]);
      TextStmtExpr(TTemp(n, t), h, TValOf(n));
    }

    method EmitElse(e: Expr)
      requires e.CatchElse? && ShapeX(e)
      modifies `out, `tries, `defers
      ensures var (t, c1) := LowerExpr(Config(), e, old(Count()));
        out == old(out) + TextX(t) && Count() == c1
      decreases e, 1
    {
      var n := tries;
      tries := tries + 1;
      ghost var o := out;
      ghost var (t, c1) := LowerExpr(Config(), e.tried, Count());
      ghost var f := LowerExpr(Config(), e.fallback, c1).0;
      Put([W("(__extension__({")]);
      EmitTemp(n, e.tried);
      EmitPick(n, e.fallback);
      Put([W(";}))")]);
      TextOne(TTemp(n, t));
      Glue4(o, [W("(__extension__({")], TextS(TTemp(n, t)), TextX(TPick(n, f)), [W(";}))")]);
    }

    method EmitPick(n: nat, fallback: Expr)
      requires ShapeX(fallback)
      modifies `out, `tries, `defers
      ensures var (f, c1) := LowerExpr(Config(), fallback, old(Count()));
        out == old(out) + TextX(TPick(n, f)) && Count() == c1
      decreases fallback, 3
    {
      ghost var o, f := out, LowerExpr(Config(), fallback, Count()).0;
      var pick := [N("_r_", n), W(".is_ok()?"), N("_r_", n), W(".value():(")];
      Put(pick);
      EmitExpr(fallback);
      Put([W(")")]);
      Glue3(o, pick, TextX(f), [W(")")]);
    }

    // The loop over the statements of a block that every construct writes out.
    method EmitStmts(b: Block)
      requires Shape(b)
      modifies `out, `tries, `defers
      ensures var (ts, c1) := LowerList(Config(), b, old(Count()));
        out == old(out) + Text(ts) && Count() == c1
      decreases b, 2
    {
      var i := 0;
      ghost var o, g, c := out, Config(), Count();
      while i < |b|
        invariant i <= |b|
        invariant out == o + Text(LowerList(g, b[..i], c).0)
        invariant Count() == LowerList(g, b[..i], c).1
      {
        ghost var c1 := Count();
        EmitStmt(b[i]);
        NextStmt(g, b, i, c, o);
        i := i + 1;
      }
      assert b[..i] == b;
    }

    method EmitStmt(s: Stmt)
      requires ShapeS(s)
      modifies `out, `tries, `defers
      ensures var (ts, c1) := LowerStmt(Config(), s, old(Count()));
        out == old(out) + Text(ts) && Count() == c1
      decreases s, 3
    {
      match s
      case ExprStmt(e) => EmitDrop(e);
      case Print(e) =>
        ghost var o, t := out, LowerExpr(Config(), e, Count()).0;
        Put([W("std::cout << ")]);
        EmitExpr(e);
        Put([W(" << std::endl;")]);
        Glue3(o, [W("std::cout << ")], TextX(t), [W(" << std::endl;")]);
        TextOne(TPrint(t));
      case VarDecl(x, e) =>
        ghost var o, t := out, LowerExpr(Config(), e, Count()).0;
        assert !t.TErrOf?;
        Put([W("auto"), W(x), W(" = ")]);
        EmitExpr(e);
        Put([W(";")]);
        Glue3(o, [W("auto"), W(x), W(" = ")], TextX(t), [W(";")]);
        TextOne(TDecl(x, t));
      case If(_, _, _) => EmitIfChain(s);
      case When(_, _) => EmitWhenChain(s);
      case While(e, b) => EmitWhile(s);
      case Break => Put([W("break;")]); TextOne(TBreak);
      case Continue => Put([W("continue;")]); TextOne(TContinue);
      case Defer(_) => EmitDefer(s);
      case ErrDefer(_) => EmitErrDefer(s);
      case Ret(_) => EmitRet(s);
    }

    method EmitWhile(s: Stmt)
      requires s.While? && ShapeS(s)
      modifies `out, `tries, `defers
      ensures var (ts, c1) := LowerStmt(Config(), s, old(Count()));
        out == old(out) + Text(ts) && Count() == c1
      decreases s, 2
    {
      ghost var o := out;
      ghost var (t, c1) := LowerExpr(Config(), s.cond, Count());
      ghost var a := LowerList(Config(), s.body, c1).0;
      Put([W("while (")]);
      EmitExpr(s.cond);
      Put([W(") {")]);
      EmitStmts(s.body);
      Put([W("}")]);
      Glue5(o, [W("while (")], TextX(t), [W(") {")], Text(a), [W("}")]);
      TextOne(TWhile(t, a));
    }

    // The counter moves on only after the guarded code has been written.
    method EmitDefer(s: Stmt)
      requires s.Defer? && ShapeS(s)
      modifies `out, `tries, `defers
      ensures var (ts, c1) := LowerStmt(Config(), s, old(Count()));
        out == old(out) + Text(ts) && Count() == c1
      decreases s, 2
    {
      ghost var o, a := out, LowerList(Config(), s.deferred, Count()).0;
      var open := [W("_OlrnDeferGuard "), N("_defer_", defers), W("([&]() {")];
      ghost var guard := TGuard(false, defers, a);
      Put(open);
      EmitStmts(s.deferred);
      Put([W("});")]);
      defers := defers + 1;
      Glue3(o, open, Text(a), [W("});")]);
      TextOne(guard);
    }

    method EmitErrDefer(s: Stmt)
      requires s.ErrDefer? && ShapeS(s)
      modifies `out, `tries, `defers
      ensures var (ts, c1) := LowerStmt(Config(), s, old(Count()));
        out == old(out) + Text(ts) && Count() == c1
      decreases s, 2
    {
      ghost var o, a := out, LowerList(Config(), s.deferred, Count()).0;
      var open := [W("_OlrnDeferGuard "), N("_errdefer_", defers), W("([&]() {")];
      ghost var guard := TGuard(true, defers, a);
      Put(open);
      Put([W("if (!_fn_ok) {")]);
      EmitStmts(s.deferred);
      Put([W("}")]);
      Put([W("});")]);
      defers := defers + 1;
      GlueGuard(o, open, [W("if (!_fn_ok) {")], Text(a), [W("}")], [W("});")]);
      TextOne(guard);
    }

    method EmitRet(s: Stmt)
      requires s.Ret? && ShapeS(s)
      modifies `out, `tries, `defers
      ensures var (ts, c1) := LowerStmt(Config(), s, old(Count()));
        out == old(out) + Text(ts) && Count() == c1
      decreases s, 2
    {
      var isErr := inErrFn && s.value.Some? && IsErrReturn(errs, s.value.value);
      ghost var o, g := out, Config();
      ghost var flag := if inErrFn && hasErrDefer && !isErr then [W("_fn_ok = true;")] else [];
      if inErrFn && hasErrDefer && !isErr { Put([W("_fn_ok = true;")]); }
      assert out == o + flag;
      if s.value.None? {
        Put([W(if inErrFn then "return _OlrnResult();" else "return;")]);
        TextReturn(g, TReturn(None, g.fal));
        Glue2(o, flag, TextS(TReturn(None, g.fal)));
      } else if isErr {
        var e := s.value.value;
        Put([W("return _OlrnResult(")] + [X(e)] + [W(");")]);
        TextOne(TReturn(Some(TPure(e)), true));
      } else {
        ghost var t := LowerExpr(g, s.value.value, Count()).0;
        EmitReturned(s.value.value);
        TextReturn(g, TReturn(Some(t), g.fal));
        Glue2(o, flag, TextS(TReturn(Some(t), g.fal)));
      }
    }

    method EmitReturned(e: Expr)
      requires ShapeX(e)
      modifies `out, `tries, `defers
      ensures var (t, c1) := LowerExpr(Config(), e, old(Count()));
        out == old(out) + TextS(TReturn(Some(t), inErrFn)) && Count() == c1
      decreases e, 3
    {
      ghost var o, t := out, LowerExpr(Config(), e, Count()).0;
      var open := [W(if inErrFn then "return _OlrnResult(" else "return ")];
      var close := [W(if inErrFn then ");" else ";")];
      Put(open);
      EmitExpr(e);
      Put(close);
      Glue3(o, open, TextX(t), close);
    }

    method EmitDrop(e: Expr)
      requires ShapeX(e)
      modifies `out, `tries, `defers
      ensures var (ts, c1) := LowerDrop(Config(), e, old(Count()));
        out == old(out) + Text(ts) && Count() == c1
      decreases e, 4
    {
      if e.Try? || e.CatchBlock? || e.CatchElse? {
        EmitDropCaught(e);
      } else {
        ghost var o, t := out, LowerExpr(Config(), e, Count()).0;
        EmitExpr(e);
        Put([W(";")]);
        Glue2(o, TextX(t), [W(";")]);
        TextOne(TEval(t));
      }
    }

    method EmitDropCaught(e: Expr)
      requires (e.Try? || e.CatchBlock? || e.CatchElse?) && ShapeX(e)
      modifies `out, `tries, `defers
      ensures var (ts, c1) := LowerDrop(Config(), e, old(Count()));
        out == old(out) + Text(ts) && Count() == c1
      decreases e, 1
    {
      var n := tries;
      tries := tries + 1;
      ghost var o := out;
      ghost var (t, c1) := LowerExpr(Config(), e.tried, Count());
      Put([W("{")]);
      EmitTemp(n, e.tried);
      if e.Try? {
        EmitPropagate(n);
        Put([W("}")]);
        GlueTwo(o, [W("{")], TextS(TTemp(n, t)), TextS(Propagate(n)), [W("}")]);
        TextBlock(TTemp(n, t), Propagate(n));
      } else if e.CatchBlock? {
        ghost var h := Handler(n, e.errVar, LowerList(Config(), e.handler, c1).0);
        EmitHandler(n, e.errVar, e.handler);
        Put([W("}")]);
        GlueTwo(o, [W("{")], TextS(TTemp(n, t)), TextS(h), [W("}")]);
        TextBlock(TTemp(n, t), h);
      } else {
        Put([W("}")]);
        Glue3(o, [W("{")], TextS(TTemp(n, t)), [W("}")]);
        TextOne(TTemp(n, t));
        TextOne(TBlock([TTemp(n, t)]));
      }
    }

    method EmitIfChain(s: Stmt)
      requires s.If? && ShapeS(s)
      modifies `out, `tries, `defers
      ensures var (ts, c1) := LowerStmt(Config(), s, old(Count()));
        out == old(out) + Text(ts) && Count() == c1
      decreases s, 2
    {
      ghost var o, g := out, Config();
      ghost var (t, c1) := LowerExpr(g, s.cond, Count());
      ghost var (a, c2) := LowerList(g, s.thn, c1);
      ghost var b := LowerElse(g, s.els, c2).0;
      Put([W("if (")]);
      EmitExpr(s.cond);
      Put([W(") {")]);
      EmitStmts(s.thn);
      Put([W("}")]);
      ghost var o1 := out;
      EmitIfTail(s.els);
      Glue5(o, [W("if (")], TextX(t), [W(") {")], Text(a), [W("}")]);
      Glue2(o, [W("if (")] + TextX(t) + [W(") {")] + Text(a) + [W("}")], TextE(b, false));
      TextOne(TIf(t, a, b));
    }

    method EmitIfTail(els: Else)
      requires ShapeE(els)
      modifies `out, `tries, `defers
      ensures var (b, c1) := LowerElse(Config(), els, old(Count()));
        out == old(out) + TextE(b, false) && Count() == c1
      decreases els, 2
    {
      ghost var o, g, c := out, Config(), Count();
      match els {
        case NoElse =>
        case ElseBlock(body) =>
          Put([W(" else {")]);
          EmitStmts(body);
          Put([W("}")]);
          Glue3(o, [W(" else {")], Text(LowerList(g, body, c).0), [W("}")]);
        case ElseIf(s1) =>
          Put([W(" else ")]);
          EmitIfChain(s1);
          ghost var t1 := LowerStmt(g, s1, c).0;
          assert t1 == [t1[0]];
          TextOne(t1[0]);
          Glue2(o, [W(" else ")], TextS(t1[0]));
      }
    }

    method EmitWhenChain(s: Stmt)
      requires s.When? && ShapeS(s)
      modifies `out, `tries, `defers
      ensures var (ts, c1) := LowerStmt(Config(), s, old(Count()));
        out == old(out) + Text(ts) && Count() == c1
      decreases s, 2
    {
      ghost var o, g, c := out, Config(), Count();
      ghost var (all, cEnd) := LowerArms(g, s, 0, c);
      var i, first := 0, true;
      while i < |s.arms|
        invariant i <= |s.arms| && first == (i == 0)
        invariant o + TextE(all, true) == out + TextE(LowerArms(g, s, i, Count()).0, first)
        invariant LowerArms(g, s, i, Count()).1 == cEnd
      {
        EmitArm(s, i, first);
        first := false;
        i := i + 1;
      }
      assert out + [] == out;
      assert all.TElseIf? && o + TextE(all, true) == out;
      TextOne(all.chain);
    }

    // One round of the loop over the arms.
    method EmitArm(s: Stmt, i: nat, first: bool)
      requires s.When? && ShapeS(s) && i < |s.arms| && first == (i == 0)
      modifies `out, `tries, `defers
      ensures var (b, c1) := LowerArms(Config(), s, i, old(Count()));
        var (b2, c2) := LowerArms(Config(), s, i + 1, Count());
        c1 == c2 && old(out) + TextE(b, first) == out + TextE(b2, false)
      decreases s, 1
    {
      ghost var o, g, c := out, Config(), Count();
      var arm := s.arms[i];
      if arm.pattern.None? {
        ghost var a := LowerList(g, arm.body, c).0;
        Put([W(" else {")]);
        EmitStmts(arm.body);
        Put([W("}")]);
        Glue3(o, [W(" else {")], Text(a), [W("}")]);
        assert i + 1 == |s.arms|;
        assert out + [] == out;
      } else {
        ghost var (t, c1) := LowerExpr(g, s.subject, c);
        ghost var (p, c2) := LowerExpr(g, arm.pattern.value, c1);
        ghost var (a, c3) := LowerList(g, arm.body, c2);
        var open := if first then [] else [W(" else ")];
        Put(open);
        Put([W("if (")]);
        EmitExpr(s.subject);
        Put([W(" == ")]);
        EmitExpr(arm.pattern.value);
        Put([W(") {")]);
        EmitStmts(arm.body);
        Put([W("}")]);
        ghost var b := LowerArms(g, s, i + 1, c3).0;
        TextArm(o, first, t, p, a, b);
        assert LowerArms(g, s, i, c).0 == TElseIf(TIf(TOp(OSame, [t, p]), a, b));
      }
    }

    method EmitImplicitReturn(fn: FnDecl)
      requires inErrFn == fn.ret.Fallible?
      modifies `out
      ensures out == old(out) +
        Text(if ImplicitReturn(fn) then SetFlag(Config()) + [TReturn(None, true)] else [])
    {
      if inErrFn && fn.ret.isVoid && (fn.body == [] || !fn.body[|fn.body| - 1].Ret?) {
        if hasErrDefer { Put([W("_fn_ok = true;")]); }
        Put([W("return _OlrnResult();")]);
        TextReturn(Config(), TReturn(None, true));
      }
    }

    method EmitFn(fn: FnDecl)
      requires Shape(fn.body)
      modifies this
      ensures out == old(out) + TextFn(LowerFn(errs, fn))
    {
      ghost var o := out;
      tries, defers := 0, 0;
      inErrFn, hasErrDefer := fn.ret.Fallible?, false;
      ghost var head := [W(fn.name), W("{")];
      ghost var flag := if FnCfg(errs, fn).flag then [W("bool _fn_ok = false;")] else [];
      Put([W(fn.name), W("{")]);
      if inErrFn && HasErrDefer(fn.body) {
        hasErrDefer := true;
        Put([W("bool _fn_ok = false;")]);
      }
      assert out == o + head + flag;
      ghost var g := Config();
      ghost var ts := LowerList(g, fn.body, Cnt(0, 0)).0;
      EmitStmts(fn.body);
      ghost var tail := if ImplicitReturn(fn) then SetFlag(g) + [TReturn(None, true)] else [];
      EmitImplicitReturn(fn);
      Put([W("}")]);
      TextAppend(ts, tail);
      GlueFn(o, head, flag, Text(ts), Text(tail), [W("}")]);
    }
  }

  lemma CommasCons(t: TExpr, ts: seq<TExpr>)
    ensures Commas([t] + ts) == TextX(t) + Ahead(ts, false)
  {
    ConsTail(t, ts);
    if ts == [] {
      AppNil(TextX(t));
    } else {
      Assoc(TextX(t), [W(", ")], Commas(ts));
    }
  }

  lemma AheadCons(o: seq<Word>, sep: seq<Word>, t: TExpr, ts: seq<TExpr>, first: bool)
    requires sep == if first then [] else [W(", ")]
    ensures o + Ahead([t] + ts, first) == o + sep + TextX(t) + Ahead(ts, false)
  {
    var all, text, tail := Commas([t] + ts), TextX(t), Ahead(ts, false);
    CommasCons(t, ts);
    assert Ahead([t] + ts, first) == sep + all by { if first { AppNil(all); } }
    Assoc(o, sep, text + tail);
    Assoc(o + sep, text, tail);
  }

  lemma LowerSingle(g: Cfg, e: Expr, c: Cnt)
    requires IsOp(e) && |Operands(e)| == 1
    ensures var (t, c1) := LowerExpr(g, Operands(e)[0], c);
      LowerExpr(g, e, c) == (TOp(OperOf(e), [t]), c1)
  {
    var (t, c1) := LowerExpr(g, Operands(e)[0], c);
    assert LowerOps(g, e, 1, c1) == ([], c1);
    assert [t] + [] == [t];
  }

  lemma LowerPair(g: Cfg, e: Expr, c: Cnt)
    requires IsOp(e) && |Operands(e)| == 2
    ensures var (t, c1) := LowerExpr(g, Operands(e)[0], c);
      var (u, c2) := LowerExpr(g, Operands(e)[1], c1);
      LowerExpr(g, e, c) == (TOp(OperOf(e), [t, u]), c2)
  {
    var (t, c1) := LowerExpr(g, Operands(e)[0], c);
    var (u, c2) := LowerExpr(g, Operands(e)[1], c1);
    assert LowerOps(g, e, 2, c2) == ([], c2);
    assert LowerOps(g, e, 1, c1) == ([u] + [], c2);
    assert [t] + ([u] + []) == [t, u];
  }

  lemma GlueGuard(o: seq<Word>, a: seq<Word>, b: seq<Word>, c: seq<Word>, d: seq<Word>, e: seq<Word>)
    ensures o + a + b + c + d + e == o + (a + (b + c + d) + e)
  {
    Glue3(o + a, b, c, d);
    Glue3(o, a, b + c + d, e);
  }

  lemma GlueArm(o: seq<Word>, a: seq<Word>, b: seq<Word>, t: seq<Word>, m: seq<Word>, p: seq<Word>, d: seq<Word>,
                e: seq<Word>, f: seq<Word>, z: seq<Word>)
    ensures o + a + b + t + m + p + d + e + f + z == o + (a + (b + (t + m + p) + d + e + f + z))
  {
    Glue3(o + a + b, t, m, p);
    Glue5(o + a, b, t + m + p, d, e, f);
    Glue2(o + a, b + (t + m + p) + d + e + f, z);
    Glue2(o, a, b + (t + m + p) + d + e + f + z);
  }

  lemma TextArm(o: seq<Word>, first: bool, t: TExpr, p: TExpr, a: seq<TStmt>, b: TElse)
    ensures o + TextE(TElseIf(TIf(TOp(OSame, [t, p]), a, b)), first) ==
      o + (if first then [] else [W(" else ")]) + [W("if (")] + TextX(t) + [W(" == ")] + TextX(p) + [W(") {")] +
      Text(a) + [W("}")] + TextE(b, false)
  {
    var open := if first then [] else [W(" else ")];
    GlueArm(o, open, [W("if (")], TextX(t), [W(" == ")], TextX(p), [W(") {")], Text(a), [W("}")], TextE(b, false));
    var chain := TIf(TOp(OSame, [t, p]), a, b);
    assert TextX(TOp(OSame, [t, p])) == TextX(t) + [W(" == ")] + TextX(p);
    assert TextE(TElseIf(chain), first) == open + TextS(chain);
  }

  lemma GlueFn(o: seq<Word>, a: seq<Word>, b: seq<Word>, c: seq<Word>, d: seq<Word>, e: seq<Word>)
    ensures o + a + b + c + d + e == o + (a + b + (c + d) + e)
  {
    Glue2(o + a + b, c, d);
    Glue4(o, a, b, c + d, e);
  }

  lemma NextStmt(g: Cfg, b: Block, i: nat, c: Cnt, o: seq<Word>)
    requires i < |b|
    ensures var (ts, c1) := LowerList(g, b[..i], c);
      var (t, c2) := LowerStmt(g, b[i], c1);
      var (us, c3) := LowerList(g, b[..i + 1], c);
      c3 == c2 && o + Text(ts) + Text(t) == o + Text(us)
  {
    var (ts, c1) := LowerList(g, b[..i], c);
    var (t, c2) := LowerStmt(g, b[i], c1);
    assert b[..i + 1] == b[..i] + [b[i]];
    LowerAppend(g, b[..i], [b[i]], c);
    assert [b[i]][1..] == [];
    assert LowerList(g, [b[i]], c1) == (t, c2) by { assert t + [] == t; }
    TextAppend(ts, t);
    Glue2(o, Text(ts), Text(t));
  }

  lemma TextReturn(g: Cfg, s: TStmt)
    ensures Text(SetFlag(g) + [s]) == (if g.fal && g.flag then [W("_fn_ok = true;")] else []) + TextS(s)
  {
    TextAppend(SetFlag(g), [s]);
    TextOne(s);
    TextOne(TSetOk);
  }
}
