/** What the emitter writes for each construct: src/codegen/codegen.c, `emit_stmt`,
    `emit_expr`, `emit_if_chain`, `emit_when_chain` and `emit_fn`. */
module Lowering {
  import opened Ast
  import opened Options
  import opened Cpp

  // The per-function state that `emit_fn` sets: in_err_fn and has_errdefer.
  datatype Cfg = Cfg(errs: seq<ErrDecl>, fal: bool, flag: bool)

  // try_counter and defer_counter.
  datatype Cnt = Cnt(tries: nat, defers: nat)

  function NextTry(c: Cnt): Cnt { c.(tries := c.tries + 1) }

  function LowerExpr(g: Cfg, e: Expr, c: Cnt): (TExpr, Cnt)
    decreases e, 1
  {
    if IsAtom(e) then (TPure(e), c)
    else if IsLogic(e) then
      var (l, c1) := LowerExpr(g, e.left, c);
      var (r, c2) := LowerExpr(g, e.right, c1);
      (TLogic(e.op, l, r), c2)
    else if IsOp(e) then
      var (ts, c1) := LowerOps(g, e, 0, c);
      (TOp(OperOf(e), ts), c1)
    else if e.Assign? then
      var (t, c1) := LowerExpr(g, e.rhs, c);
      (TAssign(e.asg, e.lhs.name, t), c1)
    else
      var n := c.tries;
      var (t, c1) := LowerExpr(g, e.tried, NextTry(c));
      if e.Try? then
        (TStmtExpr([TTemp(n, t), TIf(TIsBad(n), [TReturn(Some(TErrOf(n)), true)], TNoElse)], TValOf(n)), c1)
      else if e.CatchElse? then
        var (f, c2) := LowerExpr(g, e.fallback, c1);
        (TStmtExpr([TTemp(n, t)], TPick(n, f)), c2)
      else
        var (b, c2) := LowerList(g, e.handler, c1);
        (TStmtExpr([TTemp(n, t), TIf(TIsBad(n), CatchVar(e.errVar, n) + b, TNoElse)], TValOf(n)), c2)
  }

  // The operands from the i-th on are written in the order of the text.
  function LowerOps(g: Cfg, e: Expr, i: nat, c: Cnt): (r: (seq<TExpr>, Cnt))
    requires i <= |Operands(e)|
    ensures |r.0| == |Operands(e)| - i
    decreases e, 0, |Operands(e)| - i
  {
    if i == |Operands(e)| then ([], c)
    else
      var (t, c1) := LowerExpr(g, Operands(e)[i], c);
      var (ts, c2) := LowerOps(g, e, i + 1, c1);
      ([t] + ts, c2)
  }

  function CatchVar(x: Option<string>, n: nat): seq<TStmt> {
    match x
    case None => []
    case Some(name) => [TDecl(name, TErrOf(n))]
  }

  function LowerList(g: Cfg, ss: Block, c: Cnt): (seq<TStmt>, Cnt)
    decreases ss, 0
  {
    if ss == [] then ([], c)
    else
      var (t, c1) := LowerStmt(g, ss[0], c);
      var (ts, c2) := LowerList(g, ss[1..], c1);
      (t + ts, c2)
  }

  function LowerStmt(g: Cfg, s: Stmt, c: Cnt): (seq<TStmt>, Cnt)
    decreases s, 1
  {
    match s
    case ExprStmt(e) => LowerDrop(g, e, c)
    case Print(e) =>
      var (t, c1) := LowerExpr(g, e, c);
      ([TPrint(t)], c1)
    case VarDecl(x, e) =>
      var (t, c1) := LowerExpr(g, e, c);
      ([TDecl(x, t)], c1)
    case If(e, thn, els) =>
      var (t, c1) := LowerExpr(g, e, c);
      var (a, c2) := LowerList(g, thn, c1);
      var (b, c3) := LowerElse(g, els, c2);
      ([TIf(t, a, b)], c3)
    case When(_, _) =>
      var (b, c1) := LowerArms(g, s, 0, c);
      (match b
       case TNoElse => ([], c1)
       case TElseBlock(ts) => ([TBlock(ts)], c1)
       case TElseIf(t) => ([t], c1))
    case While(e, b) =>
      var (t, c1) := LowerExpr(g, e, c);
      var (a, c2) := LowerList(g, b, c1);
      ([TWhile(t, a)], c2)
    case Break => ([TBreak], c)
    case Continue => ([TContinue], c)
    // the counter is bumped after the guard's body has been written
    case Defer(b) =>
      var (a, c1) := LowerList(g, b, c);
      ([TGuard(false, c.defers, a)], c1.(defers := c1.defers + 1))
    case ErrDefer(b) =>
      var (a, c1) := LowerList(g, b, c);
      ([TGuard(true, c.defers, a)], c1.(defers := c1.defers + 1))
    case Ret(None) =>
      (SetFlag(g) + [TReturn(None, g.fal)], c)
    case Ret(Some(e)) =>
      if g.fal && IsErrReturn(g.errs, e) then ([TReturn(Some(TPure(e)), true)], c)
      else
        var (t, c1) := LowerExpr(g, e, c);
        (SetFlag(g) + [TReturn(Some(t), g.fal)], c1)
  }

  function LowerElse(g: Cfg, els: Else, c: Cnt): (TElse, Cnt)
    decreases els, 2
  {
    match els
    case NoElse => (TNoElse, c)
    case ElseBlock(b) =>
      var (ts, c1) := LowerList(g, b, c);
      (TElseBlock(ts), c1)
    case ElseIf(s) =>
      var (ts, c1) := LowerStmt(g, s, c);
      (if |ts| == 1 then TElseIf(ts[0]) else TElseBlock(ts), c1)
  }

  // `_fn_ok = true;` before every return that is not an error by its shape
  function SetFlag(g: Cfg): seq<TStmt> {
    if g.fal && g.flag then [TSetOk] else []
  }

  // An expression as a statement: here a caught expression loses its fallback.
  function LowerDrop(g: Cfg, e: Expr, c: Cnt): (seq<TStmt>, Cnt)
    decreases e, 2
  {
    match e
    case Try(e1) =>
      var n := c.tries;
      var (t, c1) := LowerExpr(g, e1, NextTry(c));
      ([TBlock([TTemp(n, t), TIf(TIsBad(n), [TReturn(Some(TErrOf(n)), true)], TNoElse)])], c1)
    case CatchBlock(e1, x, body) =>
      var n := c.tries;
      var (t, c1) := LowerExpr(g, e1, NextTry(c));
      var (b, c2) := LowerList(g, body, c1);
      ([TBlock([TTemp(n, t), TIf(TIsBad(n), CatchVar(x, n) + b, TNoElse)])], c2)
    case CatchElse(e1, _) =>
      var n := c.tries;
      var (t, c1) := LowerExpr(g, e1, NextTry(c));
      ([TBlock([TTemp(n, t)])], c1)
    case _ =>
      var (t, c1) := LowerExpr(g, e, c);
      ([TEval(t)], c1)
  }

  // An if / else-if chain, from arm i on, that writes the subject in front of each pattern.
  function LowerArms(g: Cfg, s: Stmt, i: nat, c: Cnt): (TElse, Cnt)
    requires s.When? && i <= |s.arms|
    decreases s, 0, |s.arms| - i
  {
    if i == |s.arms| then (TNoElse, c)
    else if s.arms[i].pattern.None? then
      var (a, c1) := LowerList(g, s.arms[i].body, c);
      (TElseBlock(a), c1)
    else
      var (t, c1) := LowerExpr(g, s.subject, c);
      var (p, c2) := LowerExpr(g, s.arms[i].pattern.value, c1);
      var (a, c3) := LowerList(g, s.arms[i].body, c2);
      var (b, c4) := LowerArms(g, s, i + 1, c3);
      (TElseIf(TIf(TOp(OSame, [t, p]), a, b)), c4)
  }

  // ---------- functions ----------

  predicate HasErrDefer(body: Block) {
    exists i | 0 <= i < |body| :: body[i].ErrDefer?
  }

  function FnCfg(errs: seq<ErrDecl>, fn: FnDecl): Cfg {
    Cfg(errs, fn.ret.Fallible?, fn.ret.Fallible? && HasErrDefer(fn.body))
  }

  // A `!void` function that does not end in `ret` returns success.
  predicate ImplicitReturn(fn: FnDecl) {
    fn.ret.Fallible? && fn.ret.isVoid && (fn.body == [] || !fn.body[|fn.body| - 1].Ret?)
  }

  function LowerFn(errs: seq<ErrDecl>, fn: FnDecl): TFn {
    var g := FnCfg(errs, fn);
    var (ts, _) := LowerList(g, fn.body, Cnt(0, 0));
    TFn(fn.name, fn.params, g.flag,
        ts + if ImplicitReturn(fn) then SetFlag(g) + [TReturn(None, true)] else [])
  }

  function LowerFns(errs: seq<ErrDecl>, fns: seq<FnDecl>): seq<TFn> {
    if fns == [] then [] else [LowerFn(errs, fns[0])] + LowerFns(errs, fns[1..])
  }
}
