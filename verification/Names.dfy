/** The names the emitter invents: `_r_N` temporaries and `_defer_N` guards. */
module Names {
  import opened Ast
  import opened Options
  import opened Seqs
  import opened Cpp
  import opened Lowering

  // ---------- temporaries ----------

  // The numbers of the temporaries an expression or statement declares, in text order.
  function TempsX(e: TExpr): seq<nat> {
    match e
    case TOp(_, args) => TempsArgs(args)
    case TLogic(_, l, r) => TempsX(l) + TempsX(r)
    case TAssign(_, _, a) => TempsX(a)
    case TPick(_, a) => TempsX(a)
    case TStmtExpr(ss, a) => Temps(ss) + TempsX(a)
    case _ => []
  }

  function TempsArgs(es: seq<TExpr>): seq<nat> {
    if es == [] then [] else TempsX(es[0]) + TempsArgs(es[1..])
  }

  function TempsS(s: TStmt): seq<nat> {
    match s
    case TEval(e) => TempsX(e)
    case TPrint(e) => TempsX(e)
    case TDecl(_, e) => TempsX(e)
    case TTemp(n, e) => [n] + TempsX(e)
    case TIf(c, a, b) => TempsX(c) + Temps(a) + TempsE(b)
    case TWhile(c, a) => TempsX(c) + Temps(a)
    case TBlock(a) => Temps(a)
    case TGuard(_, _, a) => Temps(a)
    case TReturn(Some(e), _) => TempsX(e)
    case _ => []
  }

  function TempsE(b: TElse): seq<nat> {
    match b
    case TNoElse => []
    case TElseBlock(ss) => Temps(ss)
    case TElseIf(s) => TempsS(s)
  }

  function Temps(ss: seq<TStmt>): seq<nat> {
    if ss == [] then [] else TempsS(ss[0]) + Temps(ss[1..])
  }

  // lo, lo + 1, ..., hi - 1
  predicate Consecutive(ts: seq<nat>, lo: nat, hi: nat) {
    lo <= hi && |ts| == hi - lo && forall i | 0 <= i < |ts| :: ts[i] == lo + i
  }

  lemma Join(a: seq<nat>, b: seq<nat>, lo: nat, mid: nat, hi: nat)
    requires Consecutive(a, lo, mid) && Consecutive(b, mid, hi)
    ensures Consecutive(a + b, lo, hi)
  {}

  lemma {:induction false} TempsAppend(a: seq<TStmt>, b: seq<TStmt>)
    ensures Temps(a + b) == Temps(a) + Temps(b)
  {
    if a == [] { assert a + b == b; } else {
      assert (a + b)[1..] == a[1..] + b;
      TempsAppend(a[1..], b);
    }
  }

  lemma TempsOne(s: TStmt)
    ensures Temps([s]) == TempsS(s)
  {
    assert [s][1..] == [];
  }

  lemma TempsTwo(s: TStmt, t: TStmt)
    ensures Temps([s, t]) == TempsS(s) + TempsS(t)
  {
    assert [s, t] == [s] + [t];
    TempsAppend([s], [t]);
    TempsOne(s);
    TempsOne(t);
  }

  lemma TempsCatchVar(x: Option<string>, n: nat, b: seq<TStmt>)
    ensures Temps(CatchVar(x, n) + b) == Temps(b)
  {
    TempsAppend(CatchVar(x, n), b);
    if x.Some? { TempsOne(TDecl(x.value, TErrOf(n))); }
  }

  /** The temporaries written for a statement list are exactly the next numbers of the
      counter, in increasing order, each declared once, whatever is nested in what. */
  lemma {:induction false} FreshTemps(g: Cfg, ss: Block, c: Cnt)
    ensures var (ts, c1) := LowerList(g, ss, c);
      Consecutive(Temps(ts), c.tries, c1.tries)
    decreases ss, 0
  {
    if ss != [] {
      FreshStmt(g, ss[0], c);
      var (t, c1) := LowerStmt(g, ss[0], c);
      FreshTemps(g, ss[1..], c1);
      var (ts, c2) := LowerList(g, ss[1..], c1);
      TempsAppend(t, ts);
      Join(Temps(t), Temps(ts), c.tries, c1.tries, c2.tries);
    }
  }

  // _r_n = (t)
  lemma FreshTemp(n: nat, t: TExpr, hi: nat)
    requires Consecutive(TempsX(t), n + 1, hi)
    ensures Consecutive(TempsS(TTemp(n, t)), n, hi)
  {
    Join([n], TempsX(t), n, n + 1, hi);
  }

  lemma FreshTry(n: nat, t: TExpr, hi: nat)
    requires Consecutive(TempsX(t), n + 1, hi)
    ensures Consecutive(Temps([TTemp(n, t), TIf(TIsBad(n), [TReturn(Some(TErrOf(n)), true)], TNoElse)]), n, hi)
  {
    FreshTemp(n, t, hi);
    TempsOne(TReturn(Some(TErrOf(n)), true));
    TempsTwo(TTemp(n, t), TIf(TIsBad(n), [TReturn(Some(TErrOf(n)), true)], TNoElse));
  }

  lemma FreshCatch(n: nat, t: TExpr, x: Option<string>, b: seq<TStmt>, mid: nat, hi: nat)
    requires Consecutive(TempsX(t), n + 1, mid) && Consecutive(Temps(b), mid, hi)
    ensures Consecutive(Temps([TTemp(n, t), TIf(TIsBad(n), CatchVar(x, n) + b, TNoElse)]), n, hi)
  {
    FreshTemp(n, t, mid);
    TempsCatchVar(x, n, b);
    var s := TIf(TIsBad(n), CatchVar(x, n) + b, TNoElse);
    assert TempsS(s) == Temps(b);
    TempsTwo(TTemp(n, t), s);
    Join(TempsS(TTemp(n, t)), Temps(b), n, mid, hi);
  }

  lemma {:induction false} FreshExpr(g: Cfg, e: Expr, c: Cnt)
    ensures var (t, c1) := LowerExpr(g, e, c);
      Consecutive(TempsX(t), c.tries, c1.tries)
    decreases e, 1
  {
    if IsAtom(e) {
    } else if IsLogic(e) {
      FreshExpr(g, e.left, c);
      var (l, c1) := LowerExpr(g, e.left, c);
      FreshExpr(g, e.right, c1);
      var (r, c2) := LowerExpr(g, e.right, c1);
      Join(TempsX(l), TempsX(r), c.tries, c1.tries, c2.tries);
    } else if IsOp(e) {
      FreshOps(g, e, 0, c);
    } else if e.Assign? {
      FreshExpr(g, e.rhs, c);
    } else {
      FreshControl(g, e, c);
    }
  }

  lemma {:induction false} FreshOps(g: Cfg, e: Expr, i: nat, c: Cnt)
    requires i <= |Operands(e)|
    ensures var (ts, c1) := LowerOps(g, e, i, c);
      Consecutive(TempsArgs(ts), c.tries, c1.tries)
    decreases e, 0, |Operands(e)| - i
  {
    if i < |Operands(e)| {
      FreshExpr(g, Operands(e)[i], c);
      var (t, c1) := LowerExpr(g, Operands(e)[i], c);
      FreshOps(g, e, i + 1, c1);
      var (ts, c2) := LowerOps(g, e, i + 1, c1);
      ConsTail(t, ts);
      Join(TempsX(t), TempsArgs(ts), c.tries, c1.tries, c2.tries);
    }
  }

  lemma {:induction false} FreshControl(g: Cfg, e: Expr, c: Cnt)
    requires e.Try? || e.CatchElse? || e.CatchBlock?
    ensures var (t, c1) := LowerExpr(g, e, c);
      Consecutive(TempsX(t), c.tries, c1.tries)
    decreases e, 0
  {
    var n := c.tries;
    FreshExpr(g, e.tried, NextTry(c));
    var (t, c1) := LowerExpr(g, e.tried, NextTry(c));
    if e.Try? {
      FreshTry(n, t, c1.tries);
    } else if e.CatchElse? {
      FreshExpr(g, e.fallback, c1);
      var (f, c2) := LowerExpr(g, e.fallback, c1);
      FreshTemp(n, t, c1.tries);
      TempsOne(TTemp(n, t));
      Join(TempsS(TTemp(n, t)), TempsX(f), n, c1.tries, c2.tries);
    } else {
      FreshTemps(g, e.handler, c1);
      var (ts, c2) := LowerList(g, e.handler, c1);
      FreshCatch(n, t, e.errVar, ts, c1.tries, c2.tries);
    }
  }

  lemma {:induction false} FreshDrop(g: Cfg, e: Expr, c: Cnt)
    ensures var (ts, c1) := LowerDrop(g, e, c);
      Consecutive(Temps(ts), c.tries, c1.tries)
    decreases e, 2
  {
    var n := c.tries;
    var (low, c9) := LowerDrop(g, e, c);
    assert low == [low[0]];
    TempsOne(low[0]);
    match e
    case Try(e1) =>
      FreshExpr(g, e1, NextTry(c));
      FreshTry(n, LowerExpr(g, e1, NextTry(c)).0, c9.tries);
    case CatchElse(e1, _) =>
      FreshExpr(g, e1, NextTry(c));
      var t := LowerExpr(g, e1, NextTry(c)).0;
      FreshTemp(n, t, c9.tries);
      TempsOne(TTemp(n, t));
    case CatchBlock(e1, x, b) =>
      FreshExpr(g, e1, NextTry(c));
      var (t, c1) := LowerExpr(g, e1, NextTry(c));
      FreshTemps(g, b, c1);
      FreshCatch(n, t, x, LowerList(g, b, c1).0, c1.tries, c9.tries);
    case _ => FreshExpr(g, e, c);
  }

  lemma {:induction false} FreshStmt(g: Cfg, s: Stmt, c: Cnt)
    ensures var (ts, c1) := LowerStmt(g, s, c);
      Consecutive(Temps(ts), c.tries, c1.tries)
    decreases s, 1
  {
    match s
    case ExprStmt(e) => FreshDrop(g, e, c);
    case Print(e) =>
      FreshExpr(g, e, c);
      TempsOne(TPrint(LowerExpr(g, e, c).0));
    case VarDecl(x, e) =>
      FreshExpr(g, e, c);
      TempsOne(TDecl(x, LowerExpr(g, e, c).0));
    case If(_, _, _) => FreshIf(g, s, c);
    case When(_, _) =>
      FreshArms(g, s, 0, c);
      match LowerArms(g, s, 0, c).0 {
        case TNoElse =>
        case TElseBlock(ts) => TempsOne(TBlock(ts));
        case TElseIf(t) => TempsOne(t);
      }
    case While(e, b) =>
      FreshExpr(g, e, c);
      var (t, c1) := LowerExpr(g, e, c);
      FreshTemps(g, b, c1);
      var (a, c2) := LowerList(g, b, c1);
      TempsOne(TWhile(t, a));
      Join(TempsX(t), Temps(a), c.tries, c1.tries, c2.tries);
    case Defer(b) =>
      FreshTemps(g, b, c);
      TempsOne(TGuard(false, c.defers, LowerList(g, b, c).0));
    case ErrDefer(b) =>
      FreshTemps(g, b, c);
      TempsOne(TGuard(true, c.defers, LowerList(g, b, c).0));
    case Break => TempsOne(TBreak);
    case Continue => TempsOne(TContinue);
    case Ret(None) => FreshReturn(g, TReturn(None, g.fal));
    case Ret(Some(e)) =>
      if g.fal && IsErrReturn(g.errs, e) {
        TempsOne(TReturn(Some(TPure(e)), true));
      } else {
        FreshExpr(g, e, c);
        FreshReturn(g, TReturn(Some(LowerExpr(g, e, c).0), g.fal));
      }
  }

  lemma FreshReturn(g: Cfg, s: TStmt)
    ensures Temps(SetFlag(g) + [s]) == TempsS(s)
  {
    TempsAppend(SetFlag(g), [s]);
    TempsOne(s);
    TempsOne(TSetOk);
  }

  lemma {:induction false} FreshIf(g: Cfg, s: Stmt, c: Cnt)
    requires s.If?
    ensures var (ts, c1) := LowerStmt(g, s, c);
      Consecutive(Temps(ts), c.tries, c1.tries)
    decreases s, 0
  {
    FreshExpr(g, s.cond, c);
    var (t, c1) := LowerExpr(g, s.cond, c);
    FreshTemps(g, s.thn, c1);
    var (a, c2) := LowerList(g, s.thn, c1);
    FreshElse(g, s.els, c2);
    var (b, c3) := LowerElse(g, s.els, c2);
    TempsOne(TIf(t, a, b));
    Join(TempsX(t), Temps(a), c.tries, c1.tries, c2.tries);
    Join(TempsX(t) + Temps(a), TempsE(b), c.tries, c2.tries, c3.tries);
  }

  lemma {:induction false} FreshElse(g: Cfg, els: Else, c: Cnt)
    ensures var (t, c1) := LowerElse(g, els, c);
      Consecutive(TempsE(t), c.tries, c1.tries)
    decreases els, 2
  {
    match els
    case NoElse =>
    case ElseBlock(b) => FreshTemps(g, b, c);
    case ElseIf(s) =>
      FreshStmt(g, s, c);
      var ts := LowerStmt(g, s, c).0;
      if |ts| == 1 { TempsOne(ts[0]); assert ts == [ts[0]]; }
  }

  lemma {:induction false} FreshArm(g: Cfg, s: Stmt, i: nat, c: Cnt)
    requires s.When? && i < |s.arms| && s.arms[i].pattern.Some?
    ensures var (t, c1) := LowerArms(g, s, i, c);
      Consecutive(TempsE(t), c.tries, c1.tries)
    decreases s, 0, |s.arms| - i, 0
  {
    var arm := s.arms[i];
    FreshExpr(g, s.subject, c);
    var (t, c1) := LowerExpr(g, s.subject, c);
    FreshExpr(g, arm.pattern.value, c1);
    var (p, c2) := LowerExpr(g, arm.pattern.value, c1);
    FreshTemps(g, arm.body, c2);
    var (a, c3) := LowerList(g, arm.body, c2);
    FreshArms(g, s, i + 1, c3);
    var (b, c4) := LowerArms(g, s, i + 1, c3);
    var test := TOp(OSame, [t, p]);
    TempsPair(t, p);
    Join(TempsX(t), TempsX(p), c.tries, c1.tries, c2.tries);
    Join(TempsX(test), Temps(a), c.tries, c2.tries, c3.tries);
    Join(TempsX(test) + Temps(a), TempsE(b), c.tries, c3.tries, c4.tries);
    assert LowerArms(g, s, i, c) == (TElseIf(TIf(test, a, b)), c4);
  }

  lemma TempsPair(t: TExpr, p: TExpr)
    ensures TempsArgs([t, p]) == TempsX(t) + TempsX(p)
  {
    assert [t, p][1..] == [p] && [p][1..] == [];
    assert TempsArgs([p]) == TempsX(p) + [];
  }

  lemma {:induction false} FreshArms(g: Cfg, s: Stmt, i: nat, c: Cnt)
    requires s.When? && i <= |s.arms|
    ensures var (t, c1) := LowerArms(g, s, i, c);
      Consecutive(TempsE(t), c.tries, c1.tries)
    decreases s, 0, |s.arms| - i
  {
    if i < |s.arms| {
      var arm := s.arms[i];
      if arm.pattern.None? {
        FreshTemps(g, arm.body, c);
      } else {
        FreshArm(g, s, i, c);
      }
    }
  }

  /** No two `_r_N` declared anywhere in one emitted function have the same name. */
  lemma TempsDistinct(errs: seq<ErrDecl>, fn: FnDecl)
    ensures var ts := Temps(LowerFn(errs, fn).body);
      forall i, j | 0 <= i < j < |ts| :: ts[i] < ts[j]
  {
    var g := FnCfg(errs, fn);
    var ts := LowerList(g, fn.body, Cnt(0, 0)).0;
    FreshTemps(g, fn.body, Cnt(0, 0));
    var ret := TReturn(None, true);
    if ImplicitReturn(fn) {
      TempsAppend(ts, SetFlag(g) + [ret]);
      FreshReturn(g, ret);
    } else {
      assert ts + [] == ts;
    }
  }

  // ---------- guards ----------

  // The guards declared directly in one C++ scope, in text order.
  function GuardIds(ss: seq<TStmt>): seq<nat> {
    if ss == [] then []
    else (if ss[0].TGuard? then [ss[0].id] else []) + GuardIds(ss[1..])
  }

  predicate Increasing(ids: seq<nat>, lo: nat, hi: nat) {
    && (forall i | 0 <= i < |ids| :: lo <= ids[i] < hi)
    && (forall i, j | 0 <= i < j < |ids| :: ids[i] < ids[j])
  }

  lemma {:induction false} GuardIdsAppend(a: seq<TStmt>, b: seq<TStmt>)
    ensures GuardIds(a + b) == GuardIds(a) + GuardIds(b)
  {
    if a == [] {
      AppNil(b);
      AppNil(GuardIds(b));
    } else {
      AppTail(a, b);
      GuardIdsAppend(a[1..], b);
      Assoc(if a[0].TGuard? then [a[0].id] else [], GuardIds(a[1..]), GuardIds(b));
    }
  }

  /** Guards in one C++ scope have increasing numbers, although a guard takes its number
      before, and the counter moves only after, the guards inside it are written. */
  lemma {:induction false} GuardsOfScope(g: Cfg, ss: Block, c: Cnt)
    ensures var (ts, c1) := LowerList(g, ss, c);
      c.defers <= c1.defers && Increasing(GuardIds(ts), c.defers, c1.defers)
    decreases ss, 0
  {
    if ss != [] {
      GuardsOfStmt(g, ss[0], c);
      var (t, c1) := LowerStmt(g, ss[0], c);
      GuardsOfScope(g, ss[1..], c1);
      GuardIdsAppend(t, LowerList(g, ss[1..], c1).0);
    }
  }

  lemma {:induction false} GuardsOfStmt(g: Cfg, s: Stmt, c: Cnt)
    ensures var (ts, c1) := LowerStmt(g, s, c);
      c.defers <= c1.defers && Increasing(GuardIds(ts), c.defers, c1.defers)
    decreases s, 1
  {
    var low := LowerStmt(g, s, c).0;
    match s
    case ExprStmt(e) => GuardsOfDrop(g, e, c);
    case Print(e) => GuardsOfExpr(g, e, c);
    case VarDecl(_, e) => GuardsOfExpr(g, e, c);
    case If(e, thn, els) =>
      GuardsOfExpr(g, e, c);
      var c1 := LowerExpr(g, e, c).1;
      GuardsOfScope(g, thn, c1);
      GuardsOfElse(g, els, LowerList(g, thn, c1).1);
      assert GuardIds(low) == [];
    case When(_, _) =>
      GuardsOfArms(g, s, 0, c);
      assert GuardIds(low) == [];
    case While(e, b) =>
      GuardsOfExpr(g, e, c);
      GuardsOfScope(g, b, LowerExpr(g, e, c).1);
    case Defer(b) => GuardsOfScope(g, b, c);
    case ErrDefer(b) => GuardsOfScope(g, b, c);
    case Break =>
    case Continue =>
    case Ret(v) =>
      if v.Some? { GuardsOfExpr(g, v.value, c); }
      NoGuards(low);
  }

  lemma {:induction false} NoGuards(ss: seq<TStmt>)
    requires forall i | 0 <= i < |ss| :: !ss[i].TGuard?
    ensures GuardIds(ss) == []
  {
    if ss != [] { NoGuards(ss[1..]); }
  }

  lemma {:induction false} GuardsOfExpr(g: Cfg, e: Expr, c: Cnt)
    ensures c.defers <= LowerExpr(g, e, c).1.defers
    decreases e, 1
  {
    if IsAtom(e) {
    } else if IsLogic(e) {
      GuardsOfExpr(g, e.left, c);
      GuardsOfExpr(g, e.right, LowerExpr(g, e.left, c).1);
    } else if IsOp(e) {
      GuardsOfOps(g, e, 0, c);
    } else if e.Assign? {
      GuardsOfExpr(g, e.rhs, c);
    } else {
      GuardsOfExpr(g, e.tried, NextTry(c));
      var c1 := LowerExpr(g, e.tried, NextTry(c)).1;
      if e.CatchElse? {
        GuardsOfExpr(g, e.fallback, c1);
      } else if e.CatchBlock? {
        GuardsOfScope(g, e.handler, c1);
      }
    }
  }

  lemma {:induction false} GuardsOfOps(g: Cfg, e: Expr, i: nat, c: Cnt)
    requires i <= |Operands(e)|
    ensures c.defers <= LowerOps(g, e, i, c).1.defers
    decreases e, 0, |Operands(e)| - i
  {
    if i < |Operands(e)| {
      GuardsOfExpr(g, Operands(e)[i], c);
      GuardsOfOps(g, e, i + 1, LowerExpr(g, Operands(e)[i], c).1);
    }
  }

  lemma {:induction false} GuardsOfDrop(g: Cfg, e: Expr, c: Cnt)
    ensures c.defers <= LowerDrop(g, e, c).1.defers && GuardIds(LowerDrop(g, e, c).0) == []
    decreases e, 2
  {
    match e
    case Try(e1) => GuardsOfExpr(g, e1, NextTry(c));
    case CatchElse(e1, _) => GuardsOfExpr(g, e1, NextTry(c));
    case CatchBlock(e1, _, b) =>
      GuardsOfExpr(g, e1, NextTry(c));
      GuardsOfScope(g, b, LowerExpr(g, e1, NextTry(c)).1);
    case _ => GuardsOfExpr(g, e, c);
  }

  lemma {:induction false} GuardsOfElse(g: Cfg, els: Else, c: Cnt)
    ensures c.defers <= LowerElse(g, els, c).1.defers
    decreases els, 2
  {
    match els
    case NoElse =>
    case ElseBlock(b) => GuardsOfScope(g, b, c);
    case ElseIf(s) => GuardsOfStmt(g, s, c);
  }

  lemma {:induction false} GuardsOfArms(g: Cfg, s: Stmt, i: nat, c: Cnt)
    requires s.When? && i <= |s.arms|
    ensures c.defers <= LowerArms(g, s, i, c).1.defers
    ensures LowerArms(g, s, i, c).0.TElseIf? ==> LowerArms(g, s, i, c).0.chain.TIf?
    decreases s, 0, |s.arms| - i
  {
    if i < |s.arms| {
      var arm := s.arms[i];
      if arm.pattern.None? {
        GuardsOfScope(g, arm.body, c);
      } else {
        GuardsOfExpr(g, s.subject, c);
        var c1 := LowerExpr(g, s.subject, c).1;
        GuardsOfExpr(g, arm.pattern.value, c1);
        var c2 := LowerExpr(g, arm.pattern.value, c1).1;
        GuardsOfScope(g, arm.body, c2);
        GuardsOfArms(g, s, i + 1, LowerList(g, arm.body, c2).1);
      }
    }
  }
}
