/** Which functions declare the flag `_fn_ok` that their text uses. */
module Flags {
  import opened Ast
  import opened Options
  import opened Cpp
  import opened Lowering
  import opened Support

  // ---------- errdefers at any depth ----------

  // In expressions they stand in handler blocks.
  predicate HoldsX(e: Expr)
    decreases e, 1
  {
    if IsAtom(e) then false
    else if IsLogic(e) || IsOp(e) then HoldsOps(e, 0)
    else if e.Assign? then HoldsX(e.rhs)
    else HoldsX(e.tried) || (e.CatchElse? && HoldsX(e.fallback)) || (e.CatchBlock? && Holds(e.handler))
  }

  predicate HoldsOps(e: Expr, i: nat)
    requires i <= |Operands(e)|
    decreases e, 0, |Operands(e)| - i
  {
    i < |Operands(e)| && (HoldsX(Operands(e)[i]) || HoldsOps(e, i + 1))
  }

  // The fallback of a caught expression is not written in statement position.
  predicate HoldsDrop(e: Expr)
    decreases e, 2
  {
    if e.CatchElse? then HoldsX(e.tried) else HoldsX(e)
  }

  predicate HoldsS(s: Stmt)
    decreases s, 1
  {
    match s
    case ExprStmt(e) => HoldsDrop(e)
    case Print(e) => HoldsX(e)
    case VarDecl(_, e) => HoldsX(e)
    case If(e, a, els) => HoldsX(e) || Holds(a) || HoldsE(els)
    case When(_, _) => HoldsArms(s, 0)
    case While(e, b) => HoldsX(e) || Holds(b)
    case Defer(b) => Holds(b)
    case ErrDefer(_) => true
    case Ret(Some(e)) => HoldsX(e)
    case _ => false
  }

  predicate HoldsE(els: Else)
    decreases els, 2
  {
    match els
    case NoElse => false
    case ElseBlock(b) => Holds(b)
    case ElseIf(s) => HoldsS(s)
  }

  // Up to the default arm.
  predicate HoldsArms(s: Stmt, i: nat)
    requires s.When? && i <= |s.arms|
    decreases s, 0, |s.arms| - i
  {
    if i == |s.arms| then false
    else if s.arms[i].pattern.None? then Holds(s.arms[i].body)
    else
      HoldsX(s.subject) || HoldsX(s.arms[i].pattern.value) || Holds(s.arms[i].body) || HoldsArms(s, i + 1)
  }

  predicate Holds(ss: Block)
    decreases ss, 0
  {
    ss != [] && (HoldsS(ss[0]) || Holds(ss[1..]))
  }

  // ---------- without a flag, it is used exactly by errdefers ----------

  lemma {:induction false} UsesAppend(a: seq<TStmt>, b: seq<TStmt>)
    ensures Uses(a + b) <==> Uses(a) || Uses(b)
  {
    if a == [] { assert a + b == b; } else {
      assert (a + b)[1..] == a[1..] + b;
      UsesAppend(a[1..], b);
    }
  }

  lemma UsesOne(s: TStmt)
    ensures Uses([s]) <==> UsesS(s)
  {
    assert [s][1..] == [];
  }

  lemma UsesTwo(s: TStmt, t: TStmt)
    ensures Uses([s, t]) <==> UsesS(s) || UsesS(t)
  {
    assert [s, t][1..] == [t];
    UsesOne(t);
  }

  predicate NoFlag(g: Cfg) { !(g.fal && g.flag) }

  lemma {:induction false} LoweredList(g: Cfg, ss: Block, c: Cnt)
    requires NoFlag(g)
    ensures Uses(LowerList(g, ss, c).0) <==> Holds(ss)
    decreases ss, 0
  {
    if ss != [] {
      LoweredStmt(g, ss[0], c);
      var (t, c1) := LowerStmt(g, ss[0], c);
      LoweredList(g, ss[1..], c1);
      UsesAppend(t, LowerList(g, ss[1..], c1).0);
    }
  }

  lemma {:induction false} LoweredX(g: Cfg, e: Expr, c: Cnt)
    requires NoFlag(g)
    ensures UsesX(LowerExpr(g, e, c).0) <==> HoldsX(e)
    decreases e, 1
  {
    if IsAtom(e) {
    } else if IsLogic(e) {
      assert Operands(e)[0] == e.left && Operands(e)[1] == e.right;
      LoweredX(g, e.left, c);
      LoweredX(g, e.right, LowerExpr(g, e.left, c).1);
      assert HoldsOps(e, 1) <==> HoldsX(e.right) by { assert !HoldsOps(e, 2); }
    } else if IsOp(e) {
      LoweredOps(g, e, 0, c);
    } else if e.Assign? {
      LoweredX(g, e.rhs, c);
    } else {
      LoweredControl(g, e, c);
    }
  }

  lemma {:induction false} LoweredOps(g: Cfg, e: Expr, i: nat, c: Cnt)
    requires NoFlag(g) && i <= |Operands(e)|
    ensures UsesArgs(LowerOps(g, e, i, c).0) <==> HoldsOps(e, i)
    decreases e, 0, |Operands(e)| - i
  {
    if i < |Operands(e)| {
      LoweredX(g, Operands(e)[i], c);
      var (t, c1) := LowerExpr(g, Operands(e)[i], c);
      LoweredOps(g, e, i + 1, c1);
      var ts := LowerOps(g, e, i + 1, c1).0;
      assert ([t] + ts)[1..] == ts;
    }
  }

  lemma UsesTry(n: nat, t: TExpr)
    ensures Uses([TTemp(n, t), TIf(TIsBad(n), [TReturn(Some(TErrOf(n)), true)], TNoElse)]) <==> UsesX(t)
  {
    UsesTwo(TTemp(n, t), TIf(TIsBad(n), [TReturn(Some(TErrOf(n)), true)], TNoElse));
    UsesOne(TReturn(Some(TErrOf(n)), true));
  }

  lemma UsesCatch(n: nat, t: TExpr, x: Option<string>, b: seq<TStmt>)
    ensures Uses([TTemp(n, t), TIf(TIsBad(n), CatchVar(x, n) + b, TNoElse)]) <==> UsesX(t) || Uses(b)
  {
    UsesTwo(TTemp(n, t), TIf(TIsBad(n), CatchVar(x, n) + b, TNoElse));
    UsesAppend(CatchVar(x, n), b);
    if x.Some? { UsesOne(TDecl(x.value, TErrOf(n))); }
  }

  lemma {:induction false} LoweredControl(g: Cfg, e: Expr, c: Cnt)
    requires NoFlag(g) && (e.Try? || e.CatchElse? || e.CatchBlock?)
    ensures UsesX(LowerExpr(g, e, c).0) <==> HoldsX(e)
    decreases e, 0
  {
    var n := c.tries;
    LoweredX(g, e.tried, NextTry(c));
    var (t, c1) := LowerExpr(g, e.tried, NextTry(c));
    if e.Try? {
      UsesTry(n, t);
    } else if e.CatchElse? {
      LoweredX(g, e.fallback, c1);
      UsesOne(TTemp(n, t));
    } else {
      LoweredList(g, e.handler, c1);
      UsesCatch(n, t, e.errVar, LowerList(g, e.handler, c1).0);
    }
  }

  lemma {:induction false} LoweredDrop(g: Cfg, e: Expr, c: Cnt)
    requires NoFlag(g)
    ensures Uses(LowerDrop(g, e, c).0) <==> HoldsDrop(e)
    decreases e, 2
  {
    var n := c.tries;
    var low := LowerDrop(g, e, c).0;
    assert low == [low[0]];
    UsesOne(low[0]);
    if e.Try? || e.CatchElse? || e.CatchBlock? {
      LoweredX(g, e.tried, NextTry(c));
      var (t, c1) := LowerExpr(g, e.tried, NextTry(c));
      if e.Try? {
        UsesTry(n, t);
      } else if e.CatchElse? {
        UsesOne(TTemp(n, t));
      } else {
        LoweredList(g, e.handler, c1);
        UsesCatch(n, t, e.errVar, LowerList(g, e.handler, c1).0);
      }
    } else {
      LoweredX(g, e, c);
    }
  }

  lemma {:induction false} LoweredStmt(g: Cfg, s: Stmt, c: Cnt)
    requires NoFlag(g)
    ensures Uses(LowerStmt(g, s, c).0) <==> HoldsS(s)
    decreases s, 1
  {
    var low := LowerStmt(g, s, c).0;
    if |low| == 1 {
      assert low == [low[0]];
      UsesOne(low[0]);
    }
    match s
    case ExprStmt(e) => LoweredDrop(g, e, c);
    case Print(e) => LoweredX(g, e, c);
    case VarDecl(_, e) => LoweredX(g, e, c);
    case If(e, a, els) =>
      LoweredX(g, e, c);
      var c1 := LowerExpr(g, e, c).1;
      LoweredList(g, a, c1);
      LoweredElse(g, els, LowerList(g, a, c1).1);
    case When(_, _) => LoweredArms(g, s, 0, c);
    case While(e, b) =>
      LoweredX(g, e, c);
      LoweredList(g, b, LowerExpr(g, e, c).1);
    case Defer(b) => LoweredList(g, b, c);
    case ErrDefer(_) =>
    case Break =>
    case Continue =>
    case Ret(None) => assert low == [TReturn(None, g.fal)];
    case Ret(Some(e)) =>
      LoweredX(g, e, c);
      if !(g.fal && IsErrReturn(g.errs, e)) { assert low == [TReturn(Some(LowerExpr(g, e, c).0), g.fal)]; }
  }

  lemma {:induction false} LoweredElse(g: Cfg, els: Else, c: Cnt)
    requires NoFlag(g)
    ensures UsesE(LowerElse(g, els, c).0) <==> HoldsE(els)
    decreases els, 2
  {
    match els
    case NoElse =>
    case ElseBlock(b) => LoweredList(g, b, c);
    case ElseIf(s) =>
      LoweredStmt(g, s, c);
      var ts := LowerStmt(g, s, c).0;
      if |ts| == 1 {
        assert ts == [ts[0]];
        UsesOne(ts[0]);
      }
  }

  lemma {:induction false} LoweredArms(g: Cfg, s: Stmt, i: nat, c: Cnt)
    requires NoFlag(g) && s.When? && i <= |s.arms|
    ensures UsesE(LowerArms(g, s, i, c).0) <==> HoldsArms(s, i)
    decreases s, 0, |s.arms| - i
  {
    if i < |s.arms| {
      var arm := s.arms[i];
      if arm.pattern.None? {
        LoweredList(g, arm.body, c);
      } else {
        LoweredX(g, s.subject, c);
        var (t, c1) := LowerExpr(g, s.subject, c);
        LoweredX(g, arm.pattern.value, c1);
        var (p, c2) := LowerExpr(g, arm.pattern.value, c1);
        LoweredList(g, arm.body, c2);
        var (a, c3) := LowerList(g, arm.body, c2);
        LoweredArms(g, s, i + 1, c3);
        UsesPair(t, p);
        assert LowerArms(g, s, i, c).0 == TElseIf(TIf(TOp(OSame, [t, p]), a, LowerArms(g, s, i + 1, c3).0));
        assert UsesX(TOp(OSame, [t, p])) <==> UsesX(t) || UsesX(p);
      }
    }
  }

  lemma UsesPair(t: TExpr, p: TExpr)
    ensures UsesArgs([t, p]) <==> UsesX(t) || UsesX(p)
  {
    assert [t, p][1..] == [p] && [p][1..] == [];
    assert UsesArgs([p]) <==> UsesX(p);
  }

  /** The emitted function uses `_fn_ok` without declaring it if and only if an errdefer
      stands in its body at some depth, but none at the top level of a function that
      returns errors. */
  lemma UndeclaredFlag(errs: seq<ErrDecl>, fn: FnDecl)
    ensures !Compiles(LowerFn(errs, fn)) <==> Holds(fn.body) && !(fn.ret.Fallible? && HasErrDefer(fn.body))
  {
    var g := FnCfg(errs, fn);
    if NoFlag(g) {
      LoweredList(g, fn.body, Cnt(0, 0));
      var tail := if ImplicitReturn(fn) then SetFlag(g) + [TReturn(None, true)] else [];
      UsesAppend(LowerList(g, fn.body, Cnt(0, 0)).0, tail);
      if ImplicitReturn(fn) {
        assert tail == [TReturn(None, true)];
        UsesOne(TReturn(None, true));
      }
    }
  }

  // ---------- supported functions declare what they use ----------

  lemma {:induction false} SupportedX(x: Place, e: Expr)
    requires SExpr(x, e) && !x.flag
    ensures !HoldsX(e)
    decreases e, 1
  {
    if IsAtom(e) {
    } else if IsLogic(e) || IsOp(e) {
      SupportedOps(x, e, 0);
    } else if e.Assign? {
      SupportedX(x, e.rhs);
    } else {
      SupportedX(x, e.tried);
      if e.CatchElse? { SupportedX(x, e.fallback); }
      if e.CatchBlock? { SupportedList(x.Inner(), e.handler); }
    }
  }

  lemma {:induction false} SupportedOps(x: Place, e: Expr, i: nat)
    requires SOps(x, e) && !x.flag && i <= |Operands(e)|
    ensures !HoldsOps(e, i)
    decreases e, 0, |Operands(e)| - i
  {
    if i < |Operands(e)| {
      SupportedX(x, Operands(e)[i]);
      SupportedOps(x, e, i + 1);
    }
  }

  lemma {:induction false} SupportedList(x: Place, ss: Block)
    requires SList(x, ss) && !x.flag
    ensures !Holds(ss)
    decreases ss, 0
  {
    if ss != [] {
      SupportedStmt(x, ss[0]);
      SupportedList(x, ss[1..]);
    }
  }

  lemma {:induction false} SupportedStmt(x: Place, s: Stmt)
    requires SStmt(x, s) && !x.flag
    ensures !HoldsS(s)
    decreases s, 1
  {
    match s
    case ExprStmt(e) => SupportedDrop(x, e);
    case Print(e) => SupportedX(x, e);
    case VarDecl(_, e) => SupportedX(x, e);
    case If(e, a, els) =>
      SupportedX(x, e);
      SupportedList(x.Inner(), a);
      match els {
        case NoElse =>
        case ElseBlock(b) => SupportedList(x.Inner(), b);
        case ElseIf(s1) => SupportedStmt(x.Inner(), s1);
      }
    case When(_, _) => SupportedArms(x, s, 0);
    case While(e, b) =>
      SupportedX(x.InCond(), e);
      SupportedList(x.InLoop(), b);
    case Defer(b) => SupportedList(x.InDefer(), b);
    case Ret(Some(e)) => SupportedX(x.InRet(), e);
    case _ =>
  }

  lemma {:induction false} SupportedDrop(x: Place, e: Expr)
    requires SDrop(x, e) && !x.flag
    ensures !HoldsDrop(e)
    decreases e, 2
  {
    if e.CatchElse? {
      SupportedX(x, e.tried);
    } else if e.CatchBlock? {
      SupportedX(x, e.tried);
      SupportedList(x.Inner(), e.handler);
    } else {
      SupportedX(x, e);
    }
  }

  lemma {:induction false} SupportedArms(x: Place, s: Stmt, i: nat)
    requires s.When? && SStmt(x, s) && !x.flag && i <= |s.arms|
    ensures !HoldsArms(s, i)
    decreases s, 0, |s.arms| - i
  {
    if i < |s.arms| {
      var arm := s.arms[i];
      assert SArm(x, arm);
      SupportedX(x, s.subject);
      SupportedList(x.Inner(), arm.body);
      if arm.pattern.Some? {
        assert STest(x, arm.pattern.value);
        SupportedX(x, arm.pattern.value);
      }
      SupportedArms(x, s, i + 1);
    }
  }

  /** Every supported function declares the flag if it uses it. */
  lemma SupportedCompiles(errs: seq<ErrDecl>, x: Place, fn: FnDecl)
    requires x.flag == FnCfg(errs, fn).flag && SList(x, FullBody(fn))
    ensures Compiles(LowerFn(errs, fn))
  {
    if !x.flag {
      SupportedPrefix(x, fn.body, FullBody(fn)[|fn.body|..]);
      UndeclaredFlag(errs, fn);
    }
  }

  lemma {:induction false} SupportedPrefix(x: Place, a: Block, b: Block)
    requires SList(x, a + b) && !x.flag
    ensures !Holds(a)
    decreases a
  {
    if a != [] {
      assert (a + b)[0] == a[0] && (a + b)[1..] == a[1..] + b;
      SupportedStmt(x, a[0]);
      SupportedPrefix(x, a[1..], b);
    }
  }
}
