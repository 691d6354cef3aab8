/** A program of the fragment: calls and `try` inside operands, arguments and conditions,
    recursion, and an errdefer. */
module Sample {
  import opened Ast
  import opened Options
  import opened Kinding
  import opened Lowering
  import opened Support

  // fn fact(n: i32) -> i32 { if n == 0 { ret 1 }  ret n * fact(n - 1) }
  const N := Ident("n")
  const N_IS_0 := Binary(EqEq, N, Int(0))
  const N_LESS_1 := Binary(Minus, N, Int(1))
  const FACT_LESS_1 := Call(Ident("fact"), [N_LESS_1])
  const PRODUCT := Binary(Star, N, FACT_LESS_1)
  const FACT := FnDecl("fact", ["n"], Plain(false), [If(N_IS_0, [Ret(Some(Int(1)))], NoElse), Ret(Some(PRODUCT))])

  // fn next(n: i32) -> !i32 {
  //   errdefer @pl(n)
  //   if fact(n) or n == 0 { ret err.Small }
  //   x := fact(1 + try next(n - 1))
  //   ret x
  // }
  const FACT_N := Call(Ident("fact"), [N])
  const EITHER := Binary(Or, FACT_N, N_IS_0)
  const NEXT_LESS_1 := Call(Ident("next"), [N_LESS_1])
  const TRY_NEXT := Try(NEXT_LESS_1)
  const SUM := Binary(Plus, Int(1), TRY_NEXT)
  const FACT_SUM := Call(Ident("fact"), [SUM])
  const SMALL: Block := [Ret(Some(ErrLit("Small")))]
  const CLEANUP: Block := [Print(N)]
  const NEXT_BODY: Block :=
    [ErrDefer(CLEANUP), If(EITHER, SMALL, NoElse), VarDecl("x", FACT_SUM), Ret(Some(Ident("x")))]
  const NEXT := FnDecl("next", ["n"], Fallible(None, false), NEXT_BODY)

  const PROGRAM := Program([FACT, NEXT], [], [])

  lemma Finds()
    ensures FindFn(PROGRAM.fns, "fact") == Some(FACT) && FindFn(PROGRAM.fns, "next") == Some(NEXT)
  {
    assert PROGRAM.fns[0] == FACT && PROGRAM.fns[1..][0] == NEXT;
  }

  // A binary operation on an effect-free left operand and anything without assignments.
  lemma PairOk(x: Place, e: Expr)
    requires e.Binary? && IsOp(e) && KVal(x.rule, e.left) && KVal(x.rule, e.right)
    requires SExpr(x, e.left) && SExpr(x, e.right) && !e.left.Assign? && !e.right.Assign?
    requires Pure(e.left) && NoWrites(e.right) && (CallFree(e.right) || NoGlobals(x.rule.prog.globals, e.left))
    ensures KVal(x.rule, e) && SExpr(x, e) && NoWrites(e) && (Pure(e.right) ==> Pure(e))
  {
    assert Operands(e)[0] == e.left && Operands(e)[1] == e.right;
    PureWritesNothing(e.left);
    assert OneAt(x.rule.prog.globals, e, 1);
  }

  lemma CallOk(x: Place, f: string, a: Expr)
    requires KVal(x.rule, a) && SExpr(x, a) && NoWrites(a)
    ensures var e := Call(Ident(f), [a]);
      KRes(x.rule, e) && SExpr(x, e) && NoWrites(e) && (!FallibleCallee(x.rule.prog, f) ==> KVal(x.rule, e))
  {
    var e := Call(Ident(f), [a]);
    assert Operands(e) == [a];
    assert OneAt(x.rule.prog.globals, e, 0);
  }

  lemma EitherOk(x: Place, e: Expr)
    requires IsLogic(e) && KVal(x.rule, e.left) && KVal(x.rule, e.right)
    requires SExpr(x, e.left) && SExpr(x, e.right) && !e.left.Assign? && !e.right.Assign?
    ensures KVal(x.rule, e) && SExpr(x, e)
  {
    assert Operands(e)[0] == e.left && Operands(e)[1] == e.right;
  }

  lemma TryOk(x: Place, e: Expr)
    requires KRes(x.rule, e) && SExpr(x, e) && NoWrites(e) && x.rule.Fal() && !x.rule.Closed() && !x.dfr
    ensures KVal(x.rule, Try(e)) && SExpr(x, Try(e)) && NoWrites(Try(e))
  {}

  lemma {:induction false} PureWritesNothing(e: Expr)
    requires Pure(e)
    ensures NoWrites(e)
  {
    if !IsAtom(e) {
      forall i | 0 <= i < |Operands(e)| ensures NoWrites(Operands(e)[i]) { PureWritesNothing(Operands(e)[i]); }
    }
  }

  lemma LessOk(x: Place)
    requires x.rule.errVars == {}
    ensures KVal(x.rule, N_LESS_1) && SExpr(x, N_LESS_1) && NoWrites(N_LESS_1)
  {
    PairOk(x, N_LESS_1);
  }

  lemma ZeroOk(x: Place)
    requires x.rule.errVars == {}
    ensures KVal(x.rule, N_IS_0) && SExpr(x, N_IS_0)
  {
    PairOk(x, N_IS_0);
  }

  lemma ProductOk(x: Place)
    requires x.rule.prog == PROGRAM && x.rule.errVars == {}
    ensures KVal(x.rule, PRODUCT) && SExpr(x, PRODUCT)
  {
    Finds();
    LessOk(x);
    CallOk(x, "fact", N_LESS_1);
    PairOk(x, PRODUCT);
  }

  // f(1 + try e)
  lemma NestedOk(x: Place, f: string, e: Expr)
    requires KRes(x.rule, e) && SExpr(x, e) && NoWrites(e) && x.rule.Fal() && !x.rule.Closed() && !x.dfr
    requires !FallibleCallee(x.rule.prog, f)
    ensures var call := Call(Ident(f), [Binary(Plus, Int(1), Try(e))]);
      KVal(x.rule, call) && SExpr(x, call)
  {
    TryOk(x, e);
    PairOk(x, Binary(Plus, Int(1), Try(e)));
    CallOk(x, f, Binary(Plus, Int(1), Try(e)));
  }

  // Statements that obey the discipline and are supported.
  ghost predicate Ok(x: Place, s: Stmt) { KStmt(x.rule, s) && SStmt(x, s) }

  ghost predicate AllOk(x: Place, ss: Block) { KList(x.rule, ss) && SList(x, ss) }

  lemma ConsOk(x: Place, s: Stmt, ss: Block)
    requires Ok(x, s) && AllOk(x, ss) && (s.ErrDefer? ==> Leaves(ss))
    ensures AllOk(x, [s] + ss) && (Leaves(ss) ==> Leaves([s] + ss))
  {
    assert ([s] + ss)[1..] == ss;
    forall i | 0 <= i < |[s] + ss| ensures KStmt(x.rule, ([s] + ss)[i]) {
      if i > 0 { assert ([s] + ss)[i] == ss[i - 1]; }
    }
  }

  lemma OneOk(x: Place, s: Stmt)
    requires Ok(x, s) && !s.ErrDefer?
    ensures AllOk(x, [s]) && (LeavesStmt(s) ==> Leaves([s]))
  {
    assert [s][1..] == [];
  }

  lemma IfOk(x: Place, c: Expr, s: Stmt)
    requires KVal(x.rule, c) && SExpr(x, c) && Ok(x.Inner(), s) && !s.ErrDefer?
    ensures Ok(x, If(c, [s], NoElse))
  {
    OneOk(x.Inner(), s);
  }

  lemma ErrDeferOk(x: Place, s: Stmt)
    requires Ok(x.InDefer(), s) && !s.ErrDefer? && x.top && x.flag && !x.late
    ensures Ok(x, ErrDefer([s]))
  {
    OneOk(x.InDefer(), s);
  }

  lemma RetOk(x: Place, e: Expr)
    requires KVal(x.rule, e) && SExpr(x.InRet(), e) && !x.flag && !x.dfr
    ensures Ok(x, Ret(Some(e)))
  {}

  lemma FactParts(x: Place)
    requires x.rule == Rule(PROGRAM, map[], false, Plain(false), {})
    ensures KVal(x.rule, N_IS_0) && SExpr(x, N_IS_0) && KVal(x.rule, PRODUCT) && SExpr(x.InRet(), PRODUCT)
  {
    ZeroOk(x);
    ProductOk(x.InRet());
  }

  lemma TwoOk(x: Place, s: Stmt, t: Stmt)
    requires Ok(x, s) && Ok(x, t) && !s.ErrDefer? && !t.ErrDefer? && LeavesStmt(t)
    ensures AllOk(x, [s] + [t]) && Leaves([s] + [t])
  {
    OneOk(x, t);
    ConsOk(x, s, [t]);
  }

  lemma FactBody(x: Place)
    requires x == FnPlace(PROGRAM, map[], false, FACT)
    ensures AllOk(x, FACT.body) && Leaves(FACT.body)
  {
    FactParts(x);
    RetOk(x.Inner(), Int(1));
    IfOk(x, N_IS_0, Ret(Some(Int(1))));
    RetOk(x, PRODUCT);
    TwoOk(x, If(N_IS_0, [Ret(Some(Int(1)))], NoElse), Ret(Some(PRODUCT)));
    assert FACT.body == [FACT.body[0]] + [FACT.body[1]];
  }

  lemma FactOk()
    ensures KFn(PROGRAM, map[], false, FACT) && SFn(PROGRAM, map[], false, FACT)
  {
    FactBody(FnPlace(PROGRAM, map[], false, FACT));
    assert FullBody(FACT) == FACT.body;
  }

  lemma EitherPart(x: Place)
    requires x.rule.prog == PROGRAM && x.rule.errVars == {}
    ensures KVal(x.rule, EITHER) && SExpr(x, EITHER)
  {
    Finds();
    ZeroOk(x);
    CallOk(x, "fact", N);
    EitherOk(x, EITHER);
  }

  lemma SumPart(x: Place)
    requires x.rule == Rule(PROGRAM, map[], false, NEXT.ret, {}) && !x.dfr
    ensures KVal(x.rule, FACT_SUM) && SExpr(x, FACT_SUM)
  {
    Finds();
    LessOk(x);
    CallOk(x, "next", N_LESS_1);
    NestedOk(x, "fact", NEXT_LESS_1);
  }

  lemma DeclOk(x: Place, y: string, e: Expr)
    requires KVal(x.rule, e) && SExpr(x, e) && y !in x.rule.errVars
    ensures Ok(x, VarDecl(y, e))
  {}

  lemma NextBody(x: Place)
    requires x.rule == Rule(PROGRAM, map[], false, NEXT.ret, {}) && x.top && x.flag && !x.late && !x.dfr
    ensures AllOk(x, NEXT_BODY) && Leaves(NEXT_BODY)
  {
    EitherPart(x);
    SumPart(x);
    var cleanup, test := ErrDefer(CLEANUP), If(EITHER, SMALL, NoElse);
    var decl, last := VarDecl("x", FACT_SUM), Ret(Some(Ident("x")));
    ErrDeferOk(x, Print(N));
    IfOk(x, EITHER, Ret(Some(ErrLit("Small"))));
    DeclOk(x, "x", FACT_SUM);
    TwoOk(x, decl, last);
    ConsOk(x, test, [decl] + [last]);
    ConsOk(x, cleanup, [test] + ([decl] + [last]));
    assert NEXT_BODY == [cleanup] + ([test] + ([decl] + [last]));
  }

  lemma NextOk()
    ensures KFn(PROGRAM, map[], false, NEXT) && SFn(PROGRAM, map[], false, NEXT)
  {
    assert NEXT_BODY[0].ErrDefer? && HasErrDefer(NEXT.body);
    NextBody(FnPlace(PROGRAM, map[], false, NEXT));
    assert FullBody(NEXT) == NEXT.body;
  }

  /** The theorems about runs speak of this program, whatever the order of operands. */
  lemma SampleIsCovered()
    ensures KProgram(PROGRAM, map[], false) && SProgram(PROGRAM, map[], false)
  {
    FactOk();
    NextOk();
  }
}
