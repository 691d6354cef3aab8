/** Programs at which source and emitted code part. */
module Cases {
  import opened Ast
  import opened Options
  import opened Semantics
  import opened Kinding
  import opened Cpp
  import opened Lowering
  import opened Support
  import opened Flags
  import opened Ordering
  import opened Preservation
  import opened Gaps
  import Sample

  // ---------- the functions ----------

  // fn boom() -> !i32 { ret err.Boom }
  const BOOM := FnDecl("boom", [], Fallible(None, false), [Ret(Some(ErrLit("Boom")))])
  const CALL_BOOM := Call(Ident("boom"), [])

  // fn p() -> i32 { @pl(1)  ret 1 }      fn q() -> i32 { @pl(2)  ret 2 }
  function Printer(f: string, m: int): FnDecl {
    FnDecl(f, [], Plain(false), [Print(Int(m)), Ret(Some(Int(m)))])
  }

  // counter := 0
  // fn seven() -> i32 { counter = 7  ret 1 }
  const SET_7 := Assign(SetTo, Ident("counter"), Int(7))
  const SEVEN := FnDecl("seven", [], Plain(false), [ExprStmt(SET_7), Ret(Some(Int(1)))])

  const CASES := Program([BOOM, Printer("p", 1), Printer("q", 2), SEVEN], [], ["counter"])

  lemma Finds()
    ensures FindFn(CASES.fns, "boom") == Some(BOOM) && FindFn(CASES.fns, "seven") == Some(SEVEN)
    ensures FindFn(CASES.fns, "p") == Some(Printer("p", 1)) && FindFn(CASES.fns, "q") == Some(Printer("q", 2))
  {
    var fns := CASES.fns;
    assert fns[1..][0] == Printer("p", 1) && fns[1..][1..][0] == Printer("q", 2) && fns[1..][1..][1..][0] == SEVEN;
    assert FindFn(fns[1..][1..][1..], "seven") == Some(SEVEN);
    assert FindFn(fns[1..][1..], "seven") == Some(SEVEN) && FindFn(fns[1..][1..], "q") == Some(Printer("q", 2));
  }

  lemma RetNumber(x: Place, m: int)
    requires !x.flag && !x.dfr
    ensures Sample.Ok(x, Ret(Some(Int(m)))) && Sample.AllOk(x, [Ret(Some(Int(m)))]) && Leaves([Ret(Some(Int(m)))])
  {
    Sample.RetOk(x, Int(m));
    Sample.OneOk(x, Ret(Some(Int(m))));
  }

  // A function of one statement and a return.
  lemma TwoStmts(p: Program, ltr: bool, fn: FnDecl, s: Stmt, m: int)
    requires fn.body == [s] + [Ret(Some(Int(m)))] && fn.ret == Plain(false) && fn.params == []
    requires Sample.Ok(FnPlace(p, map[], ltr, fn), s) && !s.ErrDefer?
    ensures KFn(p, map[], false, fn) && SFn(p, map[], ltr, fn)
  {
    var x := FnPlace(p, map[], ltr, fn);
    RetNumber(x, m);
    Sample.ConsOk(x, s, [Ret(Some(Int(m)))]);
    assert FullBody(fn) == fn.body;
  }

  lemma PrinterOk(p: Program, ltr: bool, f: string, m: int)
    ensures KFn(p, map[], false, Printer(f, m)) && SFn(p, map[], ltr, Printer(f, m))
  {
    TwoStmts(p, ltr, Printer(f, m), Print(Int(m)), m);
  }

  lemma SevenOk(p: Program, ltr: bool)
    ensures KFn(p, map[], false, SEVEN) && SFn(p, map[], ltr, SEVEN)
  {
    var x := FnPlace(p, map[], ltr, SEVEN);
    assert KVal(x.rule, Int(7)) && KVal(x.rule, SET_7) && SExpr(x, SET_7);
    TwoStmts(p, ltr, SEVEN, ExprStmt(SET_7), 1);
  }

  lemma BoomOk(p: Program, ltr: bool)
    ensures KFn(p, map[], false, BOOM) && SFn(p, map[], ltr, BOOM)
  {
    var x := FnPlace(p, map[], ltr, BOOM);
    Sample.OneOk(x, Ret(Some(ErrLit("Boom"))));
    assert FullBody(BOOM) == BOOM.body;
  }

  lemma CasesOk(ltr: bool)
    ensures KProgram(CASES, map[], false) && SProgram(CASES, map[], ltr)
  {
    BoomOk(CASES, ltr);
    PrinterOk(CASES, ltr, "p", 1);
    PrinterOk(CASES, ltr, "q", 2);
    SevenOk(CASES, ltr);
  }

  // ---------- their runs ----------

  lemma CallRuns(w: World, k: nat, fal: bool, fn: FnDecl, v: Val, st1: State, env: Env, st: State)
    requires FindFn(w.prog.fns, fn.name) == Some(fn) && fn.params == [] && k > 0
    requires ExecList(w, k - 1, fn.ret.Fallible?, fn.body, GlobalEnv(w.prog.globals), st) == Res(Leave(v), st1, Unit)
    ensures EvalX(w, k, fal, Call(Ident(fn.name), []), env, st) == Got(v, st1)
  {
    var e := Call(Ident(fn.name), []);
    assert EvalOps(w, k, fal, e, 0, env, st) == GotAll([], st);
    assert CallFn(w, k - 1, fn, [], st) == Got(v, st1);
  }

  lemma RetRuns(w: World, k: nat, m: int, env: Env, st: State)
    ensures ExecList(w, k, false, [Ret(Some(Int(m)))], env, st) == Res(Leave(Num(m)), st, Unit)
  {
    assert EvalX(w, k, false, Int(m), env, st) == Got(Num(m), st);
    assert Exec(w, k, false, Ret(Some(Int(m))), env, st) == Res(Leave(Num(m)), st, Unit);
  }

  lemma PrinterRuns(w: World, k: nat, fal: bool, f: string, m: int, env: Env, st: State)
    requires FindFn(w.prog.fns, f) == Some(Printer(f, m)) && k > 0
    ensures EvalX(w, k, fal, Call(Ident(f), []), env, st) == Got(Num(m), Emit(st, Num(m)))
  {
    var body, genv, st1 := Printer(f, m).body, GlobalEnv(w.prog.globals), Emit(st, Num(m));
    assert body[1..] == [Ret(Some(Int(m)))];
    assert EvalX(w, k - 1, false, Int(m), genv, st) == Got(Num(m), st);
    assert Exec(w, k - 1, false, body[0], genv, st) == Res(Normal, st1, Unit);
    RetRuns(w, k - 1, m, genv, st1);
    CallRuns(w, k, fal, Printer(f, m), Num(m), st1, env, st);
  }

  lemma SevenRuns(w: World, k: nat, fal: bool, env: Env, st: State)
    requires w.prog == CASES && k > 0 && st.store != []
    ensures EvalX(w, k, fal, Call(Ident("seven"), []), env, st) == Got(Num(1), st.(store := st.store[0 := Num(7)]))
  {
    Finds();
    var body, genv, st1 := SEVEN.body, GlobalEnv(["counter"]), st.(store := st.store[0 := Num(7)]);
    assert genv == map["counter" := 0] by { assert ["counter"][..0] == []; }
    assert body[1..] == [Ret(Some(Int(1)))];
    assert EvalX(w, k - 1, false, Int(7), genv, st) == Got(Num(7), st);
    assert EvalX(w, k - 1, false, SET_7, genv, st) == Got(Num(7), st1);
    assert Exec(w, k - 1, false, body[0], genv, st) == Res(Normal, st1, Num(7));
    RetRuns(w, k - 1, 1, genv, st1);
    CallRuns(w, k, fal, SEVEN, Num(1), st1, env, st);
  }

  lemma BoomFails(w: World, k: nat, env: Env, st: State)
    requires w.prog == CASES && k > 0
    ensures EvalX(w, k, true, CALL_BOOM, env, st) == Got(Bad(AdHoc("Boom")), st)
  {
    Finds();
    var genv := GlobalEnv(w.prog.globals);
    assert EvalX(w, k - 1, true, ErrLit("Boom"), genv, st) == Got(Err(AdHoc("Boom")), st);
    assert Exec(w, k - 1, true, BOOM.body[0], genv, st) == Res(Leave(Bad(AdHoc("Boom"))), st, Unit);
    CallRuns(w, k, true, BOOM, Bad(AdHoc("Boom")), st, env, st);
  }

  // ---------- the order of operands ----------

  /** p() + q(): the source prints 1 and 2; from right to left it is 2 and 1. */
  lemma OrderShows(w: World, k: nat, env: Env, st: State)
    requires w.prog == CASES && k > 0
    ensures var e := Binary(Plus, Call(Ident("p"), []), Call(Ident("q"), []));
      && EvalX(w, k, false, e, env, st).st == Emit(Emit(st, Num(1)), Num(2))
      && Backwards(w, k, false, e, env, st).st == Emit(Emit(st, Num(2)), Num(1))
      && Emit(Emit(st, Num(1)), Num(2)) != Emit(Emit(st, Num(2)), Num(1))
  {
    Finds();
    var e := Binary(Plus, Call(Ident("p"), []), Call(Ident("q"), []));
    PrinterRuns(w, k, false, "p", 1, env, st);
    PrinterRuns(w, k, false, "q", 2, env, Emit(st, Num(1)));
    PrinterRuns(w, k, false, "q", 2, env, st);
    PrinterRuns(w, k, false, "p", 1, env, Emit(st, Num(2)));
    BothOrders(w, k, false, e, Num(1), Num(2), Num(1), Num(2), Emit(st, Num(1)), Emit(Emit(st, Num(1)), Num(2)),
               Emit(st, Num(2)), Emit(Emit(st, Num(2)), Num(1)), env, st);
    var n := |st.trace|;
    assert Emit(Emit(st, Num(1)), Num(2)).trace[n] == Num(1);
    assert Emit(Emit(st, Num(2)), Num(1)).trace[n] == Num(2);
  }

  // Two operands: a and b from left to right, d and c from right to left.
  lemma BothOrders(w: World, k: nat, fal: bool, e: Expr, a: Val, b: Val, c: Val, d: Val,
                   sa: State, sb: State, sd: State, sc: State, env: Env, st: State)
    requires e.Binary? && IsOp(e)
    requires EvalX(w, k, fal, e.left, env, st) == Got(a, sa) && EvalX(w, k, fal, e.right, env, sa) == Got(b, sb)
    requires EvalX(w, k, fal, e.right, env, st) == Got(d, sd) && EvalX(w, k, fal, e.left, env, sd) == Got(c, sc)
    ensures EvalX(w, k, fal, e, env, st) == Got(Apply(w, OBin(e.op), [a, b]), sb)
    ensures Backwards(w, k, fal, e, env, st) == Got(Apply(w, OBin(e.op), [c, d]), sc)
  {
    assert Operands(e)[0] == e.left && Operands(e)[1] == e.right;
    assert EvalOps(w, k, fal, e, 2, env, sb) == GotAll([], sb);
    assert EvalOps(w, k, fal, e, 1, env, sa) == GotAll([b] + [], sb);
    assert [a] + ([b] + []) == [a, b];
    assert EvalBack(w, k, fal, e, 0, env, sc) == GotAll([], sc);
    assert EvalBack(w, k, fal, e, 1, env, sd) == GotAll([] + [c], sc);
    assert ([] + [c]) + [d] == [c, d];
  }

  /** counter + seven(), where seven sets the top-level variable: 0 + 1 from left to right
      and 7 + 1 from right to left, so it is not in the fragment for every order. */
  lemma GlobalShows(w: World, k: nat, st: State)
    requires w.prog == CASES && k > 0 && st.store == [Num(0)]
    requires w.op(OBin(Plus), [0, 1]) == 1 && w.op(OBin(Plus), [7, 1]) == 8
    ensures var e := Binary(Plus, Ident("counter"), Call(Ident("seven"), []));
      && EvalX(w, k, false, e, GlobalEnv(CASES.globals), st) == Got(Num(1), st.(store := [Num(7)]))
      && Backwards(w, k, false, e, GlobalEnv(CASES.globals), st) == Got(Num(8), st.(store := [Num(7)]))
      && !Orderly(CASES.globals, e)
  {
    var e := Binary(Plus, Ident("counter"), Call(Ident("seven"), []));
    var env, st1 := GlobalEnv(CASES.globals), st.(store := [Num(7)]);
    assert env == map["counter" := 0] by { assert ["counter"][..0] == []; }
    SevenRuns(w, k, false, env, st);
    BothOrders(w, k, false, e, Num(0), Num(1), Num(7), Num(1), st, st1, st1, st1, env, st);
    Sums(w, 0, 1);
    Sums(w, 7, 1);
    assert Operands(e)[0] == e.left && Operands(e)[1] == e.right;
    assert !Pure(e.right) && !CallFree(e.right) && !NoGlobals(CASES.globals, e.left);
  }

  lemma Sums(w: World, a: int, b: int)
    ensures Apply(w, OBin(Plus), [Num(a), Num(b)]) == Num(w.op(OBin(Plus), [a, b]))
  {
    assert [Num(a), Num(b)][1..] == [Num(b)] && [Num(b)][1..] == [];
    assert Ints([Num(b)]) == [b] + [];
    assert Ints([Num(a), Num(b)]) == [a, b];
  }

  // ---------- errdefer ----------

  // The body of a function in CASES that returns errors and has an errdefer.
  ghost predicate Fresh(w: World, x: Place, st: State, tst: TState) {
    && w.prog == CASES && Started(CASES, st.store) && tst == TState(st, false)
    && x.rule.ret.Fallible? && x.rule.ret.set_.None?
    && x == Place(Rule(CASES, map[], false, x.rule.ret, {}), true, false, false, true, false, x.ltr)
  }

  const PRINT_ONE: Block := [Print(Int(1))]

  // Printing makes a difference, and is supported wherever cleanup may stand.
  lemma PrintOneShows(w: World, x: Place, k: nat, fal: bool, env: Env, st: State)
    ensures KList(x.rule, PRINT_ONE) && SList(x.InDefer(), PRINT_ONE)
    ensures !Idle(w, k, fal, PRINT_ONE, env, st)
  {
    var p := Print(Int(1));
    assert PRINT_ONE == [p] && PRINT_ONE[1..] == [];
    assert KStmt(x.rule, p) && SStmt(x.InDefer(), p) && SList(x.InDefer(), PRINT_ONE[1..]);
    assert EvalX(w, k, fal, Int(1), env, st) == Got(Num(1), st);
    assert Exec(w, k, fal, p, env, st) == Res(Normal, Emit(st, Num(1)), Unit);
    assert |Emit(st, Num(1)).trace| == |st.trace| + 1;
  }

  lemma BoomSupported(x: Place)
    ensures SExpr(x, CALL_BOOM) && KRes(x.rule, CALL_BOOM)
  {
    assert Operands(CALL_BOOM) == [];
    assert OneAt(x.rule.prog.globals, CALL_BOOM, 0);
  }

  lemma TryBoom(w: World, x: Place, k: nat, st: State, tst: TState)
    requires Fresh(w, x, st, tst) && k > 0
    ensures Returns(x, Some(Try(CALL_BOOM)))
    ensures Exec(w, k, true, Ret(Some(Try(CALL_BOOM))), map[], st) == Res(Leave(Bad(AdHoc("Boom"))), st, Unit)
  {
    BoomFails(w, k, map[], st);
    BoomSupported(x.InRet());
    assert KVal(x.rule, Try(CALL_BOOM));
    assert EvalX(w, k, true, Try(CALL_BOOM), map[], st) == Gone(Leave(Bad(AdHoc("Boom"))), st);
  }

  lemma FreshSetting(w: World, pick: Pick, x: Place, st: State, tst: TState)
    requires Fresh(w, x, st, tst) && (x.ltr ==> pick == LEFT_TO_RIGHT)
    ensures Ctx(w, LowerWorld(w, pick), x) && Related(x, map[], TEnv(map[], map[]), st, tst)
  {
    CasesOk(x.ltr);
  }

  // An error return that is not written as one, with cleanup that shows.
  lemma Loses(w: World, tw: TWorld, k: nat, x: Place, b: Block, e: Expr, c: Cnt, st: State, tst: TState)
    requires Ctx(w, tw, x) && Related(x, map[], TEnv(map[], map[]), st, tst) && !tst.ok && k > 0
    requires Returns(x, Some(e)) && KList(x.rule, b) && SList(x.InDefer(), b)
    requires var q := Exec(w, k, true, Ret(Some(e)), map[], st);
      IsErrorExit(q.out) && !IsErrReturn(w.prog.errs, e) && !Idle(w, k - 1, true, b, map[], q.st)
    ensures !SameEnd(ExecList(w, k, true, [ErrDefer(b), Ret(Some(e))], map[], st),
                     TScope(tw, k, LowerList(CfgOf(x), [ErrDefer(b), Ret(Some(e))], c).0, TEnv(map[], map[]), tst))
  {
    ErrDeferAtRet(w, tw, k, x, b, e, c, map[], TEnv(map[], map[]), st, tst);
  }

  /** { errdefer @pl(1)  ret try boom() }: the source prints 1, the emitted code nothing. */
  lemma RetTryLosesCleanup(w: World, pick: Pick, x: Place, k: nat, c: Cnt, st: State, tst: TState)
    requires Fresh(w, x, st, tst) && k > 0 && (x.ltr ==> pick == LEFT_TO_RIGHT)
    ensures var body := [ErrDefer(PRINT_ONE), Ret(Some(Try(CALL_BOOM)))];
      !SameEnd(ExecList(w, k, true, body, map[], st),
               TScope(LowerWorld(w, pick), k, LowerList(CfgOf(x), body, c).0, TEnv(map[], map[]), tst))
  {
    TryBoom(w, x, k, st, tst);
    FreshSetting(w, pick, x, st, tst);
    PrintOneShows(w, x, k - 1, true, map[], st);
    Loses(w, LowerWorld(w, pick), k, x, PRINT_ONE, Try(CALL_BOOM), c, st, tst);
  }

  const RET_BOOM: Block := [Ret(Some(ErrLit("Boom")))]
  const CATCH_RET_BOOM := CatchBlock(CALL_BOOM, None, RET_BOOM)

  lemma RetBoom(w: World, x: Place, k: nat, st: State, tst: TState)
    requires Fresh(w, x, st, tst)
    ensures KList(x.rule, RET_BOOM) && KTail(x.rule, RET_BOOM) && Leaves(RET_BOOM)
    ensures SList(x.InRet().Inner(), RET_BOOM) && Returns(x, Some(ErrLit("Boom")))
    ensures ExecList(w, k, true, RET_BOOM, map[], st) == Res(Leave(Bad(AdHoc("Boom"))), st, Unit)
  {
    var ret := RET_BOOM[0];
    assert RET_BOOM == [ret] && RET_BOOM[1..] == [];
    var y := x.InRet().Inner();
    assert KStmt(x.rule, ret) && LeavesStmt(ret);
    assert SStmt(y, ret) && SList(y, RET_BOOM[1..]);
    assert EvalX(w, k, true, ErrLit("Boom"), map[], st) == Got(Err(AdHoc("Boom")), st);
    assert Exec(w, k, true, ret, map[], st) == Res(Leave(Bad(AdHoc("Boom"))), st, Unit);
  }

  lemma CatchRetBoom(w: World, x: Place, k: nat, st: State, tst: TState)
    requires Fresh(w, x, st, tst) && k > 0
    ensures Returns(x, Some(CATCH_RET_BOOM))
    ensures Exec(w, k, true, Ret(Some(CATCH_RET_BOOM)), map[], st) == Res(Leave(Bad(AdHoc("Boom"))), st, Unit)
  {
    BoomFails(w, k, map[], st);
    BoomSupported(x.InRet());
    RetBoom(w, x, k, st, tst);
    assert KVal(x.rule, CATCH_RET_BOOM);
    assert EvalX(w, k, true, CATCH_RET_BOOM, map[], st) == Gone(Leave(Bad(AdHoc("Boom"))), st);
  }

  /** { errdefer @pl(1)  ret boom() catch { ret err.Boom } }: an error by its shape, but in
      a handler block under `ret`, by which time the flag is set. */
  lemma HandlerLosesCleanup(w: World, pick: Pick, x: Place, k: nat, c: Cnt, st: State, tst: TState)
    requires Fresh(w, x, st, tst) && k > 0 && (x.ltr ==> pick == LEFT_TO_RIGHT)
    ensures var body := [ErrDefer(PRINT_ONE), Ret(Some(CATCH_RET_BOOM))];
      !SameEnd(ExecList(w, k, true, body, map[], st),
               TScope(LowerWorld(w, pick), k, LowerList(CfgOf(x), body, c).0, TEnv(map[], map[]), tst))
  {
    CatchRetBoom(w, x, k, st, tst);
    FreshSetting(w, pick, x, st, tst);
    PrintOneShows(w, x, k - 1, true, map[], st);
    Loses(w, LowerWorld(w, pick), k, x, PRINT_ONE, CATCH_RET_BOOM, c, st, tst);
  }

  const DEFERRED_RET: Block := [Defer([Ret(None)]), Ret(Some(ErrLit("Boom")))]

  lemma DeferredRetRuns(w: World, x: Place, k: nat, st: State, tst: TState)
    requires Fresh(w, x, st, tst) && k > 0 && x.rule.ret.isVoid
    ensures ExecList(w, k, true, DEFERRED_RET, map[], st) == Res(Leave(Bad(AdHoc("Boom"))), st, Unit)
  {
    RetBoom(w, x, k, st, tst);
    var ret := [Ret(None)];
    assert DEFERRED_RET[1..] == RET_BOOM && ret[1..] == [];
    assert ExecList(w, k - 1, true, ret, map[], st) == Res(Leave(Good(Unit)), st, Unit);
  }

  /** { errdefer @pl(1)  defer { ret }  ret err.Boom }: the deferred `ret` sets the flag. */
  lemma DeferredRetLosesCleanup(w: World, pick: Pick, x: Place, k: nat, c: Cnt, st: State, tst: TState)
    requires Fresh(w, x, st, tst) && k > 0 && x.rule.ret.isVoid && (x.ltr ==> pick == LEFT_TO_RIGHT)
    ensures var body := [ErrDefer(PRINT_ONE)] + DEFERRED_RET;
      !SameEnd(ExecList(w, k, true, body, map[], st),
               TScope(LowerWorld(w, pick), k, LowerList(CfgOf(x), body, c).0, TEnv(map[], map[]), tst))
  {
    RetBoom(w, x, k, st, tst);
    DeferredRetRuns(w, x, k, st, tst);
    FreshSetting(w, pick, x, st, tst);
    PrintOneShows(w, x, k - 1, true, map[], st);
    RetInDefer(w, LowerWorld(w, pick), k, x, PRINT_ONE, None, ErrLit("Boom"), c, map[], TEnv(map[], map[]), st, tst);
  }

  const MINUS_ONE := [ExprStmt(Int(-1))]
  const CATCH_MINUS_ONE := CatchBlock(CALL_BOOM, None, MINUS_ONE)

  lemma MinusOneRuns(w: World, x: Place, k: nat, env: Env, st: State)
    ensures KList(x.rule, MINUS_ONE) && SList(x.Inner(), MINUS_ONE)
    ensures ExecList(w, k, true, MINUS_ONE, env, st) == Res(Normal, st, Num(-1))
  {
    var tail := ExprStmt(Int(-1));
    assert MINUS_ONE == [tail] && [tail][1..] == [];
    assert KStmt(x.rule, tail) && SStmt(x.Inner(), tail) && SList(x.Inner(), [tail][1..]);
    assert EvalX(w, k, true, Int(-1), env, st) == Got(Num(-1), st);
    assert Exec(w, k, true, tail, env, st) == Res(Normal, st, Num(-1));
  }

  lemma CatchMinusOne(w: World, x: Place, k: nat, st: State, tst: TState)
    requires Fresh(w, x, st, tst) && k > 0
    ensures EvalX(w, k, true, CATCH_MINUS_ONE, map[], st) == Got(Num(-1), st)
    ensures EvalX(w, k, true, CALL_BOOM, map[], st) == Got(Bad(AdHoc("Boom")), st)
    ensures KCaught(x.rule, CATCH_MINUS_ONE) && SExpr(x, CALL_BOOM) && SList(x.Inner(), MINUS_ONE)
  {
    BoomFails(w, k, map[], st);
    MinusOneRuns(w, x, k, map[], st);
    BoomSupported(x);
  }

  /** boom() catch { -1 }: the documented value is -1, the emitted one is 0. */
  lemma CatchBlockLosesValue(w: World, pick: Pick, x: Place, k: nat, c: Cnt, st: State, tst: TState)
    requires Fresh(w, x, st, tst) && k > 0 && (x.ltr ==> pick == LEFT_TO_RIGHT)
    ensures EvalX(w, k, true, CATCH_MINUS_ONE, map[], st) == Got(Num(-1), st)
    ensures TEvalX(LowerWorld(w, pick), k, LowerExpr(CfgOf(x), CATCH_MINUS_ONE, c).0, TEnv(map[], map[]), tst)
      == TGot(Num(0), tst)
  {
    CatchMinusOne(w, x, k, st, tst);
    FreshSetting(w, pick, x, st, tst);
    CatchBlockValue(w, LowerWorld(w, pick), k, x, CATCH_MINUS_ONE, c, map[], TEnv(map[], map[]), st, tst);
  }

  /** { errdefer @pl(1) } in a nested block: the source prints nothing, the emitted code 1. */
  lemma NestedRunsCleanup(w: World, pick: Pick, x: Place, k: nat, c: Cnt, st: State, tst: TState)
    requires Fresh(w, x, st, tst) && k > 0 && (x.ltr ==> pick == LEFT_TO_RIGHT)
    ensures !SameEnd(ExecList(w, k, true, [ErrDefer(PRINT_ONE)] + [], map[], st),
                     TScope(LowerWorld(w, pick), k, LowerList(CfgOf(x.Inner()), [ErrDefer(PRINT_ONE)] + [], c).0,
                            TEnv(map[], map[]), tst))
  {
    FreshSetting(w, pick, x, st, tst);
    PrintOneShows(w, x.Inner(), k - 1, true, map[], st);
    assert ExecList(w, k, true, [], map[], st) == Res(Normal, st, Unit);
    NestedErrDefer(w, LowerWorld(w, pick), k, x.Inner(), PRINT_ONE, [], c, map[], TEnv(map[], map[]), st, tst);
  }

  // fn f() -> !i64 { if 1 { errdefer @pl(1) }  ret 0 }      fn g() { errdefer @pl(1) }
  const NESTED_ONLY :=
    FnDecl("f", [], Fallible(None, false), [If(Int(1), [ErrDefer(PRINT_ONE)], NoElse), Ret(Some(Int(0)))])
  const NOT_FALLIBLE := FnDecl("g", [], Plain(true), [ErrDefer(PRINT_ONE)])

  /** An errdefer that stands only in a nested block, or in a function that returns no
      errors, makes the emitted function use a flag that it does not declare. */
  lemma FlagsUndeclared(errs: seq<ErrDecl>)
    ensures !Compiles(LowerFn(errs, NESTED_ONLY)) && !Compiles(LowerFn(errs, NOT_FALLIBLE))
  {
    assert Holds([ErrDefer(PRINT_ONE)]);
    assert HoldsS(NESTED_ONLY.body[0]);
    UndeclaredFlag(errs, NESTED_ONLY);
    UndeclaredFlag(errs, NOT_FALLIBLE);
  }

  // ---------- a lost fallback, a repeated subject ----------

  /** boom() catch p() as a statement: the source prints 1, the emitted code nothing. */
  lemma FallbackLost(w: World, pick: Pick, x: Place, k: nat, c: Cnt, st: State, tst: TState)
    requires Fresh(w, x, st, tst) && k > 0 && (x.ltr ==> pick == LEFT_TO_RIGHT)
    ensures var e := CatchElse(CALL_BOOM, Call(Ident("p"), []));
      !SameEnd(Exec(w, k, true, ExprStmt(e), map[], st),
               TExec(LowerWorld(w, pick), k, LowerDrop(CfgOf(x), e, c).0[0], TEnv(map[], map[]), tst))
  {
    var p := Call(Ident("p"), []);
    Finds();
    BoomFails(w, k, map[], st);
    PrinterRuns(w, k, true, "p", 1, map[], st);
    FreshSetting(w, pick, x, st, tst);
    BoomSupported(x);
    PlainCall(x, "p");
    assert |Emit(st, Num(1)).trace| == |st.trace| + 1;
    StatementFallback(w, LowerWorld(w, pick), k, x, CatchElse(CALL_BOOM, p), c, map[], TEnv(map[], map[]), st, tst);
  }

  lemma PlainCall(x: Place, f: string)
    requires !FallibleCallee(x.rule.prog, f)
    ensures var e := Call(Ident(f), []); KVal(x.rule, e) && SExpr(x, e)
  {
    var e := Call(Ident(f), []);
    assert Operands(e) == [];
    assert OneAt(x.rule.prog.globals, e, 0);
  }

  // A subject that is evaluated again and then leaves another state.
  lemma Repeats(w: World, tw: TWorld, k: nat, x: Place, s: Stmt, c: Cnt, st: State, tst: TState)
    requires Ctx(w, tw, x) && Related(x, map[], TEnv(map[], map[]), st, tst) && Unset(x, tst.ok)
    requires Chain(x, s) && s.arms != [] && s.arms[0].pattern.Some?
    requires forall m | 1 <= m < |s.arms| :: s.arms[m].body == []
    requires var r := EvalX(w, k, x.rule.Fal(), s.subject, map[], st);
      && r.Got? && EvalX(w, k, x.rule.Fal(), s.arms[0].pattern.value, map[], st) != Got(r.v, st)
      && ExecChain(w, k, x.rule.Fal(), s.subject, s.arms[1..], map[], r.st).st != r.st
    ensures !SameEnd(Exec(w, k, x.rule.Fal(), s, map[], st),
                     TScope(tw, k, LowerStmt(CfgOf(x), s, c).0, TEnv(map[], map[]), tst))
  {
    WhenSubjectTwice(w, tw, k, x, s, c, map[], TEnv(map[], map[]), st, tst);
  }

  const TWO_ARMS: seq<Arm> := [Arm(Some(Int(2)), []), Arm(Some(Int(3)), [])]

  lemma TwoArmsChain(x: Place, e: Expr)
    requires KVal(x.rule, e) && SExpr(x, e) && !e.Assign?
    ensures Chain(x, When(e, TWO_ARMS))
  {
    assert ChainArm(x, e, TWO_ARMS[0]) && ChainArm(x, e, TWO_ARMS[1]);
  }

  /** when p() { 2 => {}  3 => {} }: the source prints 1 once, the emitted code twice. */
  lemma SubjectTwice(w: World, pick: Pick, x: Place, k: nat, c: Cnt, st: State, tst: TState)
    requires Fresh(w, x, st, tst) && k > 0 && (x.ltr ==> pick == LEFT_TO_RIGHT)
    ensures var s := When(Call(Ident("p"), []), TWO_ARMS);
      !SameEnd(Exec(w, k, true, s, map[], st),
               TScope(LowerWorld(w, pick), k, LowerStmt(CfgOf(x), s, c).0, TEnv(map[], map[]), tst))
  {
    var p, st1 := Call(Ident("p"), []), Emit(st, Num(1));
    FreshSetting(w, pick, x, st, tst);
    Finds();
    PlainCall(x, "p");
    TwoArmsChain(x, p);
    PrinterRuns(w, k, true, "p", 1, map[], st);
    PrinterRuns(w, k, true, "p", 1, map[], st1);
    ArmsPassed(w, k, p, st1);
    assert EvalX(w, k, true, Int(2), map[], st) == Got(Num(2), st);
    assert |Emit(st1, Num(1)).trace| == |st1.trace| + 1;
    Repeats(w, LowerWorld(w, pick), k, x, When(p, TWO_ARMS), c, st, tst);
  }

  lemma ArmsPassed(w: World, k: nat, p: Expr, st: State)
    requires EvalX(w, k, true, p, map[], st) == Got(Num(1), Emit(st, Num(1)))
    ensures ExecChain(w, k, true, p, TWO_ARMS[1..], map[], st) == Res(Normal, Emit(st, Num(1)), Unit)
  {
    var st1 := Emit(st, Num(1));
    assert TWO_ARMS[1..] == [Arm(Some(Int(3)), [])] && TWO_ARMS[1..][1..] == [];
    assert EvalX(w, k, true, Int(3), map[], st1) == Got(Num(3), st1);
    assert ExecChain(w, k, true, p, [], map[], st1) == Res(Normal, st1, Unit);
  }
}
