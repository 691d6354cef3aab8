/** Where the emitted program departs from the documented meaning, and exactly when. */
module Gaps {
  import opened Ast
  import opened Options
  import opened Semantics
  import opened Kinding
  import opened Cpp
  import opened Lowering
  import opened Support
  import opened Frames
  import opened Ordering
  import opened Preservation

  predicate SameEnd(r: Res, t: TEnd) { t.out == r.out && t.st.base == r.st }

  // Cleanup code that makes no difference: it ends and changes nothing.
  ghost predicate Idle(w: World, k: nat, fal: bool, b: Block, env: Env, st: State) {
    var d := ExecList(w, k, fal, b, env, st);
    !d.out.Timeout? && d.st == st
  }

  // How the guard of an errdefer ends, given what the flag is by then.
  lemma GuardRuns(w: World, tw: TWorld, k: nat, x: Place, b: Block, c: Cnt, env: Env, tenv: TEnv, st: State,
                  tst: TState)
    requires Ctx(w, tw, x) && Related(x, env, tenv, st, tst) && KList(x.rule, b) && SList(x.InDefer(), b)
    ensures var t := TScope(tw, k, [TIf(TNotOk, LowerList(CfgOf(x), b, c).0, TNoElse)], tenv, tst);
      var d := ExecList(w, k, x.rule.Fal(), b, env, st);
      if tst.ok then t == TEnd(Normal, tst)
      else t.st.base == d.st && (t.out.Timeout? <==> d.out.Timeout?)
  {
    var ts := LowerList(CfgOf(x), b, c).0;
    ScopeOne(tw, k, TIf(TNotOk, ts, TNoElse), tenv, tst);
    if !tst.ok { SimList(w, tw, k, x.InDefer(), b, c, env, tenv, st, tst); }
  }

  // ---------- `ret` in a function with `errdefer` ----------

  // Up to the flag, `ret` alone is always right: it sets the flag for anything that is
  // not an error by its shape, and leaves it as it was otherwise.
  lemma RetAlone(w: World, tw: TWorld, k: nat, x: Place, v: Option<Expr>, c: Cnt,
                 env: Env, tenv: TEnv, st: State, tst: TState)
    requires Ctx(w, tw, x) && Related(x, env, tenv, st, tst) && Returns(x, v)
    ensures var r := ExecList(w, k, true, [Ret(v)], env, st);
      var t := TScope(tw, k, LowerList(CfgOf(x), [Ret(v)], c).0, tenv, tst);
      && r == Exec(w, k, true, Ret(v), env, st) && SameEnd(r, t)
      && (r.out.Leave? || r.out.Timeout?)
      && (r.out.Leave? ==> t.st.ok == (tst.ok || !ErrorShaped(x, v)))
      && Grows(st.store, r.st.store)
  {
    var g := CfgOf(x);
    var ret := Ret(v);
    assert [ret][1..] == [];
    KindStmt(w, k, x.rule, ret, env, st);
    var (head, c1) := LowerStmt(g, ret, c);
    assert LowerList(g, [ret], c).0 == head + [];
    assert head + [] == head;
    var back := head[|head| - 1];
    if |head| == 1 {
      assert head == [back];
      ScopeOne(tw, k, back, tenv, tst);
    } else {
      assert head == [TSetOk] + [back];
      ScopeStmt(tw, k, TSetOk, [back], tenv, tst);
      ScopeOne(tw, k, back, tenv, tst.(ok := true));
      if v.Some? { SimX(w, tw, k, x.InRet(), v.value, c, env, tenv, st, tst.(ok := true)); }
    }
  }

  // A `ret` in a function that keeps the flag, and not inside a loop.
  ghost predicate Returns(x: Place, v: Option<Expr>) {
    && x.rule.Fal() && x.flag && !x.loop && !x.dfr
    && KStmt(x.rule, Ret(v)) && (v.Some? ==> SExpr(x.InRet(), v.value))
  }

  predicate ErrorShaped(x: Place, v: Option<Expr>) { v.Some? && IsErrReturn(x.rule.prog.errs, v.value) }

  /** `errdefer { b } ret e`: the emitted function agrees with the source exactly when an
      error return is written as one (`err.X` or `Set.X`), or the cleanup makes no
      difference.  `ret try f()`, `ret f()`, `ret e` with a caught error and an error
      return out of a handler block under `ret` set `_fn_ok` first and lose the cleanup. */
  lemma ErrDeferAtRet(w: World, tw: TWorld, k: nat, x: Place, b: Block, e: Expr, c: Cnt,
                      env: Env, tenv: TEnv, st: State, tst: TState)
    requires Ctx(w, tw, x) && Related(x, env, tenv, st, tst) && !tst.ok
    requires Returns(x, Some(e)) && KList(x.rule, b) && SList(x.InDefer(), b)
    ensures var body := [ErrDefer(b), Ret(Some(e))];
      var r := ExecList(w, k, true, body, env, st);
      var t := TScope(tw, k, LowerList(CfgOf(x), body, c).0, tenv, tst);
      var q := Exec(w, k, true, Ret(Some(e)), env, st);
      SameEnd(r, t) <==>
        (k > 0 && IsErrorExit(q.out) ==> IsErrReturn(w.prog.errs, e) || Idle(w, k - 1, true, b, env, q.st))
  {
    var c1 := LowerList(CfgOf(x), b, c).1;
    RetAlone(w, tw, k, x, Some(e), c1.(defers := c1.defers + 1), env, tenv, st, tst);
    ErrDeferBefore(w, tw, k, x, b, [Ret(Some(e))], c, env, tenv, st, tst);
    assert [ErrDefer(b), Ret(Some(e))] == [ErrDefer(b)] + [Ret(Some(e))];
  }

  // An errdefer in front of code that ends alike up to the flag.
  lemma ErrDeferBefore(w: World, tw: TWorld, k: nat, x: Place, b: Block, rest: Block, c: Cnt,
                       env: Env, tenv: TEnv, st: State, tst: TState)
    requires Ctx(w, tw, x) && Related(x, env, tenv, st, tst) && KList(x.rule, b) && SList(x.InDefer(), b)
    requires var c0 := LowerList(CfgOf(x), b, c).1;
      var q := ExecList(w, k, x.rule.Fal(), rest, env, st);
      var u := TScope(tw, k, LowerList(CfgOf(x), rest, c0.(defers := c0.defers + 1)).0, tenv, tst);
      SameEnd(q, u) && Grows(st.store, q.st.store)
    ensures var body := [ErrDefer(b)] + rest;
      var c0 := LowerList(CfgOf(x), b, c).1;
      var u := TScope(tw, k, LowerList(CfgOf(x), rest, c0.(defers := c0.defers + 1)).0, tenv, tst);
      var r := ExecList(w, k, x.rule.Fal(), body, env, st);
      var t := TScope(tw, k, LowerList(CfgOf(x), body, c).0, tenv, tst);
      var q := ExecList(w, k, x.rule.Fal(), rest, env, st);
      SameEnd(r, t) <==>
        (k > 0 && !q.out.Timeout? && IsErrorExit(q.out) == u.st.ok ==> Idle(w, k - 1, x.rule.Fal(), b, env, q.st))
  {
    var g := CfgOf(x);
    var body := [ErrDefer(b)] + rest;
    assert body[1..] == rest;
    var (ts0, c0) := LowerList(g, b, c);
    var c1 := c0.(defers := c0.defers + 1);
    var guard := TGuard(true, c.defers, ts0);
    var ts := LowerList(g, rest, c1).0;
    assert LowerList(g, body, c).0 == [guard] + ts;
    ScopeGuard(tw, k, guard, ts, tenv, tst);
    var u := TScope(tw, k, ts, tenv, tst);
    var q := ExecList(w, k, x.rule.Fal(), rest, env, st);
    if k > 0 && !q.out.Timeout? {
      EnvGrows(x.rule, env, st.store, q.st.store);
      GuardRuns(w, tw, k - 1, x, b, c, env, tenv, q.st, u.st);
    }
  }

  /** `errdefer { b } defer { ret v } ret e`: deferred code cannot change how the function
      is left, but its `ret` sets `_fn_ok` in between.  The two agree exactly when an error
      return and the deferred `ret` are both errors by their shape, or the cleanup makes
      no difference. */
  lemma RetInDefer(w: World, tw: TWorld, k: nat, x: Place, b: Block, v: Option<Expr>, e: Expr, c: Cnt,
                   env: Env, tenv: TEnv, st: State, tst: TState)
    requires Ctx(w, tw, x) && Related(x, env, tenv, st, tst) && !tst.ok
    requires Returns(x, Some(e)) && Returns(x, v) && KList(x.rule, b) && SList(x.InDefer(), b)
    ensures var rest := [Defer([Ret(v)]), Ret(Some(e))];
      var q := ExecList(w, k, true, rest, env, st);
      SameEnd(ExecList(w, k, true, [ErrDefer(b)] + rest, env, st),
              TScope(tw, k, LowerList(CfgOf(x), [ErrDefer(b)] + rest, c).0, tenv, tst)) <==>
        (k > 0 && IsErrorExit(q.out) ==>
           (IsErrReturn(w.prog.errs, e) && ErrorShaped(x, v)) || Idle(w, k - 1, true, b, env, q.st))
  {
    var c0 := LowerList(CfgOf(x), b, c).1;
    if ErrorShaped(x, Some(e)) { ShapedIsError(w, k, x, e, env, st); }
    DeferredRet(w, tw, k, x, v, e, c0.(defers := c0.defers + 1), env, tenv, st, tst);
    ErrDeferBefore(w, tw, k, x, b, [Defer([Ret(v)]), Ret(Some(e))], c, env, tenv, st, tst);
  }

  lemma ShapedIsError(w: World, k: nat, x: Place, e: Expr, env: Env, st: State)
    requires w.prog == x.rule.prog && ErrorShaped(x, Some(e))
    ensures IsErrorExit(Exec(w, k, true, Ret(Some(e)), env, st).out)
  {
    assert IsAtom(e);
  }

  // The emitted form of code with a `defer` in front.
  lemma DeferFirst(tw: TWorld, k: nat, g: Cfg, b: Block, rest: Block, c: Cnt, env: TEnv, st: TState)
    ensures var (ts0, c0) := LowerList(g, b, c);
      var u := TScope(tw, k, LowerList(g, rest, c0.(defers := c0.defers + 1)).0, env, st);
      TScope(tw, k, LowerList(g, [Defer(b)] + rest, c).0, env, st) ==
        if u.out.Timeout? then u
        else if k == 0 then TEnd(Timeout, u.st)
        else
          var d := TScope(tw, k - 1, ts0, env, u.st);
          if d.out.Timeout? then d else TEnd(u.out, d.st)
  {
    assert ([Defer(b)] + rest)[1..] == rest;
    var (ts0, c0) := LowerList(g, b, c);
    var ts := LowerList(g, rest, c0.(defers := c0.defers + 1)).0;
    var guard := TGuard(false, c.defers, ts0);
    assert LowerList(g, [Defer(b)] + rest, c).0 == [guard] + ts;
    ScopeGuard(tw, k, guard, ts, env, st);
  }

  lemma DeferredRet(w: World, tw: TWorld, k: nat, x: Place, v: Option<Expr>, e: Expr, c: Cnt,
                    env: Env, tenv: TEnv, st: State, tst: TState)
    requires Ctx(w, tw, x) && Related(x, env, tenv, st, tst) && Returns(x, Some(e)) && Returns(x, v)
    ensures var rest := [Defer([Ret(v)]), Ret(Some(e))];
      var q := ExecList(w, k, true, rest, env, st);
      var u := TScope(tw, k, LowerList(CfgOf(x), rest, c).0, tenv, tst);
      && SameEnd(q, u) && Grows(st.store, q.st.store) && (q.out.Leave? || q.out.Timeout?)
      && (q.out.Leave? ==> u.st.ok == (tst.ok || !ErrorShaped(x, Some(e)) || !ErrorShaped(x, v)))
      && (q.out.Leave? ==> q.out == Exec(w, k, true, Ret(Some(e)), env, st).out)
  {
    var g := CfgOf(x);
    var last, ret := [Ret(Some(e))], [Ret(v)];
    assert [Defer(ret), Ret(Some(e))] == [Defer(ret)] + last;
    assert ([Defer(ret)] + last)[1..] == last;
    DeferFirst(tw, k, g, ret, last, c, tenv, tst);
    var c0 := LowerList(g, ret, c).1;
    var c1 := c0.(defers := c0.defers + 1);
    RetAlone(w, tw, k, x, Some(e), c1, env, tenv, st, tst);
    var r, u := ExecList(w, k, true, last, env, st), TScope(tw, k, LowerList(g, last, c1).0, tenv, tst);
    if k > 0 && !r.out.Timeout? {
      EnvGrows(x.rule, env, st.store, r.st.store);
      RetAlone(w, tw, k - 1, x, v, c, env, tenv, r.st, u.st);
    }
  }

  // ---------- errdefer in an inner block ----------

  /** `errdefer { b }` followed by `rest` in a nested block: the emitted guard also runs
      when the block ends without leaving the function, because `_fn_ok` is still false.
      The two agree exactly when `rest` leaves the function or runs forever, or the cleanup
      makes no difference. */
  lemma NestedErrDefer(w: World, tw: TWorld, k: nat, x: Place, b: Block, rest: Block, c: Cnt,
                       env: Env, tenv: TEnv, st: State, tst: TState)
    requires Ctx(w, tw, x) && Related(x, env, tenv, st, tst)
    requires x.flag && !x.dfr && !x.top && !x.late && !tst.ok
    requires KList(x.rule, rest) && SList(x, rest) && KList(x.rule, b) && SList(x.InDefer(), b)
    ensures var body := [ErrDefer(b)] + rest;
      var r := ExecList(w, k, x.rule.Fal(), body, env, st);
      var t := TScope(tw, k, LowerList(CfgOf(x), body, c).0, tenv, tst);
      var q := ExecList(w, k, x.rule.Fal(), rest, env, st);
      SameEnd(r, t) <==>
        (k > 0 ==> q.out.Leave? || q.out.Timeout? || Idle(w, k - 1, x.rule.Fal(), b, env, q.st))
  {
    var c0 := LowerList(CfgOf(x), b, c).1;
    SimList(w, tw, k, x, rest, c0.(defers := c0.defers + 1), env, tenv, st, tst);
    KindList(w, k, x.rule, rest, env, st);
    ErrDeferBefore(w, tw, k, x, b, rest, c, env, tenv, st, tst);
  }

  // ---------- a catch block used as a value ----------

  /** `e catch |x| { ... }` as a value.  The documentation gives it the value of the last
      expression of the block; the emitted code discards that value and reads the value
      slot of the failed result, which is zero.  They agree exactly when there is no error,
      or the block does not run off its end, or it happens to end in zero. */
  lemma CatchBlockValue(w: World, tw: TWorld, k: nat, x: Place, e: Expr, c: Cnt, env: Env, tenv: TEnv, st: State,
                        tst: TState)
    requires Ctx(w, tw, x) && Related(x, env, tenv, st, tst) && Unset(x, tst.ok)
    requires e.CatchBlock? && KCaught(x.rule, e) && SExpr(x, e.tried) && SList(x.Inner(), e.handler)
    ensures var r := EvalX(w, k, x.rule.Fal(), e, env, st);
      var t := TEvalX(tw, k, LowerExpr(CfgOf(x), e, c).0, tenv, tst);
      var q := EvalX(w, k, x.rule.Fal(), e.tried, env, st);
      && t.st.base == r.st
      && ((if r.Got? then t.TGot? && t.v == r.v else t.TGone? && t.out == r.out) <==>
           (q.Got? && q.v.Bad? && r.Got? ==> r.v == Num(0)))
      && (q.Got? && q.v.Bad? && r.Got? ==> t == TGot(Num(0), TState(r.st, tst.ok)))
  {
    var ss := Catching(CfgOf(x), e, c);
    assert LowerExpr(CfgOf(x), e, c).0 == TStmtExpr(ss, TValOf(c.tries));
    SimCaught(w, tw, k, x, e, c, env, tenv, st, tst);
    StmtExprRun(tw, k, ss, TValOf(c.tries), tenv, tst);
  }

  // ---------- a fallback in statement position ----------

  /** `e catch fallback` as a statement: the emitted code never evaluates the fallback.
      It agrees with the source exactly when there is no error or the fallback does
      nothing but yield a value. */
  lemma StatementFallback(w: World, tw: TWorld, k: nat, x: Place, e: Expr, c: Cnt, env: Env, tenv: TEnv, st: State,
                          tst: TState)
    requires Ctx(w, tw, x) && Related(x, env, tenv, st, tst) && Unset(x, tst.ok)
    requires e.CatchElse? && KRes(x.rule, e) && SExpr(x, e.tried)
    ensures var r := Exec(w, k, x.rule.Fal(), ExprStmt(e), env, st);
      var q := EvalX(w, k, x.rule.Fal(), e.tried, env, st);
      var f := EvalX(w, k, x.rule.Fal(), e.fallback, env, q.st);
      SameEnd(r, TExec(tw, k, LowerDrop(CfgOf(x), e, c).0[0], tenv, tst)) <==>
        (q.Got? && q.v.Bad? ==> f.Got? && f.st == q.st)
  {
    var n := c.tries;
    SimX(w, tw, k, x, e.tried, NextTry(c), env, tenv, st, tst);
    var t := LowerExpr(CfgOf(x), e.tried, NextTry(c)).0;
    assert [TTemp(n, t)] == [TTemp(n, t)] + [];
    ListTemp(tw, k, n, t, [], tenv, tst);
    BlockRun(tw, k, [TTemp(n, t)], tenv, tst);
    var q := EvalX(w, k, x.rule.Fal(), e.tried, env, st);
    EvalXOut(w, k, x.rule.Fal(), e.fallback, env, q.st);
  }

  // ---------- `when` with a subject that does something ----------

  // What the emitted chain does: the subject is evaluated again in front of each pattern.
  ghost function ExecChain(w: World, k: nat, fal: bool, e: Expr, arms: seq<Arm>, env: Env, st: State): Res
    decreases |arms|
  {
    if arms == [] then Res(Normal, st, Unit)
    else if arms[0].pattern.None? then Quiet(ExecList(w, k, fal, arms[0].body, env, st))
    else
      var r := EvalX(w, k, fal, e, env, st);
      if r.Gone? then Res(r.out, r.st, Unit)
      else if EvalX(w, k, fal, arms[0].pattern.value, env, r.st) == Got(r.v, r.st) then
        Quiet(ExecList(w, k, fal, arms[0].body, env, r.st))
      else ExecChain(w, k, fal, e, arms[1..], env, r.st)
  }

  // Patterns that mean the same before and after the subject has been evaluated.
  predicate Steady(gs: seq<string>, e: Expr, p: Expr) {
    p.Int? || (Pure(p) && NoWrites(e) && (CallFree(e) || NoGlobals(gs, p)))
  }

  predicate ChainArm(x: Place, e: Expr, arm: Arm) {
    && (arm.pattern.Some? ==>
          KVal(x.rule, arm.pattern.value) && SExpr(x, arm.pattern.value) &&
          Steady(x.rule.prog.globals, e, arm.pattern.value))
    && KList(x.rule, arm.body) && SList(x.Inner(), arm.body)
  }

  // Any subject that is no assignment (the text of one has no parentheses).
  ghost predicate Chain(x: Place, s: Stmt) {
    && s.When? && KVal(x.rule, s.subject) && SExpr(x, s.subject) && !s.subject.Assign?
    && forall i | 0 <= i < |s.arms| :: ChainArm(x, s.subject, s.arms[i])
  }

  // A steady pattern before and after the subject has been evaluated.
  lemma SteadySame(w: World, k: nat, c: Rule, e: Expr, p: Expr, env: Env, st: State)
    requires Setting(w, c) && EnvOk(c, env, st.store) && KVal(c, e) && Steady(w.prog.globals, e, p)
    ensures var r := EvalX(w, k, c.Fal(), e, env, st);
      var v := EvalX(w, k, c.Fal(), p, env, st);
      && v.Got? && v.st == st
      && (r.Got? ==> EnvOk(c, env, r.st.store) && EvalX(w, k, c.Fal(), p, env, r.st) == Got(v.v, r.st))
  {
    PureX(w, k, c.Fal(), p, env, st);
    KindX(w, k, c, e, env, st);
    var r := EvalX(w, k, c.Fal(), e, env, st);
    if r.Got? {
      EnvGrows(c, env, st.store, r.st.store);
      if !p.Int? {
        var lo := if CallFree(e) then 0 else Globals(w);
        NoWritesKeeps(w, k, c.Fal(), e, env, st, lo);
        PureSame(w, k, c.Fal(), p, env, st, r.st, lo);
      }
    }
  }

  // The test of one arm, whichever side of `==` is evaluated first.
  lemma ChainTest(tw: TWorld, k: nat, t: TExpr, p: TExpr, v: Val, a: seq<TStmt>, b: TElse, env: TEnv, st: TState)
    requires TEvalX(tw, k, p, env, st) == TGot(v, st)
    requires var r := TEvalX(tw, k, t, env, st); r.TGot? ==> TEvalX(tw, k, p, env, r.st) == TGot(v, r.st)
    ensures var r := TEvalX(tw, k, t, env, st);
      TExec(tw, k, TIf(TOp(OSame, [t, p]), a, b), env, st) ==
        if r.TGone? then TEnd(r.out, r.st)
        else if r.v == v then TScope(tw, k, a, env, r.st)
        else TOtherwise(tw, k, b, env, r.st)
  {
    var r := TEvalX(tw, k, t, env, st);
    var test := TOp(OSame, [t, p]);
    AllOperands(tw, k, test, 0, [if r.TGot? then r.v else Unit, v], env, st, r);
    assert TEvalX(tw, k, test, env, st) == if r.TGone? then r else TGot(Bool(r.v == v), r.st);
  }

  lemma {:induction false} ChainRuns(w: World, tw: TWorld, k: nat, x: Place, s: Stmt, i: nat, c: Cnt,
                                     env: Env, tenv: TEnv, st: State, tst: TState)
    requires Ctx(w, tw, x) && Related(x, env, tenv, st, tst) && Unset(x, tst.ok) && Chain(x, s) && i <= |s.arms|
    ensures var r := ExecChain(w, k, x.rule.Fal(), s.subject, s.arms[i..], env, st);
      Agrees(x, tst.ok, r.out, r.st, TOtherwise(tw, k, LowerArms(CfgOf(x), s, i, c).0, tenv, tst))
    decreases |s.arms| - i
  {
    if i < |s.arms| {
      var arm := s.arms[i];
      assert ChainArm(x, s.subject, arm);
      assert s.arms[i..][0] == arm && s.arms[i..][1..] == s.arms[i + 1..];
      if arm.pattern.None? {
        SimList(w, tw, k, x.Inner(), arm.body, c, env, tenv, st, tst);
      } else {
        ChainArmRuns(w, tw, k, x, s, i, c, env, tenv, st, tst);
      }
    }
  }

  // The emitted test of arm i: it goes on as the source value of the subject says.
  lemma ChainStep(w: World, tw: TWorld, k: nat, x: Place, s: Stmt, i: nat, c: Cnt, env: Env, tenv: TEnv,
                  st: State, tst: TState)
    requires Ctx(w, tw, x) && Related(x, env, tenv, st, tst) && Unset(x, tst.ok) && Chain(x, s)
    requires i < |s.arms| && s.arms[i].pattern.Some?
    ensures var (t, c1) := LowerExpr(CfgOf(x), s.subject, c);
      var c2 := LowerExpr(CfgOf(x), s.arms[i].pattern.value, c1).1;
      var (a, c3) := LowerList(CfgOf(x), s.arms[i].body, c2);
      var r := EvalX(w, k, x.rule.Fal(), s.subject, env, st);
      var q := TEvalX(tw, k, t, tenv, tst);
      && AgreesX(x, tst.ok, r, q)
      && (r.Got? ==> EnvOk(x.rule, env, r.st.store))
      && TOtherwise(tw, k, LowerArms(CfgOf(x), s, i, c).0, tenv, tst) ==
           if r.Gone? then TEnd(q.out, q.st)
           else if EvalX(w, k, x.rule.Fal(), s.arms[i].pattern.value, env, r.st) == Got(r.v, r.st) then
             TScope(tw, k, a, tenv, q.st)
           else TOtherwise(tw, k, LowerArms(CfgOf(x), s, i + 1, c3).0, tenv, q.st)
  {
    var g, fal, arm := CfgOf(x), x.rule.Fal(), s.arms[i];
    assert ChainArm(x, s.subject, arm);
    var (t, c1) := LowerExpr(g, s.subject, c);
    var (p, c2) := LowerExpr(g, arm.pattern.value, c1);
    var (a, c3) := LowerList(g, arm.body, c2);
    var b := LowerArms(g, s, i + 1, c3).0;
    assert LowerArms(g, s, i, c).0 == TElseIf(TIf(TOp(OSame, [t, p]), a, b));
    SimX(w, tw, k, x, s.subject, c, env, tenv, st, tst);
    SimX(w, tw, k, x, arm.pattern.value, c1, env, tenv, st, tst);
    SteadySame(w, k, x.rule, s.subject, arm.pattern.value, env, st);
    var r := EvalX(w, k, fal, s.subject, env, st);
    var v := EvalX(w, k, fal, arm.pattern.value, env, st).v;
    if r.Got? { SimX(w, tw, k, x, arm.pattern.value, c1, env, tenv, r.st, TState(r.st, tst.ok)); }
    ChainTest(tw, k, t, p, v, a, b, tenv, tst);
  }

  lemma {:induction false} ChainArmRuns(w: World, tw: TWorld, k: nat, x: Place, s: Stmt, i: nat, c: Cnt,
                                        env: Env, tenv: TEnv, st: State, tst: TState)
    requires Ctx(w, tw, x) && Related(x, env, tenv, st, tst) && Unset(x, tst.ok) && Chain(x, s)
    requires i < |s.arms| && s.arms[i].pattern.Some?
    ensures var r := ExecChain(w, k, x.rule.Fal(), s.subject, s.arms[i..], env, st);
      Agrees(x, tst.ok, r.out, r.st, TOtherwise(tw, k, LowerArms(CfgOf(x), s, i, c).0, tenv, tst))
    decreases |s.arms| - i, 0
  {
    var g, arm := CfgOf(x), s.arms[i];
    assert ChainArm(x, s.subject, arm);
    assert s.arms[i..][0] == arm && s.arms[i..][1..] == s.arms[i + 1..];
    var c2 := LowerExpr(g, arm.pattern.value, LowerExpr(g, s.subject, c).1).1;
    var c3 := LowerList(g, arm.body, c2).1;
    ChainStep(w, tw, k, x, s, i, c, env, tenv, st, tst);
    var r := EvalX(w, k, x.rule.Fal(), s.subject, env, st);
    if r.Got? {
      if EvalX(w, k, x.rule.Fal(), arm.pattern.value, env, r.st) == Got(r.v, r.st) {
        SimList(w, tw, k, x.Inner(), arm.body, c2, env, tenv, r.st, TState(r.st, tst.ok));
      } else {
        ChainRuns(w, tw, k, x, s, i + 1, c3, env, tenv, r.st, TState(r.st, tst.ok));
      }
    }
  }

  /** A `when` with any subject that is no assignment: the emitted code does what the chain
      does that evaluates the subject once per pattern, so it agrees with the source exactly
      when that chain ends like the `when`. */
  lemma WhenSubject(w: World, tw: TWorld, k: nat, x: Place, s: Stmt, c: Cnt, env: Env, tenv: TEnv,
                    st: State, tst: TState)
    requires Ctx(w, tw, x) && Related(x, env, tenv, st, tst) && Unset(x, tst.ok)
    requires Chain(x, s) && s.arms != [] && s.arms[0].pattern.Some?
    ensures var r := Exec(w, k, x.rule.Fal(), s, env, st);
      var q := ExecChain(w, k, x.rule.Fal(), s.subject, s.arms, env, st);
      SameEnd(r, TScope(tw, k, LowerStmt(CfgOf(x), s, c).0, tenv, tst)) <==> r.out == q.out && r.st == q.st
  {
    ChainRuns(w, tw, k, x, s, 0, c, env, tenv, st, tst);
    assert s.arms[0..] == s.arms;
    var t := LowerArms(CfgOf(x), s, 0, c).0;
    assert t.TElseIf? && t.chain.TIf?;
    ScopeOne(tw, k, t.chain, tenv, tst);
  }

  // The patterns tried by the source after the first, when no later body does anything.
  lemma {:induction false} EmptyArms(w: World, k: nat, x: Place, s: Stmt, i: nat, v: Val, env: Env, st: State)
    requires Setting(w, x.rule) && EnvOk(x.rule, env, st.store) && Chain(x, s) && i <= |s.arms|
    requires forall m | i <= m < |s.arms| :: s.arms[m].body == []
    ensures ExecArms(w, k, x.rule.Fal(), v, s.arms[i..], env, st) == Res(Normal, st, Unit)
    decreases |s.arms| - i
  {
    if i < |s.arms| {
      assert ChainArm(x, s.subject, s.arms[i]);
      assert s.arms[i..][0] == s.arms[i] && s.arms[i..][1..] == s.arms[i + 1..];
      if s.arms[i].pattern.Some? { PureX(w, k, x.rule.Fal(), s.arms[i].pattern.value, env, st); }
      EmptyArms(w, k, x, s, i + 1, v, env, st);
      assert ExecList(w, k, x.rule.Fal(), [], env, st) == Res(Normal, st, Unit);
    }
  }

  /** If the first pattern matches (or the subject yields no value), source and emitted
      code agree, whatever the other arms are.  If it does not, and no later body does
      anything, they agree exactly when evaluating the subject again for the later patterns
      ends normally and leaves the state as it was. */
  lemma WhenSubjectTwice(w: World, tw: TWorld, k: nat, x: Place, s: Stmt, c: Cnt, env: Env, tenv: TEnv,
                         st: State, tst: TState)
    requires Ctx(w, tw, x) && Related(x, env, tenv, st, tst) && Unset(x, tst.ok)
    requires Chain(x, s) && s.arms != [] && s.arms[0].pattern.Some?
    ensures var r := EvalX(w, k, x.rule.Fal(), s.subject, env, st);
      var first := r.Gone? || EvalX(w, k, x.rule.Fal(), s.arms[0].pattern.value, env, st) == Got(r.v, st);
      var same := SameEnd(Exec(w, k, x.rule.Fal(), s, env, st),
                          TScope(tw, k, LowerStmt(CfgOf(x), s, c).0, tenv, tst));
      var q := ExecChain(w, k, x.rule.Fal(), s.subject, s.arms[1..], env, r.st);
      && (first ==> same)
      && (!first && (forall m | 1 <= m < |s.arms| :: s.arms[m].body == []) ==>
            (same <==> q.out.Normal? && q.st == r.st))
  {
    WhenSubject(w, tw, k, x, s, c, env, tenv, st, tst);
    var r := EvalX(w, k, x.rule.Fal(), s.subject, env, st);
    if r.Gone? || EvalX(w, k, x.rule.Fal(), s.arms[0].pattern.value, env, st) == Got(r.v, st) {
      FirstArm(w, k, x, s, env, st);
    } else if forall m | 1 <= m < |s.arms| :: s.arms[m].body == [] {
      LaterArms(w, k, x, s, env, st);
    }
  }

  lemma FirstArm(w: World, k: nat, x: Place, s: Stmt, env: Env, st: State)
    requires Setting(w, x.rule) && EnvOk(x.rule, env, st.store)
    requires Chain(x, s) && s.arms != [] && s.arms[0].pattern.Some?
    requires var r := EvalX(w, k, x.rule.Fal(), s.subject, env, st);
      r.Gone? || EvalX(w, k, x.rule.Fal(), s.arms[0].pattern.value, env, st) == Got(r.v, st)
    ensures Exec(w, k, x.rule.Fal(), s, env, st) == ExecChain(w, k, x.rule.Fal(), s.subject, s.arms, env, st)
  {
    assert ChainArm(x, s.subject, s.arms[0]);
    SteadySame(w, k, x.rule, s.subject, s.arms[0].pattern.value, env, st);
  }

  lemma LaterArms(w: World, k: nat, x: Place, s: Stmt, env: Env, st: State)
    requires Setting(w, x.rule) && EnvOk(x.rule, env, st.store)
    requires Chain(x, s) && s.arms != [] && s.arms[0].pattern.Some?
    requires forall m | 1 <= m < |s.arms| :: s.arms[m].body == []
    requires var r := EvalX(w, k, x.rule.Fal(), s.subject, env, st);
      r.Got? && EvalX(w, k, x.rule.Fal(), s.arms[0].pattern.value, env, st) != Got(r.v, st)
    ensures var r := EvalX(w, k, x.rule.Fal(), s.subject, env, st);
      && Exec(w, k, x.rule.Fal(), s, env, st) == Res(Normal, r.st, Unit)
      && ExecChain(w, k, x.rule.Fal(), s.subject, s.arms, env, st) ==
           ExecChain(w, k, x.rule.Fal(), s.subject, s.arms[1..], env, r.st)
  {
    var r := EvalX(w, k, x.rule.Fal(), s.subject, env, st);
    assert ChainArm(x, s.subject, s.arms[0]);
    SteadySame(w, k, x.rule, s.subject, s.arms[0].pattern.value, env, st);
    EmptyArms(w, k, x, s, 1, r.v, env, r.st);
  }

  // ---------- two operands that do something ----------

  ghost predicate SameX(r: ERes, t: TERes) {
    t.st.base == r.st && (if r.Got? then t.TGot? && t.v == r.v else t.TGone? && t.out == r.out)
  }

  // The operation with its operands from right to left.
  function Backwards(w: World, k: nat, fal: bool, e: Expr, env: Env, st: State): ERes
    requires IsOp(e)
  {
    var r := EvalBack(w, k, fal, e, |Operands(e)|, env, st);
    if r.GoneAll? then Gone(r.out, r.st)
    else if OperOf(e).OCall? then CallNamed(w, k, OperOf(e).f, r.vs, r.st)
    else Got(Apply(w, OperOf(e), r.vs), r.st)
  }

  // An operation whose operands are supported, whatever they do beside one another.
  ghost predicate Operation(x: Place, e: Expr) {
    IsOp(e) && KForm(e) && KOps(x.rule, e) && SOps(x, e)
  }

  lemma {:induction false} SimBack(w: World, tw: TWorld, k: nat, x: Place, e: Expr, i: nat, c: Cnt,
                                   env: Env, tenv: TEnv, st: State, tst: TState)
    requires Ctx(w, tw, x) && Related(x, env, tenv, st, tst) && Unset(x, tst.ok)
    requires Operation(x, e) && i <= |Operands(e)|
    ensures var q := EvalBack(w, k, x.rule.Fal(), e, i, env, st);
      && AgreesAll(x, tst.ok, q, InBack(tw, k, LowerExpr(CfgOf(x), e, c).0, i, tenv, tst))
      && Grows(st.store, q.st.store) && (q.GotAll? ==> PlainVals(q.vs))
    decreases i
  {
    if i > 0 {
      SimOperand(w, tw, k, x, e, i - 1, c, env, tenv, st, tst);
      KindX(w, k, x.rule, Operands(e)[i - 1], env, st);
      var r := EvalX(w, k, x.rule.Fal(), Operands(e)[i - 1], env, st);
      if r.Got? {
        EnvGrows(x.rule, env, st.store, r.st.store);
        var t := TEvalX(tw, k, LowerExpr(CfgOf(x), e, c).0.args[i - 1], tenv, tst);
        SimBack(w, tw, k, x, e, i - 1, c, env, tenv, r.st, t.st);
        GrowsTrans(st.store, r.st.store, EvalBack(w, k, x.rule.Fal(), e, i - 1, env, r.st).st.store);
      }
    }
  }

  // What is made of the values, once they are the same on both sides.
  lemma AfterOperands(w: World, tw: TWorld, k: nat, x: Place, e: Expr, c: Cnt, q: EAll, ok: bool, env: TEnv, st: TState)
    requires Ctx(w, tw, x) && Operation(x, e) && (q.GotAll? ==> PlainVals(q.vs) && Started(w.prog, q.st.store))
    requires var t := LowerExpr(CfgOf(x), e, c).0;
      AgreesAll(x, ok, q, TOperands(tw, k, t, All(|t.args|), Blank(|t.args|), env, st))
    ensures var r := if q.GoneAll? then Gone(q.out, q.st)
        else if OperOf(e).OCall? then CallNamed(w, k, OperOf(e).f, q.vs, q.st)
        else Got(Apply(w, OperOf(e), q.vs), q.st);
      SameX(r, TEvalX(tw, k, LowerExpr(CfgOf(x), e, c).0, env, st))
  {
    var t := LowerExpr(CfgOf(x), e, c).0;
    var u := TOperands(tw, k, t, All(|t.args|), Blank(|t.args|), env, st);
    if q.GotAll? && OperOf(e).OCall? { SimCall(w, tw, k, x, OperOf(e).f, q.vs, q.st, u.st); }
  }

  /** C++ may evaluate the operands of an operation, or the arguments of a call, from right
      to left.  Then the emitted code has the right-to-left meaning, whatever the operands
      do, and agrees with the source exactly when the two orders end alike. */
  lemma OperandsBackwards(w: World, tw: TWorld, k: nat, x: Place, e: Expr, c: Cnt,
                          env: Env, tenv: TEnv, st: State, tst: TState)
    requires Ctx(w, tw, x) && tw.pick == RIGHT_TO_LEFT && Related(x, env, tenv, st, tst) && Unset(x, tst.ok)
    requires Operation(x, e)
    ensures var t := TEvalX(tw, k, LowerExpr(CfgOf(x), e, c).0, tenv, tst);
      var b := Backwards(w, k, x.rule.Fal(), e, env, st);
      SameX(b, t) && (SameX(EvalX(w, k, x.rule.Fal(), e, env, st), t) <==> EvalX(w, k, x.rule.Fal(), e, env, st) == b)
  {
    var n, t := |Operands(e)|, LowerExpr(CfgOf(x), e, c).0;
    GoesBack(tw, k, t, n, All(n), Blank(n), tenv, tst);
    var u := InBack(tw, k, t, n, tenv, tst);
    if u.TGotAll? { assert u.vs + Blank(n)[n..] == u.vs; }
    Back(w, tw, k, x, e, c, env, tenv, st, tst);
  }

  lemma Forward(w: World, tw: TWorld, k: nat, x: Place, e: Expr, c: Cnt, env: Env, tenv: TEnv,
                   st: State, tst: TState)
    requires Ctx(w, tw, x) && Related(x, env, tenv, st, tst) && Unset(x, tst.ok) && Operation(x, e)
    requires var t := LowerExpr(CfgOf(x), e, c).0;
      TOperands(tw, k, t, All(|t.args|), Blank(|t.args|), tenv, tst) == InOrder(tw, k, t, 0, tenv, tst)
    ensures SameX(EvalX(w, k, x.rule.Fal(), e, env, st), TEvalX(tw, k, LowerExpr(CfgOf(x), e, c).0, tenv, tst))
  {
    SimInOrder(w, tw, k, x, e, 0, c, env, tenv, st, tst);
    KindOps(w, k, x.rule, e, 0, env, st);
    AfterOperands(w, tw, k, x, e, c, EvalOps(w, k, x.rule.Fal(), e, 0, env, st), tst.ok, tenv, tst);
  }

  lemma Back(w: World, tw: TWorld, k: nat, x: Place, e: Expr, c: Cnt, env: Env, tenv: TEnv,
                st: State, tst: TState)
    requires Ctx(w, tw, x) && Related(x, env, tenv, st, tst) && Unset(x, tst.ok) && Operation(x, e)
    requires var t := LowerExpr(CfgOf(x), e, c).0;
      TOperands(tw, k, t, All(|t.args|), Blank(|t.args|), tenv, tst) == InBack(tw, k, t, |t.args|, tenv, tst)
    ensures SameX(Backwards(w, k, x.rule.Fal(), e, env, st), TEvalX(tw, k, LowerExpr(CfgOf(x), e, c).0, tenv, tst))
  {
    var n := |Operands(e)|;
    SimBack(w, tw, k, x, e, n, c, env, tenv, st, tst);
    AfterOperands(w, tw, k, x, e, c, EvalBack(w, k, x.rule.Fal(), e, n, env, st), tst.ok, tenv, tst);
  }

  lemma TwoInOrder(w: World, tw: TWorld, k: nat, x: Place, e: Expr, c: Cnt, env: Env, tenv: TEnv,
                   st: State, tst: TState)
    requires Ctx(w, tw, x) && Related(x, env, tenv, st, tst) && Unset(x, tst.ok)
    requires Operation(x, e) && |Operands(e)| == 2
    ensures var t := TEvalX(tw, k, LowerExpr(CfgOf(x), e, c).0, tenv, tst);
      SameX(EvalX(w, k, x.rule.Fal(), e, env, st), t) || SameX(Backwards(w, k, x.rule.Fal(), e, env, st), t)
  {
    var t := LowerExpr(CfgOf(x), e, c).0;
    OneOrTheOther(tw, k, t, tenv, tst);
    if TOperands(tw, k, t, All(2), Blank(2), tenv, tst) == InOrder(tw, k, t, 0, tenv, tst) {
      Forward(w, tw, k, x, e, c, env, tenv, st, tst);
    } else {
      Back(w, tw, k, x, e, c, env, tenv, st, tst);
    }
  }

  /** Two operands: the emitted code agrees with the source under every order of evaluation
      if and only if both orders end alike in the source. */
  lemma TwoOperands(w: World, k: nat, x: Place, e: Expr, c: Cnt, env: Env, tenv: TEnv, st: State, tst: TState)
    requires Ctx(w, LowerWorld(w, RIGHT_TO_LEFT), x) && !x.ltr
    requires Related(x, env, tenv, st, tst) && Unset(x, tst.ok) && Operation(x, e) && |Operands(e)| == 2
    ensures (forall pick: Pick ::
        SameX(EvalX(w, k, x.rule.Fal(), e, env, st),
              TEvalX(LowerWorld(w, pick), k, LowerExpr(CfgOf(x), e, c).0, tenv, tst))) <==>
      EvalX(w, k, x.rule.Fal(), e, env, st) == Backwards(w, k, x.rule.Fal(), e, env, st)
  {
    OperandsBackwards(w, LowerWorld(w, RIGHT_TO_LEFT), k, x, e, c, env, tenv, st, tst);
    if EvalX(w, k, x.rule.Fal(), e, env, st) == Backwards(w, k, x.rule.Fal(), e, env, st) {
      forall pick: Pick
        ensures SameX(EvalX(w, k, x.rule.Fal(), e, env, st),
                      TEvalX(LowerWorld(w, pick), k, LowerExpr(CfgOf(x), e, c).0, tenv, tst))
      {
        TwoInOrder(w, LowerWorld(w, pick), k, x, e, c, env, tenv, st, tst);
      }
    }
  }
}
