/** The emitted program does what the source program means. */
module Preservation {
  import opened Ast
  import opened Options
  import opened Semantics
  import opened Kinding
  import opened Cpp
  import opened Lowering
  import opened Support
  import opened Flags
  import opened Frames
  import opened Ordering

  // ---------- how a C++ scope runs ----------

  lemma {:induction false} UnwindFirst(tw: TWorld, k: nat, g: Guard, gs: seq<Guard>, out: Out, st: TState)
    ensures var u := Unwind(tw, k, gs, out, st);
      Unwind(tw, k, [g] + gs, out, st) == (if u.out.Timeout? then u else Unwind(tw, k, [g], out, u.st))
      && (u.out == out || u.out.Timeout?)
    decreases |gs|
  {
    if !out.Timeout? && gs != [] && k > 0 {
      var n := |gs| - 1;
      assert ([g] + gs)[|gs|] == gs[n] && ([g] + gs)[..|gs|] == [g] + gs[..n];
      var r := TScope(tw, k - 1, gs[n].body, gs[n].env, st);
      if !r.out.Timeout? { UnwindFirst(tw, k, g, gs[..n], out, r.st); }
    } else {
      assert gs == [] ==> [g] + gs == [g];
    }
  }

  predicate IsDecl(t: TStmt) { t.TDecl? || t.TTemp? || t.TGuard? }

  lemma ScopeStmt(tw: TWorld, k: nat, t: TStmt, ts: seq<TStmt>, env: TEnv, st: TState)
    requires !IsDecl(t)
    ensures var r := TExec(tw, k, t, env, st);
      TScope(tw, k, [t] + ts, env, st) == if r.out.Normal? then TScope(tw, k, ts, env, r.st) else r
  {
    assert ([t] + ts)[1..] == ts;
  }

  lemma ScopeDecl(tw: TWorld, k: nat, x: string, e: TExpr, ts: seq<TStmt>, env: TEnv, st: TState)
    ensures var r := TEvalX(tw, k, e, env, st);
      TScope(tw, k, [TDecl(x, e)] + ts, env, st) ==
        if r.TGone? then TEnd(r.out, r.st)
        else
          var (vars, base) := Bind(env.vars, r.st.base, x, r.v);
          TScope(tw, k, ts, env.(vars := vars), r.st.(base := base))
  {
    assert ([TDecl(x, e)] + ts)[1..] == ts;
  }

  // The guard's lambda runs once the rest of its scope is finished and unwound.
  lemma ScopeGuard(tw: TWorld, k: nat, t: TStmt, ts: seq<TStmt>, env: TEnv, st: TState)
    requires t.TGuard?
    ensures var u := TScope(tw, k, ts, env, st);
      TScope(tw, k, [t] + ts, env, st) ==
        if u.out.Timeout? then u
        else if k == 0 then TEnd(Timeout, u.st)
        else
          var d := TScope(tw, k - 1, GuardBody(t), env, u.st);
          if d.out.Timeout? then d else TEnd(u.out, d.st)
  {
    assert ([t] + ts)[1..] == ts;
    var r := TList(tw, k, ts, env, st);
    var g := Guard(GuardBody(t), env);
    UnwindFirst(tw, k, g, r.guards, r.out, r.st);
    var u := TScope(tw, k, ts, env, st);
    if !u.out.Timeout? { assert [g][..0] == []; }
  }

  lemma ScopeOne(tw: TWorld, k: nat, t: TStmt, env: TEnv, st: TState)
    requires !IsDecl(t)
    ensures TScope(tw, k, [t], env, st) == TExec(tw, k, t, env, st)
  {
    ScopeStmt(tw, k, t, [], env, st);
    assert [t] + [] == [t];
  }

  lemma ScopeNil(tw: TWorld, k: nat, env: TEnv, st: TState)
    ensures TScope(tw, k, [], env, st) == TEnd(Normal, st)
  {}

  // ---------- lowering of programs and lists ----------

  function LowerWorld(w: World, pick: Pick): TWorld { TWorld(w, LowerFns(w.prog.errs, w.prog.fns), pick) }

  lemma {:induction false} LowerFind(errs: seq<ErrDecl>, fns: seq<FnDecl>, f: string)
    ensures FindT(LowerFns(errs, fns), f) ==
      match FindFn(fns, f) { case None => None case Some(fn) => Some(LowerFn(errs, fn)) }
  {
    if fns != [] {
      var ts := LowerFns(errs, fns);
      assert ts[1..] == LowerFns(errs, fns[1..]);
      LowerFind(errs, fns[1..], f);
    }
  }

  lemma {:induction false} LowerAppend(g: Cfg, a: Block, b: Block, c: Cnt)
    ensures var (ta, c1) := LowerList(g, a, c);
      var (tb, c2) := LowerList(g, b, c1);
      LowerList(g, a + b, c) == (ta + tb, c2)
  {
    if a == [] {
      assert a + b == b;
      var tb := LowerList(g, b, c).0;
      assert [] + tb == tb;
    } else {
      assert (a + b)[1..] == a[1..] + b;
      var (t, c1) := LowerStmt(g, a[0], c);
      LowerAppend(g, a[1..], b, c1);
      var (ta, c2) := LowerList(g, a[1..], c1);
      var tb := LowerList(g, b, c2).0;
      assert t + (ta + tb) == (t + ta) + tb;
    }
  }

  lemma FullBodyLowered(errs: seq<ErrDecl>, fn: FnDecl)
    ensures LowerFn(errs, fn).body == LowerList(FnCfg(errs, fn), FullBody(fn), Cnt(0, 0)).0
  {
    var g := FnCfg(errs, fn);
    if ImplicitReturn(fn) {
      LowerAppend(g, fn.body, [Ret(None)], Cnt(0, 0));
      var (_, c1) := LowerList(g, fn.body, Cnt(0, 0));
      assert [Ret(None)][1..] == [];
      assert LowerList(g, [Ret(None)], c1).0 == SetFlag(g) + [TReturn(None, true)] + [];
    } else {
      assert fn.body + [] == fn.body;
    }
  }

  // Ending in `ret` and falling off the end of a `!void` body are the same success.
  lemma {:induction false} FallOff(w: World, k: nat, ss: Block, env: Env, st: State)
    ensures var r := ExecList(w, k, true, ss, env, st);
      var q := ExecList(w, k, true, ss + [Ret(None)], env, st);
      q.st == r.st && q.out == if r.out.Normal? then Leave(Good(Unit)) else r.out
    decreases |ss|
  {
    var ext := ss + [Ret(None)];
    if ss == [] {
      assert ext == [Ret(None)];
    } else {
      assert ext[0] == ss[0] && ext[1..] == ss[1..] + [Ret(None)];
      var s := ss[0];
      if s.VarDecl? {
        var r := EvalX(w, k, true, s.init, env, st);
        EvalXOut(w, k, true, s.init, env, st);
        if r.Got? {
          var (env1, st1) := Bind(env, r.st, s.x, r.v);
          FallOff(w, k, ss[1..], env1, st1);
        }
      } else if s.Defer? || s.ErrDefer? {
        FallOff(w, k, ss[1..], env, st);
      } else {
        FallOff(w, k, ss[1..], env, Exec(w, k, true, s, env, st).st);
        if |ss| == 1 { assert ss[1..] == []; }
      }
    }
  }

  // ---------- the two runs agree ----------

  ghost predicate Ctx(w: World, tw: TWorld, x: Place) {
    && Setting(w, x.rule) && !x.rule.strict
    && tw == LowerWorld(w, tw.pick)
    && SProgram(w.prog, x.rule.names, x.ltr) && (x.ltr ==> tw.pick == LEFT_TO_RIGHT)
    && (x.flag ==> x.rule.Fal())
  }

  function CfgOf(x: Place): Cfg { Cfg(x.rule.prog.errs, x.rule.Fal(), x.flag) }

  ghost predicate Related(x: Place, env: Env, tenv: TEnv, st: State, tst: TState) {
    && tenv.vars == env && tst.base == st
    && EnvOk(x.rule, env, st.store)
  }

  // Outside deferred code `_fn_ok` is false until a `ret` that is not an error by its
  // shape is reached, and true from then on.
  predicate Unset(x: Place, ok: bool) { x.flag && !x.dfr ==> ok == x.late }

  // The flag says how the function is being left, unless it was set too early.
  predicate FlagSays(x: Place, ok0: bool, out: Out, ok: bool) {
    if x.flag && !x.late && out.Leave? then ok == !out.v.Bad?
    else out.Timeout? || ok == ok0
  }

  predicate Legal(x: Place, out: Out) {
    && (out.Brk? || out.Cont? ==> x.loop)
    && (out.Leave? ==> !x.dfr)
  }

  predicate Agrees(x: Place, ok0: bool, out: Out, st: State, t: TEnd) {
    && t.out == out && t.st.base == st && Legal(x, out)
    && FlagSays(x, ok0, out, t.st.ok)
  }

  predicate AgreesX(x: Place, ok0: bool, r: ERes, t: TERes) {
    && t.st.base == r.st
    && (r.Got? ==> t.TGot? && t.v == r.v && t.st.ok == ok0)
    && (r.Gone? ==>
          t.TGone? && t.out == r.out && !r.out.Normal? && Legal(x, r.out) && FlagSays(x, ok0, r.out, t.st.ok))
  }

  predicate AgreesAll(x: Place, ok0: bool, r: EAll, t: TEAll) {
    && t.st.base == r.st
    && (r.GotAll? ==> t.TGotAll? && t.vs == r.vs && t.st.ok == ok0)
    && (r.GoneAll? ==>
          t.TGoneAll? && t.out == r.out && !r.out.Normal? && Legal(x, r.out) && FlagSays(x, ok0, r.out, t.st.ok))
  }

  lemma {:induction false} SimCall(w: World, tw: TWorld, k: nat, x: Place, f: string, vs: seq<Val>, st: State,
                                   tst: TState)
    requires Ctx(w, tw, x) && PlainVals(vs) && tst.base == st && Started(w.prog, st.store)
    ensures var r := CallNamed(w, k, f, vs, st);
      var t := TCallNamed(tw, k, f, vs, tst);
      && t.st.base == r.st
      && (r.Got? ==> t.TGot? && t.v == r.v && t.st.ok == tst.ok)
      && (r.Gone? ==> t.TGone? && t.out == r.out && r.out.Timeout?)
    decreases k, 0
  {
    LowerFind(w.prog.errs, w.prog.fns, f);
    var found := FindFn(w.prog.fns, f);
    if found.Some? && k > 0 {
      var i := FoundFn(w.prog.fns, f);
      assert SFn(w.prog, x.rule.names, x.ltr, w.prog.fns[i]) && KFn(w.prog, x.rule.names, false, w.prog.fns[i]);
      SimFn(w, tw, k - 1, FnPlace(w.prog, x.rule.names, x.ltr, found.value), found.value, vs, st, tst);
    }
  }

  lemma {:induction false} SimFn(w: World, tw: TWorld, k: nat, x: Place, fn: FnDecl, vs: seq<Val>, st: State,
                                 tst: TState)
    requires Ctx(w, tw, x) && x == FnPlace(w.prog, x.rule.names, x.ltr, fn)
    requires KFn(w.prog, x.rule.names, false, fn) && SFn(w.prog, x.rule.names, x.ltr, fn)
    requires PlainVals(vs) && tst.base == st && Started(w.prog, st.store)
    ensures var r := CallFn(w, k, fn, vs, st);
      var t := TCallFn(tw, k, LowerFn(w.prog.errs, fn), vs, tst);
      && t.st.base == r.st
      && (r.Got? ==> t.TGot? && t.v == r.v && t.st.ok == tst.ok)
      && (r.Gone? ==> t.TGone? && t.out == r.out && r.out.Timeout?)
    decreases k, 3
  {
    SupportedCompiles(w.prog.errs, x, fn);
    CalleeOk(x.rule, fn, vs, st);
    var (env, st1) := BindParams(fn.params, vs, GlobalEnv(w.prog.globals), st);
    SimBody(w, tw, k, x, fn, env, st1);
  }

  lemma {:induction false} SimBody(w: World, tw: TWorld, k: nat, x: Place, fn: FnDecl, env: Env, st: State)
    requires Ctx(w, tw, x) && x == FnPlace(w.prog, x.rule.names, x.ltr, fn) && EnvOk(x.rule, env, st.store)
    requires KFn(w.prog, x.rule.names, false, fn) && SFn(w.prog, x.rule.names, x.ltr, fn)
    ensures var r := ExecList(w, k, x.rule.Fal(), fn.body, env, st);
      var u := TScope(tw, k, LowerFn(w.prog.errs, fn).body, TEnv(env, map[]), TState(st, false));
      && u.st.base == r.st
      && u.out == (if r.out.Normal? && ImplicitReturn(fn) then Leave(Good(Unit)) else r.out)
      && (u.out.Leave? || u.out.Timeout? || (u.out.Normal? && !fn.ret.Fallible?))
    decreases k, 2
  {
    FullBodyLowered(w.prog.errs, fn);
    var full := FullBody(fn);
    assert KList(x.rule, full);
    SimList(w, tw, k, x, full, Cnt(0, 0), env, TEnv(env, map[]), st, TState(st, false));
    if ImplicitReturn(fn) {
      FallOff(w, k, fn.body, env, st);
    } else {
      assert full == fn.body;
      if !fn.ret.isVoid || fn.ret.Fallible? {
        assert Leaves(fn.body);
        LeavesIsLeft(w, k, x.rule.Fal(), fn.body, env, st);
      }
    }
  }

  lemma {:induction false} SimX(w: World, tw: TWorld, k: nat, x: Place, e: Expr, c: Cnt, env: Env, tenv: TEnv,
                                st: State, tst: TState)
    requires Ctx(w, tw, x) && Related(x, env, tenv, st, tst) && Unset(x, tst.ok)
    requires KAny(x.rule, e) && SExpr(x, e)
    ensures AgreesX(x, tst.ok, EvalX(w, k, x.rule.Fal(), e, env, st),
                    TEvalX(tw, k, LowerExpr(CfgOf(x), e, c).0, tenv, tst))
    decreases k, 1, e, 7
  {
    if KVal(x.rule, e) && !IsAtom(e) && !IsControl(e) { assert KForm(e) && KOps(x.rule, e); }
    if IsAtom(e) {
      assert LowerExpr(CfgOf(x), e, c).0 == TPure(e);
    } else if IsLogic(e) {
      SimLogic(w, tw, k, x, e, c, env, tenv, st, tst);
    } else if IsOp(e) {
      SimOp(w, tw, k, x, e, c, env, tenv, st, tst);
    } else if e.Assign? {
      SimX(w, tw, k, x, e.rhs, c, env, tenv, st, tst);
    } else if e.Try? {
      SimTry(w, tw, k, x, e, c, env, tenv, st, tst);
    } else if e.CatchElse? {
      SimElse(w, tw, k, x, e, c, env, tenv, st, tst);
    } else {
      SimCatch(w, tw, k, x, e, c, env, tenv, st, tst);
    }
  }

  // `and` and `or` evaluate their right operand in the same cases.
  lemma {:induction false} SimLogic(w: World, tw: TWorld, k: nat, x: Place, e: Expr, c: Cnt, env: Env, tenv: TEnv,
                                    st: State, tst: TState)
    requires Ctx(w, tw, x) && Related(x, env, tenv, st, tst) && Unset(x, tst.ok)
    requires IsLogic(e) && KOps(x.rule, e) && SExpr(x, e)
    ensures AgreesX(x, tst.ok, EvalX(w, k, x.rule.Fal(), e, env, st),
                    TEvalX(tw, k, LowerExpr(CfgOf(x), e, c).0, tenv, tst))
    decreases k, 1, e, 3
  {
    assert Operands(e)[0] == e.left && Operands(e)[1] == e.right;
    var (t, c1) := LowerExpr(CfgOf(x), e.left, c);
    SimX(w, tw, k, x, e.left, c, env, tenv, st, tst);
    var r := EvalX(w, k, x.rule.Fal(), e.left, env, st);
    if r.Got? {
      KindX(w, k, x.rule, e.left, env, st);
      EnvGrows(x.rule, env, st.store, r.st.store);
      SimX(w, tw, k, x, e.right, c1, env, tenv, r.st, TEvalX(tw, k, t, tenv, tst).st);
    }
  }

  lemma {:induction false} SimOp(w: World, tw: TWorld, k: nat, x: Place, e: Expr, c: Cnt, env: Env, tenv: TEnv,
                                 st: State, tst: TState)
    requires Ctx(w, tw, x) && Related(x, env, tenv, st, tst) && Unset(x, tst.ok)
    requires IsOp(e) && KForm(e) && KOps(x.rule, e) && SExpr(x, e)
    ensures AgreesX(x, tst.ok, EvalX(w, k, x.rule.Fal(), e, env, st),
                    TEvalX(tw, k, LowerExpr(CfgOf(x), e, c).0, tenv, tst))
    decreases k, 1, e, 6
  {
    SimOperands(w, tw, k, x, e, c, env, tenv, st, tst);
    var o := OperOf(e);
    if o.OCall? {
      KindOps(w, k, x.rule, e, 0, env, st);
      var r := EvalOps(w, k, x.rule.Fal(), e, 0, env, st);
      var t := LowerExpr(CfgOf(x), e, c).0;
      var q := TOperands(tw, k, t, All(|t.args|), Blank(|t.args|), tenv, tst);
      if r.GotAll? { SimCall(w, tw, k, x, o.f, r.vs, r.st, q.st); }
    }
  }

  // An operand as a number among its siblings, and the counter with which it is lowered.
  lemma {:induction false} LoweredOp(g: Cfg, e: Expr, i: nat, m: nat, c: Cnt) returns (cm: Cnt)
    requires i + m < |Operands(e)|
    ensures LowerOps(g, e, i, c).0[m] == LowerExpr(g, Operands(e)[i + m], cm).0
    decreases m
  {
    if m == 0 { cm := c; } else {
      cm := LoweredOp(g, e, i + 1, m - 1, LowerExpr(g, Operands(e)[i], c).1);
    }
  }

  lemma {:induction false} SimOperand(w: World, tw: TWorld, k: nat, x: Place, e: Expr, m: nat, c: Cnt, env: Env,
                                      tenv: TEnv, st: State, tst: TState)
    requires Ctx(w, tw, x) && Related(x, env, tenv, st, tst) && Unset(x, tst.ok)
    requires IsOp(e) && KOps(x.rule, e) && SOps(x, e) && m < |Operands(e)|
    ensures AgreesX(x, tst.ok, EvalX(w, k, x.rule.Fal(), Operands(e)[m], env, st),
                    TEvalX(tw, k, LowerExpr(CfgOf(x), e, c).0.args[m], tenv, tst))
    decreases k, 1, e, 1
  {
    var cm := LoweredOp(CfgOf(x), e, 0, m, c);
    SimX(w, tw, k, x, Operands(e)[m], cm, env, tenv, st, tst);
  }

  function ValOf(r: ERes): Val { if r.Got? then r.v else Unit }

  // A pure operand, evaluated before or after another one has yielded its value.
  lemma {:induction false} SimPureOperand(w: World, tw: TWorld, k: nat, x: Place, e: Expr, m: nat, c: Cnt,
                                          env: Env, tenv: TEnv, st: State, tst: TState, st1: State, tst1: TState,
                                          lo: nat)
    requires Ctx(w, tw, x) && Related(x, env, tenv, st, tst) && Unset(x, tst.ok)
    requires IsOp(e) && KOps(x.rule, e) && SExpr(x, e) && m < |Operands(e)| && Pure(Operands(e)[m])
    requires Grows(st.store, st1.store) && Keeps(lo, |st.store|, st.store, st1.store)
    requires lo == 0 || (lo == Globals(w) && NoGlobals(w.prog.globals, Operands(e)[m]))
    requires tst1 == TState(st1, tst.ok)
    ensures var v := ValOf(EvalX(w, k, x.rule.Fal(), Operands(e)[m], env, st));
      && EvalX(w, k, x.rule.Fal(), Operands(e)[m], env, st1) == Got(v, st1)
      && TEvalX(tw, k, LowerExpr(CfgOf(x), e, c).0.args[m], tenv, tst1) == TGot(v, tst1)
    decreases k, 1, e, 2
  {
    PureSame(w, k, x.rule.Fal(), Operands(e)[m], env, st, st1, lo);
    EnvGrows(x.rule, env, st.store, st1.store);
    SimOperand(w, tw, k, x, e, m, c, env, tenv, st1, tst1);
  }

  // The cells that the j-th operand leaves alone begin here.
  function From(w: World, e: Expr, j: nat): nat
    requires j < |Operands(e)|
  {
    if CallFree(Operands(e)[j]) then 0 else Globals(w)
  }

  // The operand that may do something.
  lemma {:induction false} SimActive(w: World, tw: TWorld, k: nat, x: Place, e: Expr, j: nat, c: Cnt,
                                     env: Env, tenv: TEnv, st: State, tst: TState)
    requires Ctx(w, tw, x) && Related(x, env, tenv, st, tst) && Unset(x, tst.ok)
    requires IsOp(e) && KOps(x.rule, e) && SExpr(x, e) && j < |Operands(e)| && OneAt(w.prog.globals, e, j)
    ensures var r := EvalX(w, k, x.rule.Fal(), Operands(e)[j], env, st);
      && AgreesX(x, tst.ok, r, TEvalX(tw, k, LowerExpr(CfgOf(x), e, c).0.args[j], tenv, tst))
      && (r.Got? && |Operands(e)| > 1 ==>
            Grows(st.store, r.st.store) && Keeps(From(w, e, j), |st.store|, st.store, r.st.store))
    decreases k, 1, e, 2
  {
    SimOperand(w, tw, k, x, e, j, c, env, tenv, st, tst);
    KindX(w, k, x.rule, Operands(e)[j], env, st);
    if |Operands(e)| > 1 { NoWritesKeeps(w, k, x.rule.Fal(), Operands(e)[j], env, st, From(w, e, j)); }
  }

  // What the operand that may do something ends in; nothing happens if there is none.
  function ActiveS(w: World, k: nat, fal: bool, e: Expr, j: nat, env: Env, st: State): ERes {
    if j < |Operands(e)| then EvalX(w, k, fal, Operands(e)[j], env, st) else Got(Unit, st)
  }

  function ActiveT(tw: TWorld, k: nat, t: TExpr, j: nat, env: TEnv, st: TState): TERes
    requires t.TOp?
  {
    if j < |t.args| then TEvalX(tw, k, t.args[j], env, st) else TGot(Unit, st)
  }

  lemma {:induction false} SimEach(w: World, tw: TWorld, k: nat, x: Place, e: Expr, j: nat, vs: seq<Val>, c: Cnt,
                                   env: Env, tenv: TEnv, st: State, tst: TState)
    requires Ctx(w, tw, x) && Related(x, env, tenv, st, tst) && Unset(x, tst.ok)
    requires IsOp(e) && KOps(x.rule, e) && SExpr(x, e) && j <= |Operands(e)| && OneAt(w.prog.globals, e, j)
    requires |vs| == |Operands(e)|
    requires forall m | 0 <= m < |vs| :: vs[m] == ValOf(EvalX(w, k, x.rule.Fal(), Operands(e)[m], env, st))
    ensures var t := LowerExpr(CfgOf(x), e, c).0;
      var r := ActiveS(w, k, x.rule.Fal(), e, j, env, st);
      var q := ActiveT(tw, k, t, j, tenv, tst);
      && AgreesX(x, tst.ok, r, q)
      && SourceOps(w, k, x.rule.Fal(), e, j, vs, env, st, r) && TargetOps(tw, k, t, j, vs, tenv, tst, q)
    decreases k, 1, e, 3
  {
    var r := ActiveS(w, k, x.rule.Fal(), e, j, env, st);
    var q := ActiveT(tw, k, LowerExpr(CfgOf(x), e, c).0, j, tenv, tst);
    if j < |vs| { SimActive(w, tw, k, x, e, j, c, env, tenv, st, tst); }
    forall m | 0 <= m < |vs| && m != j
      ensures EvalX(w, k, x.rule.Fal(), Operands(e)[m], env, st) == Got(vs[m], st)
      ensures TEvalX(tw, k, LowerExpr(CfgOf(x), e, c).0.args[m], tenv, tst) == TGot(vs[m], tst)
    {
      SimPureOperand(w, tw, k, x, e, m, c, env, tenv, st, tst, st, tst, 0);
    }
    if r.Got? {
      forall m | 0 <= m < |vs| && m != j
        ensures EvalX(w, k, x.rule.Fal(), Operands(e)[m], env, r.st) == Got(vs[m], r.st)
        ensures TEvalX(tw, k, LowerExpr(CfgOf(x), e, c).0.args[m], tenv, q.st) == TGot(vs[m], q.st)
      {
        SimPureOperand(w, tw, k, x, e, m, c, env, tenv, st, tst, r.st, q.st, if j < |vs| then From(w, e, j) else 0);
      }
    }
  }

  /** All operands of one operation: evaluated left to right in the source, in any order
      in the emitted program. */
  lemma {:induction false} SimAnyOrder(w: World, tw: TWorld, k: nat, x: Place, e: Expr, c: Cnt,
                                       env: Env, tenv: TEnv, st: State, tst: TState)
    requires Ctx(w, tw, x) && Related(x, env, tenv, st, tst) && Unset(x, tst.ok)
    requires IsOp(e) && KOps(x.rule, e) && SExpr(x, e) && Orderly(w.prog.globals, e)
    ensures var t := LowerExpr(CfgOf(x), e, c).0;
      AgreesAll(x, tst.ok, EvalOps(w, k, x.rule.Fal(), e, 0, env, st),
                TOperands(tw, k, t, All(|t.args|), Blank(|t.args|), tenv, tst))
    decreases k, 1, e, 4
  {
    var fal, n, t := x.rule.Fal(), |Operands(e)|, LowerExpr(CfgOf(x), e, c).0;
    var j :| 0 <= j <= n && OneAt(w.prog.globals, e, j);
    var vs := seq(n, m requires 0 <= m < n => ValOf(EvalX(w, k, fal, Operands(e)[m], env, st)));
    SimEach(w, tw, k, x, e, j, vs, c, env, tenv, st, tst);
    LeftToRight(w, k, fal, e, 0, j, vs, env, st, ActiveS(w, k, fal, e, j, env, st));
    AllOperands(tw, k, t, j, vs, tenv, tst, ActiveT(tw, k, t, j, tenv, tst));
    assert vs[0..] == vs;
  }

  // A compiler that goes from left to right, from the i-th operand on.
  lemma {:induction false} SimInOrder(w: World, tw: TWorld, k: nat, x: Place, e: Expr, i: nat, c: Cnt,
                                      env: Env, tenv: TEnv, st: State, tst: TState)
    requires Ctx(w, tw, x) && Related(x, env, tenv, st, tst) && Unset(x, tst.ok)
    requires IsOp(e) && KOps(x.rule, e) && SOps(x, e) && i <= |Operands(e)|
    ensures AgreesAll(x, tst.ok, EvalOps(w, k, x.rule.Fal(), e, i, env, st),
                      InOrder(tw, k, LowerExpr(CfgOf(x), e, c).0, i, tenv, tst))
    decreases k, 1, e, 2, |Operands(e)| - i
  {
    if i < |Operands(e)| {
      SimOperand(w, tw, k, x, e, i, c, env, tenv, st, tst);
      var r := EvalX(w, k, x.rule.Fal(), Operands(e)[i], env, st);
      var q := TEvalX(tw, k, LowerExpr(CfgOf(x), e, c).0.args[i], tenv, tst);
      if r.Got? {
        KindX(w, k, x.rule, Operands(e)[i], env, st);
        EnvGrows(x.rule, env, st.store, r.st.store);
        SimInOrder(w, tw, k, x, e, i + 1, c, env, tenv, r.st, q.st);
      }
    }
  }

  lemma {:induction false} SimOperands(w: World, tw: TWorld, k: nat, x: Place, e: Expr, c: Cnt,
                                       env: Env, tenv: TEnv, st: State, tst: TState)
    requires Ctx(w, tw, x) && Related(x, env, tenv, st, tst) && Unset(x, tst.ok)
    requires IsOp(e) && KOps(x.rule, e) && SExpr(x, e)
    ensures var t := LowerExpr(CfgOf(x), e, c).0;
      AgreesAll(x, tst.ok, EvalOps(w, k, x.rule.Fal(), e, 0, env, st),
                TOperands(tw, k, t, All(|t.args|), Blank(|t.args|), tenv, tst))
    decreases k, 1, e, 5
  {
    if x.ltr {
      var t := LowerExpr(CfgOf(x), e, c).0;
      var us := Blank(|t.args|);
      SimInOrder(w, tw, k, x, e, 0, c, env, tenv, st, tst);
      GoesInOrder(tw, k, t, 0, All(|us|), us, tenv, tst);
      var q := InOrder(tw, k, t, 0, tenv, tst);
      if q.TGotAll? { assert us[..0] + q.vs == q.vs; }
    } else {
      SimAnyOrder(w, tw, k, x, e, c, env, tenv, st, tst);
    }
  }

  // The statements that both forms of `try` are written as.
  function TryStmts(n: nat, t: TExpr): seq<TStmt> {
    [TTemp(n, t), TIf(TIsBad(n), [TReturn(Some(TErrOf(n)), true)], TNoElse)]
  }

  lemma ListTemp(tw: TWorld, k: nat, n: nat, t: TExpr, ts: seq<TStmt>, env: TEnv, st: TState)
    ensures var r := TEvalX(tw, k, t, env, st);
      TList(tw, k, [TTemp(n, t)] + ts, env, st) ==
        if r.TGone? then TRes(r.out, r.st, env, [])
        else TList(tw, k, ts, env.(temps := env.temps[n := r.v]), r.st)
  {
    assert ([TTemp(n, t)] + ts)[1..] == ts;
  }

  lemma ListOne(tw: TWorld, k: nat, t: TStmt, env: TEnv, st: TState)
    requires !IsDecl(t)
    ensures var r := TExec(tw, k, t, env, st);
      TList(tw, k, [t], env, st) == TRes(r.out, r.st, env, [])
  {
    assert [t][1..] == [];
  }

  lemma TryRun(tw: TWorld, k: nat, n: nat, t: TExpr, env: TEnv, st: TState)
    ensures var r := TEvalX(tw, k, t, env, st);
      TList(tw, k, TryStmts(n, t), env, st) ==
        if r.TGone? then TRes(r.out, r.st, env, [])
        else TRes(if r.v.Bad? then Leave(r.v) else Normal, r.st, env.(temps := env.temps[n := r.v]), [])
  {
    var r := TEvalX(tw, k, t, env, st);
    var s := TIf(TIsBad(n), [TReturn(Some(TErrOf(n)), true)], TNoElse);
    assert TryStmts(n, t) == [TTemp(n, t)] + [s];
    ListTemp(tw, k, n, t, [s], env, st);
    if r.TGot? {
      var env1 := env.(temps := env.temps[n := r.v]);
      ListOne(tw, k, s, env1, r.st);
      assert Temp(env1, n) == r.v;
      ScopeOne(tw, k, TReturn(Some(TErrOf(n)), true), env1, r.st);
      ScopeNil(tw, k, env1, r.st);
      assert TExec(tw, k, TReturn(Some(TErrOf(n)), true), env1, r.st) == TEnd(Leave(Wrap(ErrOf(r.v))), r.st);
    }
  }

  // A statement expression, and a block, without guards of their own.
  lemma StmtExprRun(tw: TWorld, k: nat, ss: seq<TStmt>, result: TExpr, env: TEnv, st: TState)
    requires TList(tw, k, ss, env, st).guards == []
    ensures var l := TList(tw, k, ss, env, st);
      TEvalX(tw, k, TStmtExpr(ss, result), env, st) ==
        if l.out.Normal? then TEvalX(tw, k, result, l.env, l.st) else TGone(l.out, l.st)
  {}

  lemma BlockRun(tw: TWorld, k: nat, ss: seq<TStmt>, env: TEnv, st: TState)
    requires TList(tw, k, ss, env, st).guards == []
    ensures var l := TList(tw, k, ss, env, st);
      TExec(tw, k, TBlock(ss), env, st) == TEnd(l.out, l.st)
  {
    assert TScope(tw, k, ss, env, st) == TEnd(TList(tw, k, ss, env, st).out, TList(tw, k, ss, env, st).st);
  }

  lemma {:induction false} SimTry(w: World, tw: TWorld, k: nat, x: Place, e: Expr, c: Cnt, env: Env, tenv: TEnv,
                                  st: State, tst: TState)
    requires Ctx(w, tw, x) && Related(x, env, tenv, st, tst) && Unset(x, tst.ok)
    requires e.Try? && KVal(x.rule, e) && SExpr(x, e)
    ensures AgreesX(x, tst.ok, EvalX(w, k, x.rule.Fal(), e, env, st),
                    TEvalX(tw, k, LowerExpr(CfgOf(x), e, c).0, tenv, tst))
    decreases k, 1, e, 0
  {
    var t := LowerExpr(CfgOf(x), e.tried, NextTry(c)).0;
    SimX(w, tw, k, x, e.tried, NextTry(c), env, tenv, st, tst);
    TryRun(tw, k, c.tries, t, tenv, tst);
    StmtExprRun(tw, k, TryStmts(c.tries, t), TValOf(c.tries), tenv, tst);
    assert LowerExpr(CfgOf(x), e, c).0 == TStmtExpr(TryStmts(c.tries, t), TValOf(c.tries));
  }

  lemma {:induction false} SimElse(w: World, tw: TWorld, k: nat, x: Place, e: Expr, c: Cnt, env: Env, tenv: TEnv,
                                   st: State, tst: TState)
    requires Ctx(w, tw, x) && Related(x, env, tenv, st, tst)
    requires e.CatchElse? && KVal(x.rule, e) && SExpr(x, e) && Unset(x, tst.ok)
    ensures AgreesX(x, tst.ok, EvalX(w, k, x.rule.Fal(), e, env, st),
                    TEvalX(tw, k, LowerExpr(CfgOf(x), e, c).0, tenv, tst))
    decreases k, 1, e, 0
  {
    var n := c.tries;
    var (t, c1) := LowerExpr(CfgOf(x), e.tried, NextTry(c));
    var f := LowerExpr(CfgOf(x), e.fallback, c1).0;
    assert LowerExpr(CfgOf(x), e, c).0 == TStmtExpr([TTemp(n, t)], TPick(n, f));
    SimX(w, tw, k, x, e.tried, NextTry(c), env, tenv, st, tst);
    ElseRun(tw, k, n, t, f, tenv, tst);
    var r := EvalX(w, k, x.rule.Fal(), e.tried, env, st);
    if r.Got? && r.v.Bad? {
      KindX(w, k, x.rule, e.tried, env, st);
      EnvGrows(x.rule, env, st.store, r.st.store);
      var tr := TEvalX(tw, k, t, tenv, tst);
      var tenv1 := tenv.(temps := tenv.temps[n := r.v]);
      SimX(w, tw, k, x, e.fallback, c1, env, tenv1, r.st, tr.st);
    }
  }

  lemma ElseRun(tw: TWorld, k: nat, n: nat, t: TExpr, f: TExpr, env: TEnv, st: TState)
    ensures var r := TEvalX(tw, k, t, env, st);
      TEvalX(tw, k, TStmtExpr([TTemp(n, t)], TPick(n, f)), env, st) ==
        if r.TGone? && !r.out.Normal? then r
        else if r.TGone? then TEvalX(tw, k, TPick(n, f), env, r.st)
        else if r.v.Bad? then TEvalX(tw, k, f, env.(temps := env.temps[n := r.v]), r.st)
        else TGot(ValueOf(r.v), r.st)
  {
    var r := TEvalX(tw, k, t, env, st);
    assert [TTemp(n, t)] == [TTemp(n, t)] + [];
    ListTemp(tw, k, n, t, [], env, st);
    StmtExprRun(tw, k, [TTemp(n, t)], TPick(n, f), env, st);
    if r.TGot? {
      assert Temp(env.(temps := env.temps[n := r.v]), n) == r.v;
    }
  }

  // `catch` with a block: the block runs in the scope of an if statement.
  lemma {:induction false} SimHandler(w: World, tw: TWorld, k: nat, x: Place, ev: Option<string>, b: Block, c: Cnt,
                                      n: nat, v: Val,
                     env: Env, tenv: TEnv, st: State, tst: TState)
    requires Ctx(w, tw, x) && Related(x, env, tenv, st, tst) && Unset(x, tst.ok) && !x.top
    requires KList(x.rule, b) && SList(x, b) && (ev.Some? ==> ev.value in x.rule.errVars)
    requires Temp(tenv, n) == v && v.Bad?
    ensures var (env1, st1) := BindOpt(env, st, ev, ErrOf(v));
      var r := ExecList(w, k, x.rule.Fal(), b, env1, st1);
      Agrees(x, tst.ok, r.out, r.st, TScope(tw, k, CatchVar(ev, n) + LowerList(CfgOf(x), b, c).0, tenv, tst))
    decreases k, 1, b, 3
  {
    var ts := LowerList(CfgOf(x), b, c).0;
    var (env1, st1) := BindOpt(env, st, ev, ErrOf(v));
    match ev {
      case None => assert CatchVar(ev, n) + ts == ts;
      case Some(name) => ScopeDecl(tw, k, name, TErrOf(n), ts, tenv, tst);
    }
    SimList(w, tw, k, x, b, c, env1, tenv.(vars := env1), st1, tst.(base := st1));
  }

  function CatchStmts(n: nat, t: TExpr, ev: Option<string>, b: seq<TStmt>): seq<TStmt> {
    [TTemp(n, t), TIf(TIsBad(n), CatchVar(ev, n) + b, TNoElse)]
  }

  lemma CatchRun(tw: TWorld, k: nat, n: nat, t: TExpr, ev: Option<string>, b: seq<TStmt>, env: TEnv, st: TState)
    ensures var r := TEvalX(tw, k, t, env, st);
      TList(tw, k, CatchStmts(n, t, ev, b), env, st) ==
        if r.TGone? then TRes(r.out, r.st, env, [])
        else
          var env1 := env.(temps := env.temps[n := r.v]);
          if r.v.Bad? then
            var h := TScope(tw, k, CatchVar(ev, n) + b, env1, r.st);
            TRes(h.out, h.st, env1, [])
          else TRes(Normal, r.st, env1, [])
  {
    var r := TEvalX(tw, k, t, env, st);
    var s := TIf(TIsBad(n), CatchVar(ev, n) + b, TNoElse);
    assert CatchStmts(n, t, ev, b) == [TTemp(n, t)] + [s];
    ListTemp(tw, k, n, t, [s], env, st);
    if r.TGot? {
      var env1 := env.(temps := env.temps[n := r.v]);
      ListOne(tw, k, s, env1, r.st);
      assert Temp(env1, n) == r.v;
      ScopeNil(tw, k, env1, r.st);
    }
  }

  // What `catch` with a block makes of the result of the tried expression.
  predicate Caught(x: Place, ok0: bool, n: nat, q: ERes, h: Res, l: TRes) {
    && l.guards == []
    && (if q.Gone? then AgreesX(x, ok0, q, TGone(l.out, l.st))
        else if q.v.Bad? then Agrees(x, ok0, h.out, h.st, TEnd(l.out, l.st)) && Temp(l.env, n) == q.v
        else l.out.Normal? && l.st.base == q.st && l.st.ok == ok0 && Temp(l.env, n) == q.v)
  }

  function Handled(w: World, k: nat, fal: bool, e: Expr, env: Env, st: State): Res
    requires e.CatchBlock?
  {
    var q := EvalX(w, k, fal, e.tried, env, st);
    if q.Gone? then Res(q.out, q.st, Unit)
    else
      var (env1, st1) := BindOpt(env, q.st, e.errVar, ErrOf(q.v));
      ExecList(w, k, fal, e.handler, env1, st1)
  }

  function Catching(g: Cfg, e: Expr, c: Cnt): seq<TStmt>
    requires e.CatchBlock?
  {
    var (t, c1) := LowerExpr(g, e.tried, NextTry(c));
    CatchStmts(c.tries, t, e.errVar, LowerList(g, e.handler, c1).0)
  }

  predicate KCaught(c: Rule, e: Expr)
    requires e.CatchBlock?
  {
    KRes(c, e.tried) && (e.errVar.Some? ==> e.errVar.value in c.errVars) && KList(c, e.handler)
  }

  // The block runs in the scope of the caught error.
  lemma {:induction false} SimHandled(w: World, tw: TWorld, k: nat, x: Place, e: Expr, c: Cnt, env: Env, tenv: TEnv,
                                      st: State, tst: TState)
    requires Ctx(w, tw, x) && Related(x, env, tenv, st, tst) && Unset(x, tst.ok)
    requires e.CatchBlock? && KCaught(x.rule, e) && SList(x.Inner(), e.handler)
    requires var r := EvalX(w, k, x.rule.Fal(), e.tried, env, st); r.Got? && r.v.Bad?
    ensures var q := EvalX(w, k, x.rule.Fal(), e.tried, env, st);
      var h := Handled(w, k, x.rule.Fal(), e, env, st);
      var ts := CatchVar(e.errVar, c.tries) +
        LowerList(CfgOf(x), e.handler, LowerExpr(CfgOf(x), e.tried, NextTry(c)).1).0;
      Agrees(x, tst.ok, h.out, h.st,
             TScope(tw, k, ts, tenv.(temps := tenv.temps[c.tries := q.v]), TState(q.st, tst.ok)))
    decreases k, 1, e, 0
  {
    var r := EvalX(w, k, x.rule.Fal(), e.tried, env, st);
    KindX(w, k, x.rule, e.tried, env, st);
    EnvGrows(x.rule, env, st.store, r.st.store);
    var c1 := LowerExpr(CfgOf(x), e.tried, NextTry(c)).1;
    SimHandler(w, tw, k, x.Inner(), e.errVar, e.handler, c1, c.tries, r.v,
               env, tenv.(temps := tenv.temps[c.tries := r.v]), r.st, TState(r.st, tst.ok));
  }

  lemma {:induction false} SimCaught(w: World, tw: TWorld, k: nat, x: Place, e: Expr, c: Cnt, env: Env, tenv: TEnv,
                                     st: State, tst: TState)
    requires Ctx(w, tw, x) && Related(x, env, tenv, st, tst) && Unset(x, tst.ok)
    requires e.CatchBlock? && KCaught(x.rule, e) && SExpr(x, e.tried) && SList(x.Inner(), e.handler)
    ensures Caught(x, tst.ok, c.tries, EvalX(w, k, x.rule.Fal(), e.tried, env, st),
                   Handled(w, k, x.rule.Fal(), e, env, st), TList(tw, k, Catching(CfgOf(x), e, c), tenv, tst))
    decreases k, 1, e, 1
  {
    var n := c.tries;
    var (t, c1) := LowerExpr(CfgOf(x), e.tried, NextTry(c));
    SimX(w, tw, k, x, e.tried, NextTry(c), env, tenv, st, tst);
    CatchRun(tw, k, n, t, e.errVar, LowerList(CfgOf(x), e.handler, c1).0, tenv, tst);
    var r := EvalX(w, k, x.rule.Fal(), e.tried, env, st);
    if r.Got? && r.v.Bad? { SimHandled(w, tw, k, x, e, c, env, tenv, st, tst); }
  }

  lemma {:induction false} SimCatch(w: World, tw: TWorld, k: nat, x: Place, e: Expr, c: Cnt, env: Env, tenv: TEnv,
                                    st: State, tst: TState)
    requires Ctx(w, tw, x) && Related(x, env, tenv, st, tst) && Unset(x, tst.ok)
    requires e.CatchBlock? && KVal(x.rule, e) && SExpr(x, e)
    ensures AgreesX(x, tst.ok, EvalX(w, k, x.rule.Fal(), e, env, st),
                    TEvalX(tw, k, LowerExpr(CfgOf(x), e, c).0, tenv, tst))
    decreases k, 1, e, 2
  {
    var ss := Catching(CfgOf(x), e, c);
    assert LowerExpr(CfgOf(x), e, c).0 == TStmtExpr(ss, TValOf(c.tries));
    SimCaught(w, tw, k, x, e, c, env, tenv, st, tst);
    StmtExprRun(tw, k, ss, TValOf(c.tries), tenv, tst);
    var q := EvalX(w, k, x.rule.Fal(), e.tried, env, st);
    if q.Got? && q.v.Bad? {
      var (env1, st1) := BindOpt(env, q.st, e.errVar, ErrOf(q.v));
      LeavesIsLeft(w, k, x.rule.Fal(), e.handler, env1, st1);
    }
  }

  lemma {:induction false} SimList(w: World, tw: TWorld, k: nat, x: Place, ss: Block, c: Cnt, env: Env, tenv: TEnv,
                                   st: State, tst: TState)
    requires Ctx(w, tw, x) && Related(x, env, tenv, st, tst) && Unset(x, tst.ok)
    requires KList(x.rule, ss) && SList(x, ss) && (x.top ==> !x.loop && !x.dfr)
    ensures var r := ExecList(w, k, x.rule.Fal(), ss, env, st);
      Agrees(x, tst.ok, r.out, r.st, TScope(tw, k, LowerList(CfgOf(x), ss, c).0, tenv, tst))
    decreases k, 1, ss, 2
  {
    if ss != [] {
      var s := ss[0];
      assert KStmt(x.rule, s);
      if s.VarDecl? {
        SimDecl(w, tw, k, x, ss, c, env, tenv, st, tst);
      } else if s.Defer? || s.ErrDefer? {
        SimGuard(w, tw, k, x, ss, c, env, tenv, st, tst);
      } else if s.Ret? {
        SimRet(w, tw, k, x, ss, c, env, tenv, st, tst);
      } else {
        SimSeq(w, tw, k, x, ss, c, env, tenv, st, tst);
      }
    }
  }

  lemma {:induction false} SimDecl(w: World, tw: TWorld, k: nat, x: Place, ss: Block, c: Cnt, env: Env, tenv: TEnv,
                                   st: State, tst: TState)
    requires Ctx(w, tw, x) && Related(x, env, tenv, st, tst) && Unset(x, tst.ok)
    requires KList(x.rule, ss) && SList(x, ss) && (x.top ==> !x.loop && !x.dfr)
    requires ss != [] && ss[0].VarDecl?
    ensures var r := ExecList(w, k, x.rule.Fal(), ss, env, st);
      Agrees(x, tst.ok, r.out, r.st, TScope(tw, k, LowerList(CfgOf(x), ss, c).0, tenv, tst))
    decreases k, 1, ss, 1
  {
    var s := ss[0];
    assert KStmt(x.rule, s) && SStmt(x, s);
    var (t, c1) := LowerExpr(CfgOf(x), s.init, c);
    var ts := LowerList(CfgOf(x), ss[1..], c1).0;
    SimX(w, tw, k, x, s.init, c, env, tenv, st, tst);
    ScopeDecl(tw, k, s.x, t, ts, tenv, tst);
    var r := EvalX(w, k, x.rule.Fal(), s.init, env, st);
    if r.Got? {
      KindX(w, k, x.rule, s.init, env, st);
      EnvGrows(x.rule, env, st.store, r.st.store);
      var tr := TEvalX(tw, k, t, tenv, tst);
      var (env1, st1) := Bind(env, r.st, s.x, r.v);
      SimList(w, tw, k, x, ss[1..], c1, env1, tenv.(vars := env1), st1, tr.st.(base := st1));
    }
  }

  lemma {:induction false} SimGuard(w: World, tw: TWorld, k: nat, x: Place, ss: Block, c: Cnt, env: Env, tenv: TEnv,
                                    st: State, tst: TState)
    requires Ctx(w, tw, x) && Related(x, env, tenv, st, tst) && Unset(x, tst.ok)
    requires KList(x.rule, ss) && SList(x, ss) && (x.top ==> !x.loop && !x.dfr)
    requires ss != [] && (ss[0].Defer? || ss[0].ErrDefer?)
    ensures var r := ExecList(w, k, x.rule.Fal(), ss, env, st);
      Agrees(x, tst.ok, r.out, r.st, TScope(tw, k, LowerList(CfgOf(x), ss, c).0, tenv, tst))
    decreases k, 1, ss, 1
  {
    var s := ss[0];
    assert KStmt(x.rule, s) && SStmt(x, s);
    var (b, c0) := LowerList(CfgOf(x), s.deferred, c);
    var c1 := c0.(defers := c0.defers + 1);
    var ts := LowerList(CfgOf(x), ss[1..], c1).0;
    var t := TGuard(s.ErrDefer?, c.defers, b);
    assert LowerList(CfgOf(x), ss, c).0 == [t] + ts;
    ScopeGuard(tw, k, t, ts, tenv, tst);
    SimList(w, tw, k, x, ss[1..], c1, env, tenv, st, tst);
    var r := ExecList(w, k, x.rule.Fal(), ss[1..], env, st);
    var u := TScope(tw, k, ts, tenv, tst);
    if s.ErrDefer? {
      LeavesIsLeft(w, k, x.rule.Fal(), ss[1..], env, st);
    }
    if !r.out.Timeout? && k > 0 {
      KindList(w, k, x.rule, ss[1..], env, st);
      EnvGrows(x.rule, env, st.store, r.st.store);
      if s.ErrDefer? {
        ScopeOne(tw, k - 1, TIf(TNotOk, b, TNoElse), tenv, u.st);
        ScopeNil(tw, k - 1, tenv, u.st);
      }
      if s.Defer? || IsErrorExit(r.out) {
        SimList(w, tw, k - 1, x.InDefer(), s.deferred, c, env, tenv, r.st, u.st);
      }
    }
  }

  lemma {:induction false} SimRet(w: World, tw: TWorld, k: nat, x: Place, ss: Block, c: Cnt, env: Env, tenv: TEnv,
                                  st: State, tst: TState)
    requires Ctx(w, tw, x) && Related(x, env, tenv, st, tst) && Unset(x, tst.ok)
    requires KList(x.rule, ss) && SList(x, ss)
    requires ss != [] && ss[0].Ret?
    ensures var r := ExecList(w, k, x.rule.Fal(), ss, env, st);
      Agrees(x, tst.ok, r.out, r.st, TScope(tw, k, LowerList(CfgOf(x), ss, c).0, tenv, tst))
    decreases k, 1, ss, 1
  {
    var s := ss[0];
    assert KStmt(x.rule, s) && SStmt(x, s);
    var g := CfgOf(x);
    var (head, c1) := LowerStmt(g, s, c);
    var ts := LowerList(g, ss[1..], c1).0;
    var back := head[|head| - 1];
    assert head + ts == (if |head| == 2 then [TSetOk] else []) + ([back] + ts);
    var tst1 := if |head| == 2 then tst.(ok := true) else tst;
    if |head| == 2 {
      ScopeStmt(tw, k, TSetOk, [back] + ts, tenv, tst);
    } else {
      assert head + ts == [back] + ts;
    }
    ScopeStmt(tw, k, back, ts, tenv, tst1);
    if s.value.Some? { SimRetX(w, tw, k, x, s, c, env, tenv, st, tst); }
  }

  // The operand of `ret`, with `_fn_ok` as it is when the operand is evaluated.
  lemma {:induction false} SimRetX(w: World, tw: TWorld, k: nat, x: Place, s: Stmt, c: Cnt, env: Env, tenv: TEnv,
                                   st: State, tst: TState)
    requires Ctx(w, tw, x) && Related(x, env, tenv, st, tst) && Unset(x, tst.ok)
    requires s.Ret? && s.value.Some? && KStmt(x.rule, s) && SStmt(x, s)
    ensures var t := LowerStmt(CfgOf(x), s, c).0;
      var r := Exec(w, k, x.rule.Fal(), s, env, st);
      !r.out.Normal? &&
      Agrees(x, tst.ok, r.out, r.st,
             TExec(tw, k, t[|t| - 1], tenv, if |t| == 2 then tst.(ok := true) else tst))
    decreases k, 1, s, 1
  {
    var e := s.value.value;
    var g := CfgOf(x);
    var t := LowerStmt(g, s, c).0;
    var tst1 := if |t| == 2 then tst.(ok := true) else tst;
    if !(g.fal && IsErrReturn(g.errs, e)) {
      SimX(w, tw, k, x.InRet(), e, c, env, tenv, st, tst1);
      KindX(w, k, x.rule, e, env, st);
      EvalXOut(w, k, x.rule.Fal(), e, env, st);
    }
  }

  lemma {:induction false} SimSeq(w: World, tw: TWorld, k: nat, x: Place, ss: Block, c: Cnt, env: Env, tenv: TEnv,
                                  st: State, tst: TState)
    requires Ctx(w, tw, x) && Related(x, env, tenv, st, tst) && Unset(x, tst.ok)
    requires KList(x.rule, ss) && SList(x, ss) && (x.top ==> !x.loop && !x.dfr)
    requires ss != [] && !ss[0].VarDecl? && !ss[0].Defer? && !ss[0].ErrDefer? && !ss[0].Ret?
    ensures var r := ExecList(w, k, x.rule.Fal(), ss, env, st);
      Agrees(x, tst.ok, r.out, r.st, TScope(tw, k, LowerList(CfgOf(x), ss, c).0, tenv, tst))
    decreases k, 1, ss, 1
  {
    var s := ss[0];
    assert KStmt(x.rule, s) && SStmt(x, s);
    SimStmt(w, tw, k, x, s, c, env, tenv, st, tst);
    var (head, c1) := LowerStmt(CfgOf(x), s, c);
    var ts := LowerList(CfgOf(x), ss[1..], c1).0;
    ScopeStmt(tw, k, head[0], ts, tenv, tst);
    assert head + ts == [head[0]] + ts;
    var r := Exec(w, k, x.rule.Fal(), s, env, st);
    var u := TExec(tw, k, head[0], tenv, tst);
    if r.out.Normal? {
      KindStmt(w, k, x.rule, s, env, st);
      EnvGrows(x.rule, env, st.store, r.st.store);
      SimList(w, tw, k, x, ss[1..], c1, env, tenv, r.st, u.st);
      assert |ss| == 1 ==> ss[1..] == [];
    }
  }

  lemma {:induction false} SimStmt(w: World, tw: TWorld, k: nat, x: Place, s: Stmt, c: Cnt, env: Env, tenv: TEnv,
                                   st: State, tst: TState)
    requires Ctx(w, tw, x) && Related(x, env, tenv, st, tst) && Unset(x, tst.ok)
    requires KStmt(x.rule, s) && SStmt(x, s)
    requires !s.VarDecl? && !s.Defer? && !s.ErrDefer? && !s.Ret?
    ensures var t := LowerStmt(CfgOf(x), s, c).0;
      var r := Exec(w, k, x.rule.Fal(), s, env, st);
      |t| == 1 && !IsDecl(t[0]) && Agrees(x, tst.ok, r.out, r.st, TExec(tw, k, t[0], tenv, tst))
    decreases k, 1, s, 2
  {
    match s
    case ExprStmt(e) => SimDrop(w, tw, k, x, e, c, env, tenv, st, tst);
    case Print(e) =>
      SimX(w, tw, k, x, e, c, env, tenv, st, tst);
    case If(_, _, _) => SimIf(w, tw, k, x, s, c, env, tenv, st, tst);
    case When(e, arms) =>
      PureX(w, k, x.rule.Fal(), e, env, st);
      SimArms(w, tw, k, x, s, 0, c, env, tenv, st, tst);
      assert arms[0..] == arms;
    case While(_, _) => SimWhile(w, tw, k, x, s, c, env, tenv, st, tst);
    case _ =>
  }

  lemma {:induction false} SimDrop(w: World, tw: TWorld, k: nat, x: Place, e: Expr, c: Cnt, env: Env, tenv: TEnv,
                                   st: State, tst: TState)
    requires Ctx(w, tw, x) && Related(x, env, tenv, st, tst) && Unset(x, tst.ok)
    requires KDrop(x.rule, e) && SDrop(x, e)
    ensures var t := LowerDrop(CfgOf(x), e, c).0;
      var r := Exec(w, k, x.rule.Fal(), ExprStmt(e), env, st);
      |t| == 1 && !IsDecl(t[0]) && Agrees(x, tst.ok, r.out, r.st, TExec(tw, k, t[0], tenv, tst))
    decreases k, 1, e, 8
  {
    var n := c.tries;
    assert e.CatchBlock? || KVal(x.rule, e) || e.Call?;
    if e.Try? || e.CatchElse? {
      SimX(w, tw, k, x, e.tried, NextTry(c), env, tenv, st, tst);
      var t := LowerExpr(CfgOf(x), e.tried, NextTry(c)).0;
      if e.Try? {
        TryRun(tw, k, n, t, tenv, tst);
        BlockRun(tw, k, TryStmts(n, t), tenv, tst);
        assert LowerDrop(CfgOf(x), e, c).0 == [TBlock(TryStmts(n, t))];
      } else {
        assert [TTemp(n, t)] == [TTemp(n, t)] + [];
        ListTemp(tw, k, n, t, [], tenv, tst);
        BlockRun(tw, k, [TTemp(n, t)], tenv, tst);
        var r := EvalX(w, k, x.rule.Fal(), e.tried, env, st);
        if r.Got? {
          KindX(w, k, x.rule, e.tried, env, st);
          EnvGrows(x.rule, env, st.store, r.st.store);
          PureX(w, k, x.rule.Fal(), e.fallback, env, r.st);
        }
      }
    } else if e.CatchBlock? {
      SimDropCatch(w, tw, k, x, e, c, env, tenv, st, tst);
    } else {
      SimX(w, tw, k, x, e, c, env, tenv, st, tst);
    }
  }

  lemma {:induction false} SimDropCatch(w: World, tw: TWorld, k: nat, x: Place, e: Expr, c: Cnt, env: Env,
                                        tenv: TEnv, st: State, tst: TState)
    requires Ctx(w, tw, x) && Related(x, env, tenv, st, tst) && Unset(x, tst.ok)
    requires e.CatchBlock? && KDrop(x.rule, e) && SDrop(x, e)
    ensures var t := LowerDrop(CfgOf(x), e, c).0;
      var r := Exec(w, k, x.rule.Fal(), ExprStmt(e), env, st);
      |t| == 1 && !IsDecl(t[0]) && Agrees(x, tst.ok, r.out, r.st, TExec(tw, k, t[0], tenv, tst))
    decreases k, 1, e, 2
  {
    var ss := Catching(CfgOf(x), e, c);
    if KRes(x.rule, e) { assert KVal(x.rule, e); }
    assert LowerDrop(CfgOf(x), e, c).0 == [TBlock(ss)];
    SimCaught(w, tw, k, x, e, c, env, tenv, st, tst);
    BlockRun(tw, k, ss, tenv, tst);
  }

  lemma {:induction false} SimIf(w: World, tw: TWorld, k: nat, x: Place, s: Stmt, c: Cnt, env: Env, tenv: TEnv,
                                 st: State, tst: TState)
    requires Ctx(w, tw, x) && Related(x, env, tenv, st, tst) && Unset(x, tst.ok)
    requires s.If? && KStmt(x.rule, s) && SStmt(x, s)
    ensures var t := LowerStmt(CfgOf(x), s, c).0;
      var r := Exec(w, k, x.rule.Fal(), s, env, st);
      |t| == 1 && !IsDecl(t[0]) && Agrees(x, tst.ok, r.out, r.st, TExec(tw, k, t[0], tenv, tst))
    decreases k, 1, s, 1
  {
    var g := CfgOf(x);
    var (t, c1) := LowerExpr(g, s.cond, c);
    var (a, c2) := LowerList(g, s.thn, c1);
    SimX(w, tw, k, x, s.cond, c, env, tenv, st, tst);
    var r := EvalX(w, k, x.rule.Fal(), s.cond, env, st);
    if r.Got? {
      KindX(w, k, x.rule, s.cond, env, st);
      EnvGrows(x.rule, env, st.store, r.st.store);
      var tr := TEvalX(tw, k, t, tenv, tst);
      if Truthy(r.v) {
        SimList(w, tw, k, x.Inner(), s.thn, c1, env, tenv, r.st, tr.st);
      } else {
        SimElseBranch(w, tw, k, x, s, c2, env, tenv, r.st, tr.st);
      }
    }
  }

  lemma {:induction false} SimElseBranch(w: World, tw: TWorld, k: nat, x: Place, s: Stmt, c: Cnt, env: Env,
                                         tenv: TEnv, st: State, tst: TState)
    requires Ctx(w, tw, x) && Related(x, env, tenv, st, tst) && Unset(x, tst.ok)
    requires s.If? && KStmt(x.rule, s) && SStmt(x, s)
    ensures var r := match s.els {
        case NoElse => Res(Normal, st, Unit)
        case ElseBlock(b) => ExecList(w, k, x.rule.Fal(), b, env, st)
        case ElseIf(s1) => Exec(w, k, x.rule.Fal(), s1, env, st)
      };
      Agrees(x, tst.ok, r.out, r.st, TOtherwise(tw, k, LowerElse(CfgOf(x), s.els, c).0, tenv, tst))
    decreases k, 1, s, 0
  {
    match s.els
    case NoElse =>
    case ElseBlock(b) => SimList(w, tw, k, x.Inner(), b, c, env, tenv, st, tst);
    case ElseIf(s1) =>
      SimStmt(w, tw, k, x.Inner(), s1, c, env, tenv, st, tst);
  }

  // The test of one arm compares the subject with the pattern, in either order, and
  // nothing else.
  lemma ArmTest(tw: TWorld, k: nat, t: TExpr, p: TExpr, u: Val, v: Val, a: seq<TStmt>, b: TElse, env: TEnv, st: TState)
    requires TEvalX(tw, k, t, env, st) == TGot(u, st) && TEvalX(tw, k, p, env, st) == TGot(v, st)
    ensures TExec(tw, k, TIf(TOp(OSame, [t, p]), a, b), env, st) ==
      if v == u then TScope(tw, k, a, env, st) else TOtherwise(tw, k, b, env, st)
  {
    var test := TOp(OSame, [t, p]);
    AllOperands(tw, k, test, 2, [u, v], env, st, TGot(Unit, st));
    assert TEvalX(tw, k, test, env, st) == TGot(Bool(u == v), st);
  }

  lemma {:induction false} SimArms(w: World, tw: TWorld, k: nat, x: Place, s: Stmt, i: nat, c: Cnt, env: Env,
                                   tenv: TEnv, st: State, tst: TState)
    requires Ctx(w, tw, x) && Related(x, env, tenv, st, tst) && Unset(x, tst.ok)
    requires s.When? && KStmt(x.rule, s) && SStmt(x, s) && i <= |s.arms|
    requires EvalX(w, k, x.rule.Fal(), s.subject, env, st).Got?
    ensures var t := LowerArms(CfgOf(x), s, i, c).0;
      var v := EvalX(w, k, x.rule.Fal(), s.subject, env, st).v;
      var r := ExecArms(w, k, x.rule.Fal(), v, s.arms[i..], env, st);
      (i < |s.arms| && s.arms[i].pattern.Some? ==> t.TElseIf? && t.chain.TIf?) &&
      Agrees(x, tst.ok, r.out, r.st, TOtherwise(tw, k, t, tenv, tst))
    decreases k, 1, s, 1, |s.arms| - i
  {
    if i < |s.arms| {
      var arm := s.arms[i];
      assert KArm(x.rule, arm) && SArm(x, arm);
      assert s.arms[i..][0] == arm && s.arms[i..][1..] == s.arms[i + 1..];
      if arm.pattern.None? {
        SimList(w, tw, k, x.Inner(), arm.body, c, env, tenv, st, tst);
      } else {
        SimTestedArm(w, tw, k, x, s, i, c, env, tenv, st, tst);
      }
    }
  }

  lemma {:induction false} SimTestedArm(w: World, tw: TWorld, k: nat, x: Place, s: Stmt, i: nat, c: Cnt, env: Env,
                                        tenv: TEnv, st: State, tst: TState)
    requires Ctx(w, tw, x) && Related(x, env, tenv, st, tst) && Unset(x, tst.ok)
    requires s.When? && KStmt(x.rule, s) && SStmt(x, s) && i < |s.arms| && s.arms[i].pattern.Some?
    requires EvalX(w, k, x.rule.Fal(), s.subject, env, st).Got?
    ensures var t := LowerArms(CfgOf(x), s, i, c).0;
      var v := EvalX(w, k, x.rule.Fal(), s.subject, env, st).v;
      var r := ExecArms(w, k, x.rule.Fal(), v, s.arms[i..], env, st);
      t.TElseIf? && t.chain.TIf? && Agrees(x, tst.ok, r.out, r.st, TOtherwise(tw, k, t, tenv, tst))
    decreases k, 1, s, 1, |s.arms| - i, 0
  {
    var g, fal, arm := CfgOf(x), x.rule.Fal(), s.arms[i];
    assert KArm(x.rule, arm) && SArm(x, arm) && STest(x, arm.pattern.value);
    assert s.arms[i..][0] == arm && s.arms[i..][1..] == s.arms[i + 1..];
    var (t, c1) := LowerExpr(g, s.subject, c);
    var (p, c2) := LowerExpr(g, arm.pattern.value, c1);
    var (a, c3) := LowerList(g, arm.body, c2);
    var b := LowerArms(g, s, i + 1, c3).0;
    SimX(w, tw, k, x, s.subject, c, env, tenv, st, tst);
    SimX(w, tw, k, x, arm.pattern.value, c1, env, tenv, st, tst);
    PureX(w, k, fal, s.subject, env, st);
    PureX(w, k, fal, arm.pattern.value, env, st);
    var u := EvalX(w, k, fal, s.subject, env, st).v;
    var v := EvalX(w, k, fal, arm.pattern.value, env, st).v;
    ArmTest(tw, k, t, p, u, v, a, b, tenv, tst);
    if v == u {
      SimList(w, tw, k, x.Inner(), arm.body, c2, env, tenv, st, tst);
    } else {
      SimArms(w, tw, k, x, s, i + 1, c3, env, tenv, st, tst);
    }
  }

  // The condition and one run of the body.
  lemma {:induction false} SimRound(w: World, tw: TWorld, k: nat, x: Place, s: Stmt, c: Cnt, env: Env, tenv: TEnv,
                                    st: State, tst: TState)
    requires Ctx(w, tw, x) && Related(x, env, tenv, st, tst) && Unset(x, tst.ok)
    requires s.While? && KStmt(x.rule, s) && SStmt(x, s)
    ensures var (t, c1) := LowerExpr(CfgOf(x), s.cond, c);
      var r := EvalX(w, k, x.rule.Fal(), s.cond, env, st);
      var q := TEvalX(tw, k, t, tenv, tst);
      AgreesX(x.InCond(), tst.ok, r, q) &&
      (r.Got? ==>
         var b := ExecList(w, k, x.rule.Fal(), s.body, env, r.st);
         EnvOk(x.rule, env, b.st.store) &&
         Agrees(x.InLoop(), tst.ok, b.out, b.st, TScope(tw, k, LowerList(CfgOf(x), s.body, c1).0, tenv, q.st)))
    decreases k, 1, s, 1
  {
    var (t, c1) := LowerExpr(CfgOf(x), s.cond, c);
    assert CfgOf(x.InLoop()) == CfgOf(x) && CfgOf(x.InCond()) == CfgOf(x);
    SimX(w, tw, k, x.InCond(), s.cond, c, env, tenv, st, tst);
    var r := EvalX(w, k, x.rule.Fal(), s.cond, env, st);
    if r.Got? {
      KindX(w, k, x.rule, s.cond, env, st);
      EnvGrows(x.rule, env, st.store, r.st.store);
      SimList(w, tw, k, x.InLoop(), s.body, c1, env, tenv, r.st, TEvalX(tw, k, t, tenv, tst).st);
      KindList(w, k, x.rule, s.body, env, r.st);
      EnvGrows(x.rule, env, r.st.store, ExecList(w, k, x.rule.Fal(), s.body, env, r.st).st.store);
    }
  }

  lemma {:induction false} SimWhile(w: World, tw: TWorld, k: nat, x: Place, s: Stmt, c: Cnt, env: Env, tenv: TEnv,
                                    st: State, tst: TState)
    requires Ctx(w, tw, x) && Related(x, env, tenv, st, tst) && Unset(x, tst.ok)
    requires s.While? && KStmt(x.rule, s) && SStmt(x, s)
    ensures var t := LowerStmt(CfgOf(x), s, c).0[0];
      var r := ExecWhile(w, k, x.rule.Fal(), s, env, st);
      t.TWhile? && Agrees(x, tst.ok, r.out, r.st, TLoop(tw, k, t, tenv, tst))
    decreases k, 1, s, 1
  {
    if k > 0 {
      var (t, c1) := LowerExpr(CfgOf(x), s.cond, c);
      SimRound(w, tw, k - 1, x, s, c, env, tenv, st, tst);
      var r := EvalX(w, k - 1, x.rule.Fal(), s.cond, env, st);
      if r.Got? && Truthy(r.v) {
        var b := ExecList(w, k - 1, x.rule.Fal(), s.body, env, r.st);
        var u := TScope(tw, k - 1, LowerList(CfgOf(x), s.body, c1).0, tenv, TEvalX(tw, k - 1, t, tenv, tst).st);
        if b.out.Normal? || b.out.Cont? { SimWhile(w, tw, k - 1, x, s, c, env, tenv, b.st, u.st); }
      }
    }
  }

  // ---------- the main results ----------

  /** Calling any function of a supported program with any plain arguments and any plain
      values of the top-level variables: the emitted program prints the same, stores the
      same and returns the same, for every amount of fuel, so in particular it runs forever
      exactly when the source program does.  C++ may evaluate operands and arguments in any
      order; with `ltr` the compiler takes them from left to right, and then any number of
      them may have effects. */
  lemma LoweringPreservesCalls(w: World, pick: Pick, ltr: bool, names: ErrNames, k: nat, f: string, vs: seq<Val>,
                               st: State, ok: bool)
    requires KProgram(w.prog, names, false) && SProgram(w.prog, names, ltr)
    requires PlainVals(vs) && Started(w.prog, st.store)
    requires ltr ==> pick == LEFT_TO_RIGHT
    ensures var r := CallNamed(w, k, f, vs, st);
      TCallNamed(LowerWorld(w, pick), k, f, vs, TState(st, ok)) ==
        match r {
          case Got(v, st1) => TGot(v, TState(st1, ok))
          case Gone(_, st1) => TGone(Timeout, TState(st1, ok))
        }
  {
    var c := Rule(w.prog, names, false, Plain(true), {});
    var x := Place(c, false, false, false, true, false, ltr);
    SimCall(w, LowerWorld(w, pick), k, x, f, vs, st, TState(st, ok));
    CallKeepsFlag(LowerWorld(w, pick), k, f, vs, TState(st, ok));
  }

  lemma CallKeepsFlag(tw: TWorld, k: nat, f: string, vs: seq<Val>, st: TState)
    ensures TCallNamed(tw, k, f, vs, st).st.ok == st.ok
  {
    var found := FindT(tw.fns, f);
    if found.Some? && k > 0 {
      assert TCallFn(tw, k - 1, found.value, vs, st).st.ok == st.ok;
    }
  }

  /** When the guard of the errdefer at position i of a function body is destroyed, that
      is, when the rest of the body has been run and unwound, `_fn_ok` is true exactly if
      the function is being left with a success. */
  lemma FlagAtErrDefer(w: World, pick: Pick, ltr: bool, names: ErrNames, k: nat, fn: FnDecl, i: nat, c: Cnt,
                       env: Env,
                       st: State)
    requires KProgram(w.prog, names, false) && SProgram(w.prog, names, ltr) && fn in w.prog.fns
    requires ltr ==> pick == LEFT_TO_RIGHT
    requires i < |FullBody(fn)| && FullBody(fn)[i].ErrDefer? && EnvOk(FnRule(w.prog, names, false, fn), env, st.store)
    ensures var rest := LowerList(FnCfg(w.prog.errs, fn), FullBody(fn)[i + 1..], c).0;
      var u := TScope(LowerWorld(w, pick), k, rest, TEnv(env, map[]), TState(st, false));
      u.out.Timeout? || (u.out.Leave? && (u.st.ok <==> !u.out.v.Bad?))
  {
    var x := FnPlace(w.prog, names, ltr, fn);
    var full := FullBody(fn);
    assert SFn(w.prog, names, ltr, fn) && KFn(w.prog, names, false, fn);
    SuffixOk(x, full, i);
    var rest := full[i + 1..];
    assert KList(x.rule, rest);
    SimList(w, LowerWorld(w, pick), k, x, rest, c, env, TEnv(env, map[]), st, TState(st, false));
    LeavesIsLeft(w, k, x.rule.Fal(), rest, env, st);
  }

  lemma {:induction false} SuffixOk(x: Place, ss: Block, i: nat)
    requires SList(x, ss) && i < |ss| && ss[i].ErrDefer?
    ensures SList(x, ss[i + 1..]) && Leaves(ss[i + 1..]) && x.flag
    decreases i
  {
    if i > 0 {
      SuffixOk(x, ss[1..], i - 1);
      assert ss[1..][i..] == ss[i + 1..];
    }
  }
}
