/** What a run leaves alone: a function sees the top-level variables and its own, but no
    variable of its caller; an expression that assigns nothing leaves every local variable
    as it was by the time it yields a value, and every variable if it calls nothing. */
module Frames {
  import opened Ast
  import opened Options
  import opened Semantics
  import opened Support

  // The first n cells are there before and after, those from lo on with the same contents.
  predicate Keeps(lo: nat, n: nat, s: seq<Val>, t: seq<Val>) {
    n <= |s| && n <= |t| && forall i | lo <= i < n :: s[i] == t[i]
  }

  // Every variable is a top-level one or stands at n or above.
  predicate Above(env: Env, g: nat, n: nat) { forall x | x in env :: env[x] < g || n <= env[x] }

  function Globals(w: World): nat { |w.prog.globals| }

  lemma {:induction false} ParamsAbove(ps: seq<string>, vs: seq<Val>, env: Env, st: State, g: nat, n: nat)
    requires Above(env, g, n) && n <= |st.store|
    ensures var (env1, st1) := BindParams(ps, vs, env, st);
      Above(env1, g, n) && Keeps(0, |st.store|, st.store, st1.store)
  {
    if ps != [] {
      var v := if vs == [] then Unit else vs[0];
      var (env1, st1) := Bind(env, st, ps[0], v);
      ParamsAbove(ps[1..], if vs == [] then [] else vs[1..], env1, st1, g, n);
    }
  }

  /** A call changes no variable that was there before it, but for the top-level ones. */
  lemma {:induction false} CallKeeps(w: World, k: nat, f: string, vs: seq<Val>, st: State)
    requires Globals(w) <= |st.store|
    ensures Keeps(Globals(w), |st.store|, st.store, CallNamed(w, k, f, vs, st).st.store)
    decreases k, 0
  {
    var found := FindFn(w.prog.fns, f);
    if found.Some? && k > 0 {
      var fn := found.value;
      var n := |st.store|;
      var genv := GlobalEnv(w.prog.globals);
      ParamsAbove(fn.params, vs, genv, st, Globals(w), n);
      var (env, st1) := BindParams(fn.params, vs, genv, st);
      ApartList(w, k - 1, fn.ret.Fallible?, fn.body, env, st1, n);
    }
  }

  // Code whose own variables are all at n or above keeps what is below n, but for the
  // top-level variables.
  lemma {:induction false} ApartX(w: World, k: nat, fal: bool, e: Expr, env: Env, st: State, n: nat)
    requires Above(env, Globals(w), n) && Globals(w) <= n <= |st.store|
    ensures Keeps(Globals(w), n, st.store, EvalX(w, k, fal, e, env, st).st.store)
    decreases k, 1, e, 3
  {
    if IsAtom(e) {
    } else if IsLogic(e) {
      ApartX(w, k, fal, e.left, env, st, n);
      var l := EvalX(w, k, fal, e.left, env, st);
      if l.Got? { ApartX(w, k, fal, e.right, env, l.st, n); }
    } else if IsOp(e) {
      ApartOps(w, k, fal, e, 0, env, st, n);
      var r := EvalOps(w, k, fal, e, 0, env, st);
      if r.GotAll? && OperOf(e).OCall? { CallKeeps(w, k, OperOf(e).f, r.vs, r.st); }
    } else {
      ApartControl(w, k, fal, e, env, st, n);
    }
  }

  lemma {:induction false} ApartControl(w: World, k: nat, fal: bool, e: Expr, env: Env, st: State, n: nat)
    requires Above(env, Globals(w), n) && Globals(w) <= n <= |st.store| && IsControl(e)
    ensures Keeps(Globals(w), n, st.store, EvalX(w, k, fal, e, env, st).st.store)
    decreases k, 1, e, 2
  {
    var e1 := if e.Assign? then e.rhs else e.tried;
    ApartX(w, k, fal, e1, env, st, n);
    var r := EvalX(w, k, fal, e1, env, st);
    if r.Got? && r.v.Bad? {
      if e.CatchElse? {
        ApartX(w, k, fal, e.fallback, env, r.st, n);
      } else if e.CatchBlock? {
        var (env1, st1) := BindOpt(env, r.st, e.errVar, ErrOf(r.v));
        ApartList(w, k, fal, e.handler, env1, st1, n);
      }
    }
  }

  lemma {:induction false} ApartOps(w: World, k: nat, fal: bool, e: Expr, i: nat, env: Env, st: State, n: nat)
    requires Above(env, Globals(w), n) && Globals(w) <= n <= |st.store| && i <= |Operands(e)|
    ensures Keeps(Globals(w), n, st.store, EvalOps(w, k, fal, e, i, env, st).st.store)
    decreases k, 1, e, 0, |Operands(e)| - i
  {
    if i < |Operands(e)| {
      ApartX(w, k, fal, Operands(e)[i], env, st, n);
      var r := EvalX(w, k, fal, Operands(e)[i], env, st);
      if r.Got? { ApartOps(w, k, fal, e, i + 1, env, r.st, n); }
    }
  }

  lemma {:induction false} ApartList(w: World, k: nat, fal: bool, ss: Block, env: Env, st: State, n: nat)
    requires Above(env, Globals(w), n) && Globals(w) <= n <= |st.store|
    ensures Keeps(Globals(w), n, st.store, ExecList(w, k, fal, ss, env, st).st.store)
    decreases k, 1, ss, 2
  {
    if ss != [] {
      var s := ss[0];
      if s.VarDecl? {
        ApartX(w, k, fal, s.init, env, st, n);
        var r := EvalX(w, k, fal, s.init, env, st);
        if r.Got? {
          var (env1, st1) := Bind(env, r.st, s.x, r.v);
          ApartList(w, k, fal, ss[1..], env1, st1, n);
        }
      } else if s.Defer? || s.ErrDefer? {
        ApartList(w, k, fal, ss[1..], env, st, n);
        var r := ExecList(w, k, fal, ss[1..], env, st);
        if !r.out.Timeout? && k > 0 { ApartList(w, k - 1, fal, s.deferred, env, r.st, n); }
      } else {
        ApartStmt(w, k, fal, s, env, st, n);
        ApartList(w, k, fal, ss[1..], env, Exec(w, k, fal, s, env, st).st, n);
      }
    }
  }

  lemma {:induction false} ApartStmt(w: World, k: nat, fal: bool, s: Stmt, env: Env, st: State, n: nat)
    requires Above(env, Globals(w), n) && Globals(w) <= n <= |st.store|
    ensures Keeps(Globals(w), n, st.store, Exec(w, k, fal, s, env, st).st.store)
    decreases k, 1, s, 1
  {
    if s.ExprStmt? || s.Print? {
      ApartX(w, k, fal, s.e, env, st, n);
    } else if s.If? {
      ApartIf(w, k, fal, s, env, st, n);
    } else if s.When? {
      ApartX(w, k, fal, s.subject, env, st, n);
      var r := EvalX(w, k, fal, s.subject, env, st);
      if r.Got? { ApartArms(w, k, fal, r.v, s.arms, env, r.st, n); }
    } else if s.While? {
      ApartWhile(w, k, fal, s, env, st, n);
    } else if s.Ret? && s.value.Some? {
      ApartX(w, k, fal, s.value.value, env, st, n);
    }
  }

  lemma {:induction false} ApartIf(w: World, k: nat, fal: bool, s: Stmt, env: Env, st: State, n: nat)
    requires Above(env, Globals(w), n) && Globals(w) <= n <= |st.store| && s.If?
    ensures Keeps(Globals(w), n, st.store, Exec(w, k, fal, s, env, st).st.store)
    decreases k, 1, s, 0
  {
    ApartX(w, k, fal, s.cond, env, st, n);
    var r := EvalX(w, k, fal, s.cond, env, st);
    if r.Got? {
      if Truthy(r.v) {
        ApartList(w, k, fal, s.thn, env, r.st, n);
      } else {
        match s.els
        case NoElse =>
        case ElseBlock(b) => ApartList(w, k, fal, b, env, r.st, n);
        case ElseIf(s1) => ApartStmt(w, k, fal, s1, env, r.st, n);
      }
    }
  }

  lemma {:induction false} ApartArms(w: World, k: nat, fal: bool, v: Val, arms: seq<Arm>, env: Env, st: State, n: nat)
    requires Above(env, Globals(w), n) && Globals(w) <= n <= |st.store|
    ensures Keeps(Globals(w), n, st.store, ExecArms(w, k, fal, v, arms, env, st).st.store)
    decreases k, 1, arms
  {
    if arms != [] {
      assert arms decreases to arms[0];
      if arms[0].pattern.None? {
        ApartList(w, k, fal, arms[0].body, env, st, n);
      } else {
        assert arms[0] decreases to arms[0].pattern.value;
        ApartX(w, k, fal, arms[0].pattern.value, env, st, n);
        var p := EvalX(w, k, fal, arms[0].pattern.value, env, st);
        if p.Got? && p.v == v {
          ApartList(w, k, fal, arms[0].body, env, p.st, n);
        } else if p.Got? {
          ApartArms(w, k, fal, v, arms[1..], env, p.st, n);
        }
      }
    }
  }

  lemma {:induction false} ApartWhile(w: World, k: nat, fal: bool, s: Stmt, env: Env, st: State, n: nat)
    requires Above(env, Globals(w), n) && Globals(w) <= n <= |st.store| && s.While?
    ensures Keeps(Globals(w), n, st.store, ExecWhile(w, k, fal, s, env, st).st.store)
    decreases k, 1, s, 0
  {
    if k > 0 {
      ApartX(w, k - 1, fal, s.cond, env, st, n);
      var r := EvalX(w, k - 1, fal, s.cond, env, st);
      if r.Got? && Truthy(r.v) {
        ApartList(w, k - 1, fal, s.body, env, r.st, n);
        var b := ExecList(w, k - 1, fal, s.body, env, r.st);
        if b.out.Normal? || b.out.Cont? { ApartWhile(w, k - 1, fal, s, env, b.st, n); }
      }
    }
  }

  /** An expression without assignments of its own, whose handler blocks leave, has
      changed no local variable when it yields a value, and no variable at all if it calls
      nothing. */
  lemma {:induction false} NoWritesKeeps(w: World, k: nat, fal: bool, e: Expr, env: Env, st: State, lo: nat)
    requires NoWrites(e) && Globals(w) <= |st.store| && (lo == Globals(w) || CallFree(e))
    ensures var r := EvalX(w, k, fal, e, env, st);
      r.Got? ==> Keeps(lo, |st.store|, st.store, r.st.store)
    decreases e, 1
  {
    if IsAtom(e) {
    } else if IsLogic(e) {
      assert Operands(e)[0] == e.left && Operands(e)[1] == e.right;
      NoWritesKeeps(w, k, fal, e.left, env, st, lo);
      var l := EvalX(w, k, fal, e.left, env, st);
      if l.Got? { NoWritesKeeps(w, k, fal, e.right, env, l.st, lo); }
    } else if IsOp(e) {
      NoWritesOps(w, k, fal, e, 0, env, st, lo);
      var r := EvalOps(w, k, fal, e, 0, env, st);
      if r.GotAll? && OperOf(e).OCall? { CallKeeps(w, k, OperOf(e).f, r.vs, r.st); }
    } else {
      NoWritesKeeps(w, k, fal, e.tried, env, st, lo);
      var r := EvalX(w, k, fal, e.tried, env, st);
      if r.Got? && r.v.Bad? {
        if e.CatchElse? {
          NoWritesKeeps(w, k, fal, e.fallback, env, r.st, lo);
        } else if e.CatchBlock? {
          var (env1, st1) := BindOpt(env, r.st, e.errVar, ErrOf(r.v));
          LeavesIsLeft(w, k, fal, e.handler, env1, st1);
        }
      }
    }
  }

  lemma {:induction false} NoWritesOps(w: World, k: nat, fal: bool, e: Expr, i: nat, env: Env, st: State, lo: nat)
    requires i <= |Operands(e)| && forall m | 0 <= m < |Operands(e)| :: NoWrites(Operands(e)[m])
    requires Globals(w) <= |st.store|
    requires lo == Globals(w) || forall m | 0 <= m < |Operands(e)| :: CallFree(Operands(e)[m])
    ensures var r := EvalOps(w, k, fal, e, i, env, st);
      r.GotAll? ==> Keeps(lo, |st.store|, st.store, r.st.store)
    decreases e, 0, |Operands(e)| - i
  {
    if i < |Operands(e)| {
      NoWritesKeeps(w, k, fal, Operands(e)[i], env, st, lo);
      var r := EvalX(w, k, fal, Operands(e)[i], env, st);
      if r.Got? { NoWritesOps(w, k, fal, e, i + 1, env, r.st, lo); }
    }
  }

  // The variables, and those that are not top-level ones at lo or above.
  predicate Inside(env: Env, store: seq<Val>, gs: seq<string>, lo: nat) {
    forall x | x in env :: env[x] < |store| && (x in gs || lo <= env[x])
  }

  /** A pure expression changes nothing, and has the same value wherever the variables it
      may read have the same values. */
  lemma {:induction false} PureSame(w: World, k: nat, fal: bool, e: Expr, env: Env, st: State, st2: State, lo: nat)
    requires Pure(e) && Inside(env, st.store, w.prog.globals, lo) && Keeps(lo, |st.store|, st.store, st2.store)
    requires lo == 0 || NoGlobals(w.prog.globals, e)
    ensures var r := EvalX(w, k, fal, e, env, st);
      r.Got? && r.st == st && EvalX(w, k, fal, e, env, st2) == Got(r.v, st2)
    decreases e, 1
  {
    if IsAtom(e) {
    } else if IsLogic(e) {
      assert Operands(e)[0] == e.left && Operands(e)[1] == e.right;
      PureSame(w, k, fal, e.left, env, st, st2, lo);
      PureSame(w, k, fal, e.right, env, st, st2, lo);
    } else {
      PureSameOps(w, k, fal, e, 0, env, st, st2, lo);
    }
  }

  lemma {:induction false} PureSameOps(w: World, k: nat, fal: bool, e: Expr, i: nat, env: Env, st: State, st2: State,
                                       lo: nat)
    requires i <= |Operands(e)| && forall m | 0 <= m < |Operands(e)| :: Pure(Operands(e)[m])
    requires Inside(env, st.store, w.prog.globals, lo) && Keeps(lo, |st.store|, st.store, st2.store)
    requires lo == 0 || forall m | 0 <= m < |Operands(e)| :: NoGlobals(w.prog.globals, Operands(e)[m])
    ensures var r := EvalOps(w, k, fal, e, i, env, st);
      r.GotAll? && r.st == st && EvalOps(w, k, fal, e, i, env, st2) == GotAll(r.vs, st2)
    decreases e, 0, |Operands(e)| - i
  {
    if i < |Operands(e)| {
      PureSame(w, k, fal, Operands(e)[i], env, st, st2, lo);
      PureSameOps(w, k, fal, e, i + 1, env, st, st2, lo);
    }
  }

  // What a pure expression is worth where it stands.
  lemma PureX(w: World, k: nat, fal: bool, e: Expr, env: Env, st: State)
    requires Pure(e) && forall x | x in env :: env[x] < |st.store|
    ensures var r := EvalX(w, k, fal, e, env, st); r.Got? && r.st == st
  {
    PureSame(w, k, fal, e, env, st, st, 0);
  }
}
