/** A static discipline on Oleren programs and what it guarantees about every run.

    Variables and operands hold plain values, except the variables bound by `catch |e|`,
    which hold errors; an error result is consumed by `try` or `catch` or returned.  Calls,
    `try` and `catch` may stand anywhere in an expression.  With `strict`, functions with a
    named error set also return and propagate errors of that set only, which is what the
    checker of the language is for. */
module Kinding {
  import opened Ast
  import opened Options
  import opened Semantics

  // The names that `catch` binds, function by function.
  type ErrNames = map<string, set<string>>

  // The rule for one function; `errVars` are the names that `catch` binds in it.
  datatype Rule = Rule(prog: Program, names: ErrNames, strict: bool, ret: RetType, errVars: set<string>) {
    predicate Fal() { ret.Fallible? }
    predicate Closed() { strict && ret.Fallible? && ret.set_.Some? }
  }

  function FnRule(p: Program, names: ErrNames, strict: bool, fn: FnDecl): Rule {
    Rule(p, names, strict, fn.ret, if fn.name in names then names[fn.name] else {})
  }

  predicate Declares(errs: seq<ErrDecl>, s: string, v: string) {
    var d := FindErrSet(errs, s);
    d.Some? && v in d.value.variants
  }

  // The errors with which a function may be left.
  predicate Allowed(c: Rule, e: ErrId) {
    c.Closed() ==> e.Named? && e.set_ == c.ret.set_.value && Declares(c.prog.errs, e.set_, e.variant)
  }

  // ---------- the discipline ----------

  predicate FallibleCallee(p: Program, f: string) {
    var fn := FindFn(p.fns, f);
    fn.Some? && fn.value.ret.Fallible?
  }

  predicate SameSetCall(c: Rule, e: Expr)
    requires c.ret.Fallible?
  {
    && e.Call? && e.callee.Ident?
    && var fn := FindFn(c.prog.fns, e.callee.name);
       fn.Some? && fn.value.ret.Fallible? && fn.value.ret.set_ == c.ret.set_
  }

  // A name or literal that stands for a plain value.
  predicate KAtom(c: Rule, e: Expr) {
    || e.Int?
    || (e.Ident? && e.name !in c.errVars)
    || (e.Field? && e.target.Ident? && e.target.name !in c.errVars && !IsErrName(c.prog.errs, e.target.name))
  }

  // Callees are names; what is assigned to by a name is a variable.
  predicate KForm(e: Expr) {
    (e.Call? ==> e.callee.Ident?) && (e.Assign? ==> e.lhs.Ident?)
  }

  predicate KOps(c: Rule, e: Expr)
    decreases e, 0
  {
    forall i | 0 <= i < |Operands(e)| :: KVal(c, Operands(e)[i])
  }

  // Yields a plain value, if it yields one.
  predicate KVal(c: Rule, e: Expr)
    decreases e, 1
  {
    if IsAtom(e) then KAtom(c, e)
    else if IsLogic(e) || IsOp(e) then
      KForm(e) && KOps(c, e) && (e.Call? ==> !FallibleCallee(c.prog, e.callee.name))
    else if e.Assign? then e.lhs.name !in c.errVars && KVal(c, e.rhs)
    else if e.Try? then c.Fal() && KRes(c, e.tried) && (c.Closed() ==> SameSetCall(c, e.tried))
    else if e.CatchElse? then KRes(c, e.tried) && KVal(c, e.fallback)
    else
      KRes(c, e.tried) && (e.errVar.Some? ==> e.errVar.value in c.errVars) &&
      KList(c, e.handler) && KTail(c, e.handler)
  }

  // Yields a plain value or the result of a call.
  predicate KRes(c: Rule, e: Expr)
    decreases e, 2
  {
    KVal(c, e) || (e.Call? && e.callee.Ident? && KOps(c, e))
  }

  // Anything may be read where it stands.
  predicate KAny(c: Rule, e: Expr)
    decreases e, 3
  {
    KRes(c, e) || IsAtom(e)
  }

  // The block ends with a value that is plain.
  predicate KTail(c: Rule, ss: Block)
    decreases ss, 0
  {
    |ss| > 0 ==> KLast(c, ss[|ss| - 1])
  }

  predicate KLast(c: Rule, s: Stmt)
    decreases s, 1
  {
    s.ExprStmt? ==> KVal(c, s.e)
  }

  predicate KErrReturn(c: Rule, e: Expr) {
    if c.Closed() then
      e.Field? && e.target.Ident? && e.target.name == c.ret.set_.value &&
      Declares(c.prog.errs, e.target.name, e.field)
    else IsErrReturn(c.prog.errs, e) || (e.Ident? && e.name in c.errVars)
  }

  predicate KStmt(c: Rule, s: Stmt)
    decreases s, 2
  {
    match s
    case ExprStmt(e) => KDrop(c, e)
    case Print(e) => KVal(c, e)
    case VarDecl(x, e) => x !in c.errVars && KVal(c, e)
    case If(e, thn, els) =>
      KVal(c, e) && KList(c, thn) &&
      (match els
       case NoElse => true
       case ElseBlock(b) => KList(c, b)
       case ElseIf(s1) => KStmt(c, s1))
    case When(e, arms) => KVal(c, e) && KArms(c, arms)
    case While(e, b) => KVal(c, e) && KList(c, b)
    case Break => true
    case Continue => true
    case Defer(b) => KList(c, b)
    case ErrDefer(b) => KList(c, b)
    case Ret(None) => c.ret.isVoid
    case Ret(Some(e)) =>
      if c.Fal() then KVal(c, e) || KErrReturn(c, e) || (KRes(c, e) && (c.Closed() ==> SameSetCall(c, e)))
      else KVal(c, e)
  }

  // A dropped value may be anything; only the value of a catch block that is used counts.
  predicate KDrop(c: Rule, e: Expr)
    decreases e, 3
  {
    || KRes(c, e)
    || (e.CatchBlock? && KRes(c, e.tried) && (e.errVar.Some? ==> e.errVar.value in c.errVars) &&
        KList(c, e.handler))
  }

  predicate KList(c: Rule, ss: Block)
    decreases ss, 1
  {
    forall i | 0 <= i < |ss| :: KStmt(c, ss[i])
  }

  predicate KArms(c: Rule, arms: seq<Arm>)
    decreases arms, 1
  {
    forall i | 0 <= i < |arms| :: KArm(c, arms[i])
  }

  predicate KArm(c: Rule, arm: Arm)
    decreases arm, 1
  {
    (arm.pattern.Some? ==> KVal(c, arm.pattern.value)) && KList(c, arm.body)
  }

  predicate KFn(p: Program, names: ErrNames, strict: bool, fn: FnDecl) {
    var c := FnRule(p, names, strict, fn);
    && (forall i | 0 <= i < |fn.params| :: fn.params[i] !in c.errVars)
    && (forall i | 0 <= i < |p.globals| :: p.globals[i] !in c.errVars)
    && KList(c, fn.body)
  }

  predicate KProgram(p: Program, names: ErrNames, strict: bool) {
    forall i | 0 <= i < |p.fns| :: KFn(p, names, strict, p.fns[i])
  }

  // ---------- what holds in every run ----------

  predicate PlainVal(v: Val) { v.Unit? || v.Num? }

  predicate Answer(v: Val) {
    PlainVal(v) || (v.Good? && PlainVal(v.v)) || v.Bad?
  }

  // How a function with this rule may be left.
  predicate Answers(c: Rule, v: Val) {
    PlainVal(v) || (c.Fal() && Answer(v) && (v.Bad? ==> Allowed(c, v.err)))
  }

  // The top-level variables are there and hold plain values.
  predicate Started(p: Program, store: seq<Val>) {
    |p.globals| <= |store| && forall i | 0 <= i < |p.globals| :: PlainVal(store[i])
  }

  predicate EnvOk(c: Rule, env: Env, store: seq<Val>) {
    && Started(c.prog, store)
    && forall x | x in env ::
         && env[x] < |store|
         && (if x in c.errVars then store[env[x]].Err? else PlainVal(store[env[x]]))
         && (x !in c.prog.globals ==> |c.prog.globals| <= env[x])
  }

  predicate Grows(s: seq<Val>, t: seq<Val>) {
    |s| <= |t| && forall i | 0 <= i < |s| :: (PlainVal(s[i]) ==> PlainVal(t[i])) && (s[i].Err? ==> t[i].Err?)
  }

  lemma GrowsTrans(s: seq<Val>, t: seq<Val>, u: seq<Val>)
    requires Grows(s, t) && Grows(t, u)
    ensures Grows(s, u)
  {}

  lemma EnvGrows(c: Rule, env: Env, s: seq<Val>, t: seq<Val>)
    requires EnvOk(c, env, s) && Grows(s, t)
    ensures EnvOk(c, env, t)
  {}

  lemma PlainAtom(w: World, c: Rule, e: Expr, env: Env, store: seq<Val>)
    requires w.prog == c.prog && EnvOk(c, env, store) && IsAtom(e) && KAtom(c, e)
    ensures PlainVal(AtomVal(w, e, env, store))
  {}

  predicate PlainVals(vs: seq<Val>) { forall i | 0 <= i < |vs| :: PlainVal(vs[i]) }

  lemma {:induction false} BindParamsOk(ps: seq<string>, vs: seq<Val>, env: Env, st: State, c: Rule)
    requires forall i | 0 <= i < |ps| :: ps[i] !in c.errVars
    requires PlainVals(vs) && EnvOk(c, env, st.store)
    ensures var (env1, st1) := BindParams(ps, vs, env, st);
      EnvOk(c, env1, st1.store) && Grows(st.store, st1.store) && st1.trace == st.trace
  {
    if ps != [] {
      var v := if vs == [] then Unit else vs[0];
      var (env1, st1) := Bind(env, st, ps[0], v);
      BindParamsOk(ps[1..], if vs == [] then [] else vs[1..], env1, st1, c);
    }
  }

  // What a called function starts from.
  lemma CalleeOk(c: Rule, fn: FnDecl, vs: seq<Val>, st: State)
    requires KFn(c.prog, c.names, c.strict, fn) && PlainVals(vs) && Started(c.prog, st.store)
    ensures var (env, st1) := BindParams(fn.params, vs, GlobalEnv(c.prog.globals), st);
      EnvOk(FnRule(c.prog, c.names, c.strict, fn), env, st1.store) && Grows(st.store, st1.store)
  {
    BindParamsOk(fn.params, vs, GlobalEnv(c.prog.globals), st, FnRule(c.prog, c.names, c.strict, fn));
  }

  lemma {:induction false} FoundFn(fns: seq<FnDecl>, f: string) returns (i: nat)
    requires FindFn(fns, f).Some?
    ensures i < |fns| && fns[i] == FindFn(fns, f).value && fns[i].name == f
  {
    if fns[0].name == f { i := 0; } else {
      var j := FoundFn(fns[1..], f);
      i := j + 1;
    }
  }

  ghost predicate Setting(w: World, c: Rule) {
    w.prog == c.prog && KProgram(c.prog, c.names, c.strict)
  }

  // What evaluation of e may end in.
  ghost predicate ResOk(c: Rule, store: seq<Val>, r: ERes) {
    && Grows(store, r.st.store)
    && (r.Gone? && r.out.Leave? ==> Answers(c, r.out.v))
  }

  ghost predicate RunOk(c: Rule, store: seq<Val>, r: Res) {
    && Grows(store, r.st.store)
    && (r.out.Leave? ==> Answers(c, r.out.v))
  }

  lemma {:induction false} KindCall(w: World, k: nat, c: Rule, f: string, vs: seq<Val>, st: State)
    requires Setting(w, c) && PlainVals(vs) && Started(c.prog, st.store)
    ensures var r := CallNamed(w, k, f, vs, st);
      && Grows(st.store, r.st.store)
      && (r.Gone? ==> r.out.Timeout?)
      && (r.Got? ==> Answer(r.v) && (!FallibleCallee(c.prog, f) ==> PlainVal(r.v)))
      && (r.Got? && FindFn(c.prog.fns, f).Some? ==>
           Answers(c.(ret := FindFn(c.prog.fns, f).value.ret), r.v))
    decreases k, 0
  {
    var found := FindFn(c.prog.fns, f);
    if found.Some? && k > 0 {
      var i := FoundFn(c.prog.fns, f);
      assert KFn(c.prog, c.names, c.strict, c.prog.fns[i]);
      KindFn(w, k - 1, c, found.value, vs, st);
    }
  }

  lemma {:induction false} KindFn(w: World, k: nat, c: Rule, fn: FnDecl, vs: seq<Val>, st: State)
    requires Setting(w, c) && KFn(c.prog, c.names, c.strict, fn) && PlainVals(vs) && Started(c.prog, st.store)
    ensures var r := CallFn(w, k, fn, vs, st);
      && Grows(st.store, r.st.store)
      && (r.Gone? ==> r.out.Timeout?)
      && (r.Got? ==> Answers(FnRule(c.prog, c.names, c.strict, fn), r.v))
    decreases k, 2
  {
    CalleeOk(c, fn, vs, st);
    var (env, st1) := BindParams(fn.params, vs, GlobalEnv(c.prog.globals), st);
    KindList(w, k, FnRule(c.prog, c.names, c.strict, fn), fn.body, env, st1);
  }

  lemma {:induction false} KindX(w: World, k: nat, c: Rule, e: Expr, env: Env, st: State)
    requires Setting(w, c) && EnvOk(c, env, st.store) && KAny(c, e)
    ensures var r := EvalX(w, k, c.Fal(), e, env, st);
      ResOk(c, st.store, r) && (r.Got? ==> (KRes(c, e) ==> Answer(r.v)) && (KVal(c, e) ==> PlainVal(r.v)))
    decreases k, 1, e, 3
  {
    assert IsOp(e) || IsAtom(e) || IsLogic(e) || IsControl(e);
    if IsAtom(e) {
      if KVal(c, e) { PlainAtom(w, c, e, env, st.store); }
      return;
    }
    if KVal(c, e) && !IsControl(e) { assert KForm(e) && KOps(c, e); }
    if IsLogic(e) {
      KindLogic(w, k, c, e, env, st);
    } else if IsOp(e) {
      KindOp(w, k, c, e, env, st);
    } else {
      KindControl(w, k, c, e, env, st);
    }
  }

  lemma {:induction false} KindLogic(w: World, k: nat, c: Rule, e: Expr, env: Env, st: State)
    requires Setting(w, c) && EnvOk(c, env, st.store) && IsLogic(e) && KOps(c, e)
    ensures var r := EvalX(w, k, c.Fal(), e, env, st);
      ResOk(c, st.store, r) && (r.Got? ==> PlainVal(r.v))
    decreases k, 1, e, 2
  {
    assert Operands(e)[0] == e.left && Operands(e)[1] == e.right;
    KindX(w, k, c, e.left, env, st);
    var l := EvalX(w, k, c.Fal(), e.left, env, st);
    if l.Got? {
      EnvGrows(c, env, st.store, l.st.store);
      KindX(w, k, c, e.right, env, l.st);
      GrowsTrans(st.store, l.st.store, EvalX(w, k, c.Fal(), e.right, env, l.st).st.store);
    }
  }

  lemma {:induction false} KindOp(w: World, k: nat, c: Rule, e: Expr, env: Env, st: State)
    requires Setting(w, c) && EnvOk(c, env, st.store) && IsOp(e) && KForm(e) && KOps(c, e)
    ensures var r := EvalX(w, k, c.Fal(), e, env, st);
      ResOk(c, st.store, r) && (r.Got? ==> Answer(r.v) && (KVal(c, e) ==> PlainVal(r.v)))
    decreases k, 1, e, 2
  {
    KindOps(w, k, c, e, 0, env, st);
    var r := EvalOps(w, k, c.Fal(), e, 0, env, st);
    if r.GotAll? && OperOf(e).OCall? {
      KindCall(w, k, c, OperOf(e).f, r.vs, r.st);
      GrowsTrans(st.store, r.st.store, CallNamed(w, k, OperOf(e).f, r.vs, r.st).st.store);
    }
  }

  lemma {:induction false} KindOps(w: World, k: nat, c: Rule, e: Expr, i: nat, env: Env, st: State)
    requires Setting(w, c) && EnvOk(c, env, st.store) && KOps(c, e) && i <= |Operands(e)|
    ensures var r := EvalOps(w, k, c.Fal(), e, i, env, st);
      && Grows(st.store, r.st.store)
      && (r.GotAll? ==> PlainVals(r.vs))
      && (r.GoneAll? && r.out.Leave? ==> Answers(c, r.out.v))
    decreases k, 1, e, 0, |Operands(e)| - i
  {
    if i < |Operands(e)| {
      var x := Operands(e)[i];
      KindX(w, k, c, x, env, st);
      var r := EvalX(w, k, c.Fal(), x, env, st);
      if r.Got? {
        EnvGrows(c, env, st.store, r.st.store);
        KindOps(w, k, c, e, i + 1, env, r.st);
        GrowsTrans(st.store, r.st.store, EvalOps(w, k, c.Fal(), e, i + 1, env, r.st).st.store);
      }
    }
  }

  lemma {:induction false} KindControl(w: World, k: nat, c: Rule, e: Expr, env: Env, st: State)
    requires Setting(w, c) && EnvOk(c, env, st.store) && IsControl(e) && KVal(c, e)
    ensures var r := EvalX(w, k, c.Fal(), e, env, st);
      ResOk(c, st.store, r) && (r.Got? ==> PlainVal(r.v))
    decreases k, 1, e, 2
  {
    var e1 := if e.Assign? then e.rhs else e.tried;
    KindX(w, k, c, e1, env, st);
    var r := EvalX(w, k, c.Fal(), e1, env, st);
    if r.Got? {
      EnvGrows(c, env, st.store, r.st.store);
      if e.Try? && c.Closed() {
        KindTry(w, k, c, e1, env, st);
      } else if e.CatchElse? && r.v.Bad? {
        KindX(w, k, c, e.fallback, env, r.st);
        GrowsTrans(st.store, r.st.store, EvalX(w, k, c.Fal(), e.fallback, env, r.st).st.store);
      } else if e.CatchBlock? && r.v.Bad? {
        KindHandler(w, k, c, e.errVar, e.handler, ErrOf(r.v), env, r.st, st);
      }
    }
  }

  lemma {:induction false} KindHandler(w: World, k: nat, c: Rule, x: Option<string>, b: Block, v: Val,
                                       env: Env, st: State, was: State)
    requires Setting(w, c) && EnvOk(c, env, was.store) && Grows(was.store, st.store)
    requires v.Err? && (x.Some? ==> x.value in c.errVars) && KList(c, b)
    ensures var (env1, st1) := BindOpt(env, st, x, v);
      var r := ExecList(w, k, c.Fal(), b, env1, st1);
      RunOk(c, was.store, r) && (r.out.Normal? && KTail(c, b) ==> PlainVal(r.last))
    decreases k, 1, b, 6
  {
    EnvGrows(c, env, was.store, st.store);
    var (env1, st1) := BindOpt(env, st, x, v);
    KindList(w, k, c, b, env1, st1);
    GrowsTrans(was.store, st.store, st1.store);
    GrowsTrans(was.store, st1.store, ExecList(w, k, c.Fal(), b, env1, st1).st.store);
  }

  // With a named set, what `try` and `ret` pass on of a call belongs to the set.
  lemma {:induction false} KindTry(w: World, k: nat, c: Rule, e: Expr, env: Env, st: State)
    requires Setting(w, c) && EnvOk(c, env, st.store)
    requires c.Closed() && SameSetCall(c, e) && KRes(c, e)
    ensures var r := EvalX(w, k, c.Fal(), e, env, st);
      r.Got? && r.v.Bad? ==> Allowed(c, r.v.err)
    decreases k, 1, e, 4
  {
    KindOps(w, k, c, e, 0, env, st);
    var r := EvalOps(w, k, c.Fal(), e, 0, env, st);
    if r.GotAll? { KindCall(w, k, c, e.callee.name, r.vs, r.st); }
  }

  lemma {:induction false} KindList(w: World, k: nat, c: Rule, ss: Block, env: Env, st: State)
    requires Setting(w, c) && EnvOk(c, env, st.store) && KList(c, ss)
    ensures var r := ExecList(w, k, c.Fal(), ss, env, st);
      RunOk(c, st.store, r) && (r.out.Normal? && KTail(c, ss) ==> PlainVal(r.last))
    decreases k, 1, ss, 5
  {
    if ss != [] {
      assert KStmt(c, ss[0]);
      match ss[0]
      case VarDecl(x, e) => KindDecl(w, k, c, ss, env, st);
      case Defer(b) =>
        KindList(w, k, c, ss[1..], env, st);
        KindFinally(w, k, c, true, b, env, st, ExecList(w, k, c.Fal(), ss[1..], env, st));
      case ErrDefer(b) =>
        KindList(w, k, c, ss[1..], env, st);
        var r := ExecList(w, k, c.Fal(), ss[1..], env, st);
        KindFinally(w, k, c, IsErrorExit(r.out), b, env, st, r);
      case _ => KindSeq(w, k, c, ss, env, st);
    }
  }

  lemma {:induction false} KindDecl(w: World, k: nat, c: Rule, ss: Block, env: Env, st: State)
    requires Setting(w, c) && EnvOk(c, env, st.store) && KList(c, ss)
    requires ss != [] && ss[0].VarDecl?
    ensures var r := ExecList(w, k, c.Fal(), ss, env, st);
      RunOk(c, st.store, r) && (r.out.Normal? && KTail(c, ss) ==> PlainVal(r.last))
    decreases k, 1, ss, 2
  {
    var s := ss[0];
    assert KStmt(c, s);
    KindX(w, k, c, s.init, env, st);
    var r := EvalX(w, k, c.Fal(), s.init, env, st);
    if r.Got? {
      EnvGrows(c, env, st.store, r.st.store);
      var (env1, st1) := Bind(env, r.st, s.x, r.v);
      KindList(w, k, c, ss[1..], env1, st1);
      GrowsTrans(st.store, r.st.store, st1.store);
      GrowsTrans(st.store, st1.store, ExecList(w, k, c.Fal(), ss[1..], env1, st1).st.store);
    }
  }

  lemma {:induction false} KindSeq(w: World, k: nat, c: Rule, ss: Block, env: Env, st: State)
    requires Setting(w, c) && EnvOk(c, env, st.store) && KList(c, ss)
    requires ss != [] && !ss[0].VarDecl? && !ss[0].Defer? && !ss[0].ErrDefer?
    ensures var r := ExecList(w, k, c.Fal(), ss, env, st);
      RunOk(c, st.store, r) && (r.out.Normal? && KTail(c, ss) ==> PlainVal(r.last))
    decreases k, 1, ss, 2
  {
    assert KStmt(c, ss[0]);
    KindStmt(w, k, c, ss[0], env, st);
    var r := Exec(w, k, c.Fal(), ss[0], env, st);
    assert |ss| == 1 && KTail(c, ss) ==> KLast(c, ss[0]);
    if r.out.Normal? && |ss| > 1 {
      assert KTail(c, ss) ==> KTail(c, ss[1..]);
      EnvGrows(c, env, st.store, r.st.store);
      KindList(w, k, c, ss[1..], env, r.st);
      GrowsTrans(st.store, r.st.store, ExecList(w, k, c.Fal(), ss[1..], env, r.st).st.store);
    }
  }

  lemma {:induction false} KindFinally(w: World, k: nat, c: Rule, runs: bool, b: Block,
                                       env: Env, st: State, r: Res)
    requires Setting(w, c) && EnvOk(c, env, st.store) && KList(c, b)
    requires RunOk(c, st.store, r)
    ensures var d := Finally(w, k, c.Fal(), runs, b, env, r);
      RunOk(c, st.store, d) && (d.out.Normal? ==> r.out.Normal? && d.last == r.last)
    decreases k, 0
  {
    if !r.out.Timeout? && k > 0 && runs {
      EnvGrows(c, env, st.store, r.st.store);
      KindList(w, k - 1, c, b, env, r.st);
      GrowsTrans(st.store, r.st.store, ExecList(w, k - 1, c.Fal(), b, env, r.st).st.store);
    }
  }

  lemma {:induction false} KindStmt(w: World, k: nat, c: Rule, s: Stmt, env: Env, st: State)
    requires Setting(w, c) && EnvOk(c, env, st.store) && KStmt(c, s)
    ensures var r := Exec(w, k, c.Fal(), s, env, st);
      RunOk(c, st.store, r) &&
      (r.out.Normal? ==> PlainVal(r.last) || (s.ExprStmt? && !KVal(c, s.e)))
    decreases k, 1, s, 1
  {
    match s
    case ExprStmt(e) =>
      if KRes(c, e) { KindX(w, k, c, e, env, st); } else {
        KindX(w, k, c, e.tried, env, st);
        var r := EvalX(w, k, c.Fal(), e.tried, env, st);
        if r.Got? && r.v.Bad? {
          KindHandler(w, k, c, e.errVar, e.handler, ErrOf(r.v), env, r.st, st);
        }
      }
    case Print(e) => KindX(w, k, c, e, env, st);
    case If(e, thn, els) =>
      KindX(w, k, c, e, env, st);
      var r := EvalX(w, k, c.Fal(), e, env, st);
      if r.Got? {
        EnvGrows(c, env, st.store, r.st.store);
        if Truthy(r.v) {
          KindList(w, k, c, thn, env, r.st);
        } else {
          match els
          case NoElse =>
          case ElseBlock(b) => KindList(w, k, c, b, env, r.st);
          case ElseIf(s1) => KindStmt(w, k, c, s1, env, r.st);
        }
      }
    case When(e, arms) =>
      KindX(w, k, c, e, env, st);
      var r := EvalX(w, k, c.Fal(), e, env, st);
      if r.Got? {
        EnvGrows(c, env, st.store, r.st.store);
        KindArms(w, k, c, r.v, arms, env, r.st);
      }
    case While(_, _) => KindWhile(w, k, c, s, env, st);
    case Ret(Some(e)) => KindRet(w, k, c, e, env, st);
    case _ =>
  }

  lemma {:induction false} KindRet(w: World, k: nat, c: Rule, e: Expr, env: Env, st: State)
    requires Setting(w, c) && EnvOk(c, env, st.store) && KStmt(c, Ret(Some(e)))
    ensures RunOk(c, st.store, Exec(w, k, c.Fal(), Ret(Some(e)), env, st))
    decreases k, 1, e, 5
  {
    if KRes(c, e) || IsAtom(e) { KindX(w, k, c, e, env, st); }
    if c.Closed() && SameSetCall(c, e) && KRes(c, e) { KindTry(w, k, c, e, env, st); }
  }

  lemma {:induction false} KindArms(w: World, k: nat, c: Rule, v: Val, arms: seq<Arm>, env: Env, st: State)
    requires Setting(w, c) && EnvOk(c, env, st.store) && KArms(c, arms)
    ensures RunOk(c, st.store, ExecArms(w, k, c.Fal(), v, arms, env, st))
      && ExecArms(w, k, c.Fal(), v, arms, env, st).last == Unit
    decreases k, 1, arms
  {
    if arms != [] {
      assert KArm(c, arms[0]);
      if arms[0].pattern.None? {
        KindList(w, k, c, arms[0].body, env, st);
      } else {
        assert (arms decreases to arms[0]) && (arms[0] decreases to arms[0].pattern.value);
        KindX(w, k, c, arms[0].pattern.value, env, st);
        var p := EvalX(w, k, c.Fal(), arms[0].pattern.value, env, st);
        if p.Got? {
          EnvGrows(c, env, st.store, p.st.store);
          if p.v == v {
            KindList(w, k, c, arms[0].body, env, p.st);
          } else {
            KindArms(w, k, c, v, arms[1..], env, p.st);
          }
        }
      }
    }
  }

  lemma {:induction false} KindWhile(w: World, k: nat, c: Rule, s: Stmt, env: Env, st: State)
    requires Setting(w, c) && EnvOk(c, env, st.store) && s.While? && KStmt(c, s)
    ensures RunOk(c, st.store, ExecWhile(w, k, c.Fal(), s, env, st))
      && ExecWhile(w, k, c.Fal(), s, env, st).last == Unit
    decreases k, 1, s, 0
  {
    if k > 0 {
      KindX(w, k - 1, c, s.cond, env, st);
      var r := EvalX(w, k - 1, c.Fal(), s.cond, env, st);
      if r.Got? && Truthy(r.v) {
        EnvGrows(c, env, st.store, r.st.store);
        KindList(w, k - 1, c, s.body, env, r.st);
        var b := ExecList(w, k - 1, c.Fal(), s.body, env, r.st);
        GrowsTrans(st.store, r.st.store, b.st.store);
        if b.out.Normal? || b.out.Cont? {
          EnvGrows(c, env, st.store, b.st.store);
          KindWhile(w, k - 1, c, s, env, b.st);
          GrowsTrans(st.store, b.st.store, ExecWhile(w, k - 1, c.Fal(), s, env, b.st).st.store);
        }
      }
    }
  }
}
