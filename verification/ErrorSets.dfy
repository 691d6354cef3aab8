/** The error-set checks of src/sema/check.c, and why they are worth having: in a program
    that passes, a function declared `Set!T` is only ever left with a value or with a
    declared variant of its set. */
module ErrorSets {
  import opened Ast
  import opened Options
  import opened Seqs
  import opened Semantics
  import opened Kinding
  import opened Cpp
  import opened Ordering
  import opened Preservation
  import opened Support

  // ---------- the checks ----------

  // fn_err_set: the set named in the return type, if any.
  function FnErrSet(ret: RetType): Option<string> {
    match ret
    case Plain(_) => None
    case Fallible(s, _) => s
  }

  function Count(b: bool): nat { if b then 1 else 0 }

  // check_ret_value
  function CheckRetValue(p: Program, fnSet: Option<string>, v: Expr): nat {
    match v
    case ErrLit(_) => Count(fnSet.Some?)
    case Field(Ident(s), variant) =>
      (match FindErrSet(p.errs, s)
       case None => 0
       case Some(d) =>
         Count(variant !in d.variants) + Count(fnSet.Some? && d.name != fnSet.value))
    case _ => 0
  }

  // The check at `try f(...)`.
  function CheckTry(p: Program, fnSet: Option<string>, e: Expr): nat {
    if fnSet.Some? && e.Call? && e.callee.Ident? then
      match FindFn(p.fns, e.callee.name)
      case None => 0
      case Some(callee) =>
        var cs := FnErrSet(callee.ret);
        Count(cs.Some? && cs.value != fnSet.value)
    else 0
  }

  // walk: the number of error-set errors in a part of a function body.
  function WalkX(p: Program, fnSet: Option<string>, e: Expr): nat
    decreases e, 0
  {
    match e
    case Try(e1) => CheckTry(p, fnSet, e1) + WalkX(p, fnSet, e1)
    case CatchElse(e1, fb) => WalkX(p, fnSet, e1) + WalkX(p, fnSet, fb)
    case CatchBlock(e1, _, b) => WalkX(p, fnSet, e1) + WalkList(p, fnSet, b)
    case Assign(_, l, r) => WalkX(p, fnSet, l) + WalkX(p, fnSet, r)
    case Binary(_, l, r) => WalkX(p, fnSet, l) + WalkX(p, fnSet, r)
    case Unary(_, x) => WalkX(p, fnSet, x)
    case Field(x, _) => WalkX(p, fnSet, x)
    case FieldPtr(x, _) => WalkX(p, fnSet, x)
    case Subscript(x, i) => WalkX(p, fnSet, x) + WalkX(p, fnSet, i)
    case Deref(x) => WalkX(p, fnSet, x)
    case Call(x, args) => (if x.Ident? then 0 else WalkX(p, fnSet, x)) + WalkArgs(p, fnSet, args)
    case _ => 0
  }

  function WalkArgs(p: Program, fnSet: Option<string>, es: seq<Expr>): nat
    decreases es, 0
  {
    if es == [] then 0 else WalkX(p, fnSet, es[0]) + WalkArgs(p, fnSet, es[1..])
  }

  function WalkList(p: Program, fnSet: Option<string>, ss: Block): nat
    decreases ss, 0
  {
    if ss == [] then 0 else WalkStmt(p, fnSet, ss[0]) + WalkList(p, fnSet, ss[1..])
  }

  function WalkStmt(p: Program, fnSet: Option<string>, s: Stmt): nat
    decreases s, 1
  {
    match s
    case ExprStmt(e) => WalkX(p, fnSet, e)
    case Print(e) => WalkX(p, fnSet, e)
    case VarDecl(_, e) => WalkX(p, fnSet, e)
    case If(e, thn, els) =>
      WalkX(p, fnSet, e) + WalkList(p, fnSet, thn) +
      (match els
       case NoElse => 0
       case ElseBlock(b) => WalkList(p, fnSet, b)
       case ElseIf(s1) => WalkStmt(p, fnSet, s1))
    case When(e, arms) => WalkX(p, fnSet, e) + WalkArms(p, fnSet, arms)
    case While(e, b) => WalkX(p, fnSet, e) + WalkList(p, fnSet, b)
    case Break => 0
    case Continue => 0
    case Defer(b) => WalkList(p, fnSet, b)
    case ErrDefer(b) => WalkList(p, fnSet, b)
    case Ret(None) => 0
    case Ret(Some(e)) => CheckRetValue(p, fnSet, e) + WalkX(p, fnSet, e)
  }

  function WalkArms(p: Program, fnSet: Option<string>, arms: seq<Arm>): nat
    decreases arms, 0
  {
    if arms == [] then 0
    else
      (match arms[0].pattern { case None => 0 case Some(e) => WalkX(p, fnSet, e) }) +
      WalkList(p, fnSet, arms[0].body) + WalkArms(p, fnSet, arms[1..])
  }

  function CheckFns(p: Program, fns: seq<FnDecl>): nat {
    if fns == [] then 0
    else WalkList(p, FnErrSet(fns[0].ret), fns[0].body) + CheckFns(p, fns[1..])
  }

  // The error-set part of check_program.
  function CheckErrorSets(p: Program): nat { CheckFns(p, p.fns) }

  // ---------- what the checks cannot see ----------

  // In a function with a named set: `try` takes a direct call of a function that has a
  // named set too, and `ret` a value or Set.Variant.  Elsewhere anything goes.
  predicate VisibleTry(c: Rule, e: Expr)
    requires c.ret.Fallible?
  {
    c.ret.set_.Some? ==>
      e.Call? && e.callee.Ident? &&
      var fn := FindFn(c.prog.fns, e.callee.name);
      fn.Some? && fn.value.ret.Fallible? && fn.value.ret.set_.Some?
  }

  predicate VisibleX(c: Rule, e: Expr)
    decreases e, 0
  {
    if IsAtom(e) then true
    else if e.Tuple? then forall i | 0 <= i < |e.elems| :: Pure(e.elems[i])  // the walk passes by tuples
    else if IsLogic(e) || IsOp(e) then forall i | 0 <= i < |Operands(e)| :: VisibleX(c, Operands(e)[i])
    else if e.Assign? then VisibleX(c, e.rhs)
    else if e.Try? then c.ret.Fallible? && VisibleTry(c, e.tried) && VisibleX(c, e.tried)
    else if e.CatchElse? then VisibleX(c, e.tried) && VisibleX(c, e.fallback)
    else VisibleX(c, e.tried) && VisibleList(c, e.handler)
  }

  predicate VisibleList(c: Rule, ss: Block)
    decreases ss, 1
  {
    forall i | 0 <= i < |ss| :: VisibleStmt(c, ss[i])
  }

  predicate VisibleRet(c: Rule, e: Expr) {
    c.ret.Fallible? && c.ret.set_.Some? ==> KVal(c, e) || IsErrReturn(c.prog.errs, e) || SameSetCall(c, e)
  }

  predicate VisibleStmt(c: Rule, s: Stmt)
    decreases s, 2
  {
    match s
    case ExprStmt(e) => VisibleX(c, e)
    case Print(e) => VisibleX(c, e)
    case VarDecl(_, e) => VisibleX(c, e)
    case If(e, thn, els) =>
      VisibleX(c, e) && VisibleList(c, thn) &&
      (match els
       case NoElse => true
       case ElseBlock(b) => VisibleList(c, b)
       case ElseIf(s1) => VisibleStmt(c, s1))
    case When(e, arms) => VisibleX(c, e) && VisibleArms(c, arms)
    case While(e, b) => VisibleX(c, e) && VisibleList(c, b)
    case Defer(b) => VisibleList(c, b)
    case ErrDefer(b) => VisibleList(c, b)
    case Ret(Some(e)) => VisibleX(c, e) && VisibleRet(c, e)
    case _ => true
  }

  predicate VisibleArms(c: Rule, arms: seq<Arm>)
    decreases arms, 1
  {
    forall i | 0 <= i < |arms| :: VisibleArm(c, arms[i])
  }

  predicate VisibleArm(c: Rule, arm: Arm)
    decreases arm, 1
  {
    (arm.pattern.Some? ==> VisibleX(c, arm.pattern.value)) && VisibleList(c, arm.body)
  }

  predicate Visible(p: Program, names: ErrNames) {
    forall i | 0 <= i < |p.fns| :: VisibleList(FnRule(p, names, false, p.fns[i]), p.fns[i].body)
  }

  // ---------- passing the checks establishes the strict discipline ----------

  function Strict(c: Rule): Rule { c.(strict := true) }

  function SetOf(c: Rule): Option<string> { FnErrSet(c.ret) }

  lemma {:induction false} WalkArgAt(p: Program, fnSet: Option<string>, es: seq<Expr>, i: nat)
    requires i < |es|
    ensures WalkX(p, fnSet, es[i]) <= WalkArgs(p, fnSet, es)
    decreases i
  {
    if i > 0 {
      WalkArgAt(p, fnSet, es[1..], i - 1);
      assert es[1..][i - 1] == es[i];
    }
  }

  // Every operand is walked, except for the elements of tuples.
  lemma WalkOperand(p: Program, fnSet: Option<string>, e: Expr, i: nat)
    requires (IsLogic(e) || IsOp(e)) && !e.Tuple? && i < |Operands(e)|
    ensures WalkX(p, fnSet, Operands(e)[i]) <= WalkX(p, fnSet, e)
  {
    if e.Call? {
      var at := if e.callee.Ident? then i else i - 1;
      if at >= 0 { WalkArgAt(p, fnSet, e.args, at); }
    }
  }

  // Where nothing is tried there is nothing to report.
  lemma {:induction false} PureWalk(p: Program, fnSet: Option<string>, e: Expr)
    requires Pure(e)
    ensures WalkX(p, fnSet, e) == 0
  {
    if e.Binary? {
      assert Operands(e)[0] == e.left && Operands(e)[1] == e.right;
      PureWalk(p, fnSet, e.left);
      PureWalk(p, fnSet, e.right);
    } else if e.Unary? {
      assert Operands(e)[0] == e.operand;
      PureWalk(p, fnSet, e.operand);
    } else if (e.Field? && !e.target.Ident?) || e.FieldPtr? || e.Deref? {
      assert Operands(e)[0] == e.target;
      PureWalk(p, fnSet, e.target);
    } else if e.Subscript? {
      assert Operands(e)[0] == e.target && Operands(e)[1] == e.index;
      PureWalk(p, fnSet, e.target);
      PureWalk(p, fnSet, e.index);
    }
  }

  lemma {:induction false} PureVisible(c: Rule, e: Expr)
    requires Pure(e)
    ensures VisibleX(c, e)
  {
    if e.Tuple? {
      assert Operands(e) == e.elems;
    } else if !IsAtom(e) {
      forall i | 0 <= i < |Operands(e)| ensures VisibleX(c, Operands(e)[i]) { PureVisible(c, Operands(e)[i]); }
    }
  }

  lemma {:induction false} CheckedOps(c: Rule, e: Expr)
    requires !c.strict && VisibleX(c, e) && WalkX(c.prog, SetOf(c), e) == 0 && (IsLogic(e) || IsOp(e))
    requires KOps(c, e)
    ensures KOps(Strict(c), e)
    decreases e, 0
  {
    forall i | 0 <= i < |Operands(e)| ensures KVal(Strict(c), Operands(e)[i]) {
      if e.Tuple? {
        PureVisible(c, e.elems[i]);
        PureWalk(c.prog, SetOf(c), e.elems[i]);
      } else {
        WalkOperand(c.prog, SetOf(c), e, i);
      }
      CheckedX(c, Operands(e)[i]);
    }
  }

  lemma {:induction false} CheckedX(c: Rule, e: Expr)
    requires !c.strict && VisibleX(c, e) && WalkX(c.prog, SetOf(c), e) == 0
    ensures KVal(c, e) ==> KVal(Strict(c), e)
    ensures KRes(c, e) ==> KRes(Strict(c), e)
    decreases e, 1
  {
    if IsAtom(e) {
    } else if IsLogic(e) || IsOp(e) {
      if KOps(c, e) { CheckedOps(c, e); }
    } else if e.Assign? {
      CheckedX(c, e.rhs);
    } else {
      CheckedX(c, e.tried);
      if e.CatchElse? {
        CheckedX(c, e.fallback);
      } else if e.CatchBlock? {
        if KList(c, e.handler) { CheckedList(c, e.handler); }
        if KTail(c, e.handler) && e.handler != [] { CheckedTail(c, e.handler); }
      }
    }
  }

  lemma {:induction false} CheckedTail(c: Rule, b: Block)
    requires !c.strict && VisibleList(c, b) && WalkList(c.prog, SetOf(c), b) == 0 && b != []
    ensures KTail(c, b) ==> KTail(Strict(c), b)
    decreases b, 3
  {
    WalkAt(c.prog, SetOf(c), b, |b| - 1);
    CheckedLast(c, b[|b| - 1]);
  }

  lemma {:induction false} CheckedLast(c: Rule, s: Stmt)
    requires !c.strict && VisibleStmt(c, s) && WalkStmt(c.prog, SetOf(c), s) == 0
    ensures KLast(c, s) ==> KLast(Strict(c), s)
    decreases s, 2
  {
    if s.ExprStmt? { CheckedX(c, s.e); }
  }

  lemma {:induction false} WalkAt(p: Program, fnSet: Option<string>, ss: Block, i: nat)
    requires i < |ss|
    ensures WalkStmt(p, fnSet, ss[i]) <= WalkList(p, fnSet, ss)
    decreases i
  {
    if i > 0 {
      WalkAt(p, fnSet, ss[1..], i - 1);
      assert ss[1..][i - 1] == ss[i];
    }
  }

  lemma {:induction false} WalkArmAt(p: Program, fnSet: Option<string>, arms: seq<Arm>, i: nat)
    requires i < |arms|
    ensures WalkList(p, fnSet, arms[i].body) <= WalkArms(p, fnSet, arms)
    ensures arms[i].pattern.Some? ==> WalkX(p, fnSet, arms[i].pattern.value) <= WalkArms(p, fnSet, arms)
    decreases i
  {
    if i > 0 {
      WalkArmAt(p, fnSet, arms[1..], i - 1);
      assert arms[1..][i - 1] == arms[i];
    }
  }

  lemma {:induction false} CheckedList(c: Rule, ss: Block)
    requires !c.strict && VisibleList(c, ss) && WalkList(c.prog, SetOf(c), ss) == 0 && KList(c, ss)
    ensures KList(Strict(c), ss)
    decreases ss, 2
  {
    forall i | 0 <= i < |ss| ensures KStmt(Strict(c), ss[i]) {
      WalkAt(c.prog, SetOf(c), ss, i);
      assert VisibleStmt(c, ss[i]) && KStmt(c, ss[i]);
      CheckedStmt(c, ss[i]);
    }
  }

  lemma {:induction false} CheckedStmt(c: Rule, s: Stmt)
    requires !c.strict && VisibleStmt(c, s) && WalkStmt(c.prog, SetOf(c), s) == 0 && KStmt(c, s)
    ensures KStmt(Strict(c), s)
    decreases s, 2
  {
    match s
    case ExprStmt(e) => CheckedDrop(c, e);
    case Print(e) => CheckedX(c, e);
    case VarDecl(_, e) => CheckedX(c, e);
    case If(e, thn, els) =>
      CheckedX(c, e);
      CheckedList(c, thn);
      match els {
        case NoElse =>
        case ElseBlock(b) => CheckedList(c, b);
        case ElseIf(s1) => CheckedStmt(c, s1);
      }
    case When(e, arms) =>
      CheckedX(c, e);
      CheckedArms(c, arms);
    case While(e, b) => CheckedX(c, e); CheckedList(c, b);
    case Defer(b) => CheckedList(c, b);
    case ErrDefer(b) => CheckedList(c, b);
    case Ret(Some(e)) =>
      CheckedX(c, e);
      if e.Field? && e.target.Ident? { FoundSet(c.prog.errs, e.target.name); }
    case _ =>
  }

  lemma {:induction false} FoundSet(errs: seq<ErrDecl>, s: string)
    ensures FindErrSet(errs, s).Some? ==> FindErrSet(errs, s).value.name == s
  {
    if errs != [] && errs[0].name != s { FoundSet(errs[1..], s); }
  }

  lemma {:induction false} CheckedArms(c: Rule, arms: seq<Arm>)
    requires !c.strict && VisibleArms(c, arms) && WalkArms(c.prog, SetOf(c), arms) == 0 && KArms(c, arms)
    ensures KArms(Strict(c), arms)
    decreases arms, 3
  {
    forall i | 0 <= i < |arms| ensures KArm(Strict(c), arms[i]) {
      WalkArmAt(c.prog, SetOf(c), arms, i);
      assert VisibleArm(c, arms[i]) && KArm(c, arms[i]);
      CheckedArm(c, arms[i]);
    }
  }

  lemma {:induction false} CheckedArm(c: Rule, arm: Arm)
    requires !c.strict && VisibleArm(c, arm) && KArm(c, arm) && WalkList(c.prog, SetOf(c), arm.body) == 0
    requires arm.pattern.Some? ==> WalkX(c.prog, SetOf(c), arm.pattern.value) == 0
    ensures KArm(Strict(c), arm)
    decreases arm, 3
  {
    CheckedList(c, arm.body);
    if arm.pattern.Some? { CheckedX(c, arm.pattern.value); }
  }

  lemma {:induction false} CheckedDrop(c: Rule, e: Expr)
    requires !c.strict && VisibleX(c, e) && WalkX(c.prog, SetOf(c), e) == 0 && KDrop(c, e)
    ensures KDrop(Strict(c), e)
    decreases e, 4
  {
    if KRes(c, e) { CheckedX(c, e); } else {
      CheckedX(c, e.tried);
      CheckedList(c, e.handler);
    }
  }

  lemma {:induction false} WalkFnAt(p: Program, fns: seq<FnDecl>, i: nat)
    requires i < |fns|
    ensures WalkList(p, FnErrSet(fns[i].ret), fns[i].body) <= CheckFns(p, fns)
    decreases i
  {
    if i > 0 {
      WalkFnAt(p, fns[1..], i - 1);
      assert fns[1..][i - 1] == fns[i];
    }
  }

  lemma CheckedProgram(p: Program, names: ErrNames)
    requires KProgram(p, names, false) && Visible(p, names) && CheckErrorSets(p) == 0
    ensures KProgram(p, names, true)
  {
    forall i | 0 <= i < |p.fns| ensures KFn(p, names, true, p.fns[i]) {
      var fn := p.fns[i];
      var c := FnRule(p, names, false, fn);
      assert KFn(p, names, false, fn) && VisibleList(c, fn.body);
      WalkFnAt(p, p.fns, i);
      CheckedList(c, fn.body);
      assert Strict(c) == FnRule(p, names, true, fn);
    }
  }

  // ---------- the main results ----------

  /** In every run of a program that passes the checks, calling a function declared with a
      named set yields a value or an error that is a declared variant of that set. */
  lemma ErrorSetSoundness(w: World, names: ErrNames, k: nat, f: string, s: string, vs: seq<Val>, st: State)
    requires KProgram(w.prog, names, false) && Visible(w.prog, names) && CheckErrorSets(w.prog) == 0
    requires PlainVals(vs) && Started(w.prog, st.store)
    requires FindFn(w.prog.fns, f).Some? && FnErrSet(FindFn(w.prog.fns, f).value.ret) == Some(s)
    ensures var r := CallNamed(w, k, f, vs, st);
      r.Got? ==> PlainVal(r.v) || (r.v.Good? && PlainVal(r.v.v)) ||
                 (r.v.Bad? && r.v.err.Named? && r.v.err.set_ == s && Declares(w.prog.errs, s, r.v.err.variant))
  {
    CheckedProgram(w.prog, names);
    var c := Rule(w.prog, names, true, Plain(true), {});
    KindCall(w, k, c, f, vs, st);
  }

  /** The same for the emitted program. */
  lemma EmittedErrorSetSoundness(w: World, pick: Pick, ltr: bool, names: ErrNames, k: nat, f: string, s: string,
                                 vs: seq<Val>, st: State, ok: bool)
    requires KProgram(w.prog, names, false) && Visible(w.prog, names) && CheckErrorSets(w.prog) == 0
    requires SProgram(w.prog, names, ltr) && (ltr ==> pick == LEFT_TO_RIGHT)
    requires PlainVals(vs) && Started(w.prog, st.store)
    requires FindFn(w.prog.fns, f).Some? && FnErrSet(FindFn(w.prog.fns, f).value.ret) == Some(s)
    ensures var r := TCallNamed(LowerWorld(w, pick), k, f, vs, TState(st, ok));
      r.TGot? && r.v.Bad? ==> r.v.err.Named? && r.v.err.set_ == s && Declares(w.prog.errs, s, r.v.err.variant)
  {
    ErrorSetSoundness(w, names, k, f, s, vs, st);
    LoweringPreservesCalls(w, pick, ltr, names, k, f, vs, st, ok);
  }

  // ---------- what gets past the checks ----------

  // A call that ends in an error which is no variant of s.
  predicate Escapes(errs: seq<ErrDecl>, s: string, r: ERes) {
    r.Got? && r.v.Bad? && !(r.v.err.Named? && r.v.err.set_ == s && Declares(errs, s, r.v.err.variant))
  }

  // A function declared with the set s, and a call with plain arguments that it makes.
  ghost predicate Passes(w: World, names: ErrNames, fn: FnDecl, s: string, call: Expr, vs: seq<Val>, st: State) {
    && KProgram(w.prog, names, false) && KFn(w.prog, names, false, fn)
    && PlainVals(vs) && Started(w.prog, st.store)
    && FnErrSet(fn.ret) == Some(s)
    && call.Call? && call.callee.Ident? && (forall i | 0 <= i < |call.args| :: Pure(call.args[i]))
    && KOps(FnRule(w.prog, names, false, fn), call)
  }

  // The call as it is made from the body of the function.
  function Inner(w: World, k: nat, fn: FnDecl, call: Expr, vs: seq<Val>, st: State): ERes {
    var (env, st1) := BindParams(fn.params, vs, GlobalEnv(w.prog.globals), st);
    EvalX(w, k, true, call, env, st1)
  }

  lemma InnerAnswers(w: World, names: ErrNames, k: nat, fn: FnDecl, s: string, call: Expr, vs: seq<Val>, st: State)
    requires Passes(w, names, fn, s, call, vs, st)
    ensures var q := Inner(w, k, fn, call, vs, st);
      && (q.Gone? ==> q.out.Timeout?) && (q.Got? ==> Answer(q.v))
    ensures forall t :: WalkX(w.prog, t, call) == 0
  {
    var c := FnRule(w.prog, names, false, fn);
    CalleeOk(c, fn, vs, st);
    var (env, st1) := BindParams(fn.params, vs, GlobalEnv(w.prog.globals), st);
    KindX(w, k, c, call, env, st1);
    PureStays(call);
    EvalXOut(w, k, true, call, env, st1);
    forall t ensures WalkX(w.prog, t, call) == 0 { PureArgs(w.prog, t, call.args); }
  }

  lemma {:induction false} PureArgs(p: Program, t: Option<string>, es: seq<Expr>)
    requires forall i | 0 <= i < |es| :: Pure(es[i])
    ensures WalkArgs(p, t, es) == 0
  {
    if es != [] {
      PureWalk(p, t, es[0]);
      PureArgs(p, t, es[1..]);
    }
  }

  lemma {:induction false} PureStays(e: Expr)
    requires IsAtom(e) || ((IsLogic(e) || IsOp(e)) && forall i | 0 <= i < |Operands(e)| :: Pure(Operands(e)[i]))
    ensures Stays(e)
  {
    if !IsAtom(e) {
      forall i | 0 <= i < |Operands(e)| ensures Stays(Operands(e)[i]) { PureStays(Operands(e)[i]); }
    }
  }

  lemma OneReturn(w: World, k: nat, e: Expr, env: Env, st: State)
    ensures ExecList(w, k, true, [Ret(Some(e))], env, st) == Exec(w, k, true, Ret(Some(e)), env, st)
  {}

  lemma WalkOne(p: Program, t: Option<string>, s: Stmt)
    ensures WalkList(p, t, [s]) == WalkStmt(p, t, s)
  {
    assert [s][1..] == [];
  }

  /** `ret try g(...)` in a function declared with the set s: it passes exactly if g is not
      declared with another named set; and it is left with an error that is not in s exactly
      when g is.  So a generic `!T` passes unseen. */
  lemma TryEscapesIff(w: World, names: ErrNames, k: nat, fn: FnDecl, s: string, call: Expr, vs: seq<Val>,
                      st: State)
    requires Passes(w, names, fn, s, call, vs, st) && fn.body == [Ret(Some(Try(call)))]
    ensures var g := FindFn(w.prog.fns, call.callee.name);
      WalkList(w.prog, Some(s), fn.body) == 0 <==>
        (g.Some? && FnErrSet(g.value.ret).Some? ==> FnErrSet(g.value.ret) == Some(s))
    ensures Escapes(w.prog.errs, s, CallFn(w, k, fn, vs, st)) <==>
      Escapes(w.prog.errs, s, Inner(w, k, fn, call, vs, st))
  {
    InnerAnswers(w, names, k, fn, s, call, vs, st);
    assert fn.body[1..] == [];
    assert WalkStmt(w.prog, Some(s), fn.body[0]) == WalkX(w.prog, Some(s), Try(call));
    var (env, st1) := BindParams(fn.params, vs, GlobalEnv(w.prog.globals), st);
    OneReturn(w, k, Try(call), env, st1);
  }

  /** `ret g(...)` without `try` always passes, and leaks exactly what g leaks. */
  lemma CallEscapesIff(w: World, names: ErrNames, k: nat, fn: FnDecl, s: string, call: Expr, vs: seq<Val>,
                       st: State)
    requires Passes(w, names, fn, s, call, vs, st) && fn.body == [Ret(Some(call))]
    ensures WalkList(w.prog, Some(s), fn.body) == 0
    ensures Escapes(w.prog.errs, s, CallFn(w, k, fn, vs, st)) <==>
      Escapes(w.prog.errs, s, Inner(w, k, fn, call, vs, st))
  {
    InnerAnswers(w, names, k, fn, s, call, vs, st);
    assert fn.body[1..] == [];
    assert WalkStmt(w.prog, Some(s), fn.body[0]) == WalkX(w.prog, Some(s), call);
    var (env, st1) := BindParams(fn.params, vs, GlobalEnv(w.prog.globals), st);
    OneReturn(w, k, call, env, st1);
  }

  /** `g(...) catch |x| { ret x } ret n` always passes, and leaks exactly what g leaks. */
  lemma CaughtEscapesIff(w: World, names: ErrNames, k: nat, fn: FnDecl, s: string, call: Expr, x: string, n: int,
                         vs: seq<Val>, st: State)
    requires Passes(w, names, fn, s, call, vs, st)
    requires fn.body == [ExprStmt(CatchBlock(call, Some(x), [Ret(Some(Ident(x)))])), Ret(Some(Int(n)))]
    ensures WalkList(w.prog, Some(s), fn.body) == 0
    ensures Escapes(w.prog.errs, s, CallFn(w, k, fn, vs, st)) <==>
      Escapes(w.prog.errs, s, Inner(w, k, fn, call, vs, st))
  {
    InnerAnswers(w, names, k, fn, s, call, vs, st);
    var ret, last := Ret(Some(Ident(x))), Ret(Some(Int(n)));
    assert fn.body[1..] == [last];
    WalkOne(w.prog, Some(s), ret);
    WalkOne(w.prog, Some(s), last);
    assert WalkStmt(w.prog, Some(s), ret) == 0 && WalkStmt(w.prog, Some(s), last) == 0;
    assert WalkStmt(w.prog, Some(s), fn.body[0]) == WalkX(w.prog, Some(s), call);
    var (env, st1) := BindParams(fn.params, vs, GlobalEnv(w.prog.globals), st);
    var q := EvalX(w, k, true, call, env, st1);
    OneReturn(w, k, Int(n), env, q.st);
    assert EvalX(w, k, true, Int(n), env, q.st) == Got(Num(n), q.st);
    var cb := CatchBlock(call, Some(x), [ret]);
    assert fn.body[0] == ExprStmt(cb) && IsControl(cb) && !IsAtom(cb) && !IsLogic(cb) && !IsOp(cb);
    var first := Exec(w, k, true, fn.body[0], env, st1);
    assert ExecList(w, k, true, fn.body, env, st1) ==
      if first.out.Normal? then ExecList(w, k, true, [last], env, first.st) else first;
    if q.Got? && q.v.Bad? {
      var (env2, st2) := BindOpt(env, q.st, Some(x), ErrOf(q.v));
      OneReturn(w, k, Ident(x), env2, st2);
      assert EvalX(w, k, true, Ident(x), env2, st2) == Got(Err(q.v.err), st2);
      assert EvalX(w, k, true, cb, env, st1) == Gone(Leave(Bad(q.v.err)), st2);
      assert first.out == Leave(Bad(q.v.err));
    } else if q.Got? {
      assert EvalX(w, k, true, cb, env, st1) == Got(ValueOf(q.v), q.st);
      assert first.out == Normal && first.st == q.st;
      assert Exec(w, k, true, last, env, q.st) == Res(Leave(Good(Num(n))), q.st, Unit);
      assert CallFn(w, k, fn, vs, st) == Got(Good(Num(n)), q.st);
    } else {
      assert EvalX(w, k, true, cb, env, st1) == q;
    }
  }

  /** `ret (try g(...), n)`: tuples are not walked, so it passes even if g is declared with
      another named set, and leaks exactly what g leaks. */
  lemma TupleEscapesIff(w: World, names: ErrNames, k: nat, fn: FnDecl, s: string, call: Expr, n: int,
                        vs: seq<Val>, st: State)
    requires Passes(w, names, fn, s, call, vs, st) && fn.body == [Ret(Some(Tuple([Try(call), Int(n)])))]
    ensures WalkList(w.prog, Some(s), fn.body) == 0
    ensures Escapes(w.prog.errs, s, CallFn(w, k, fn, vs, st)) <==>
      Escapes(w.prog.errs, s, Inner(w, k, fn, call, vs, st))
  {
    InnerAnswers(w, names, k, fn, s, call, vs, st);
    var e := Tuple([Try(call), Int(n)]);
    assert fn.body[1..] == [];
    assert WalkStmt(w.prog, Some(s), fn.body[0]) == 0;
    var (env, st1) := BindParams(fn.params, vs, GlobalEnv(w.prog.globals), st);
    OneReturn(w, k, e, env, st1);
    var q := EvalX(w, k, true, Try(call), env, st1);
    assert Operands(e) == [Try(call), Int(n)];
    assert EvalOps(w, k, true, e, 2, env, q.st) == GotAll([], q.st);
    assert EvalX(w, k, true, Int(n), env, q.st) == Got(Num(n), q.st);
    assert EvalOps(w, k, true, e, 1, env, q.st) == GotAll([Num(n)] + [], q.st);
    var r := EvalX(w, k, true, e, env, st1);
    assert EvalOps(w, k, true, e, 0, env, st1) ==
      if q.Gone? then GoneAll(q.out, q.st) else GotAll([q.v] + ([Num(n)] + []), q.st);
    assert if q.Gone? then r == q else r == Got(Apply(w, OTuple, [q.v] + ([Num(n)] + [])), q.st);
  }

  /** If g is declared with the set s itself, and the program passes, nothing leaks. */
  lemma SameSetNeverEscapes(w: World, names: ErrNames, k: nat, fn: FnDecl, s: string, call: Expr,
                            vs: seq<Val>, st: State)
    requires Passes(w, names, fn, s, call, vs, st) && Visible(w.prog, names) && CheckErrorSets(w.prog) == 0
    requires var g := FindFn(w.prog.fns, call.callee.name); g.Some? && FnErrSet(g.value.ret) == Some(s)
    ensures !Escapes(w.prog.errs, s, Inner(w, k, fn, call, vs, st))
  {
    var c := FnRule(w.prog, names, false, fn);
    CalleeOk(c, fn, vs, st);
    var (env, st1) := BindParams(fn.params, vs, GlobalEnv(w.prog.globals), st);
    KindOps(w, k, c, call, 0, env, st1);
    var r := EvalOps(w, k, true, call, 0, env, st1);
    if r.GotAll? { ErrorSetSoundness(w, names, k, call.callee.name, s, r.vs, r.st); }
  }

  // fn boom() -> !i32 { ret err.Boom }
  // fn other() -> R!i32 { ret R.B }
  const BOOM := FnDecl("boom", [], Fallible(None, false), [Ret(Some(ErrLit("Boom")))])
  const OTHER := FnDecl("other", [], Fallible(Some("R"), false), [Ret(Some(Field(Ident("R"), "B")))])

  // fn tries() -> S!i32 { ret try boom() }      fn calls() -> S!i32 { ret boom() }
  // fn catches() -> S!i32 { boom() catch |e| { ret e }  ret 0 }
  // fn tuples() -> S!(i32, i32) { ret (try other(), 0) }
  const IN_S := Fallible(Some("S"), false)
  const CALL_BOOM := Call(Ident("boom"), [])
  const CALL_OTHER := Call(Ident("other"), [])
  const TRIES := FnDecl("tries", [], IN_S, [Ret(Some(Try(CALL_BOOM)))])
  const CALLS := FnDecl("calls", [], IN_S, [Ret(Some(CALL_BOOM))])
  const CATCHES := FnDecl("catches", [], IN_S,
    [ExprStmt(CatchBlock(CALL_BOOM, Some("e"), [Ret(Some(Ident("e")))])), Ret(Some(Int(0)))])
  const TUPLES := FnDecl("tuples", [], IN_S, [Ret(Some(Tuple([Try(CALL_OTHER), Int(0)])))])
  const BLIND_NAMES: ErrNames := map["catches" := {"e"}]
  const BLIND := Program([BOOM, OTHER, TRIES, CALLS, CATCHES, TUPLES], [ErrDecl("S", ["A"]), ErrDecl("R", ["B"])], [])

  lemma BlindFinds()
    ensures FindFn(BLIND.fns, "boom") == Some(BOOM) && FindFn(BLIND.fns, "other") == Some(OTHER)
    ensures IsErrName(BLIND.errs, "R") && !Declares(BLIND.errs, "S", "Boom")
    ensures FindErrSet(BLIND.errs, "R") == Some(ErrDecl("R", ["B"]))
  {
    assert BLIND.fns[0] == BOOM && BLIND.fns[1..][0] == OTHER;
    assert BLIND.errs[0] == ErrDecl("S", ["A"]) && BLIND.errs[1..][0] == ErrDecl("R", ["B"]);
  }

  lemma BlindLeaves(w: World, k: nat, fn: FnDecl, e: Expr, err: ErrId, st: State)
    requires w.prog.globals == [] && fn.params == [] && fn.ret.Fallible? && fn.body == [Ret(Some(e))]
    requires EvalX(w, k, true, e, map[], st) == Got(Err(err), st)
    ensures CallFn(w, k, fn, [], st) == Got(Bad(err), st)
  {
    assert GlobalEnv([]) == map[];
    OneReturn(w, k, e, map[], st);
  }

  lemma BlindCalls(w: World, k: nat, fn: FnDecl, st: State)
    requires w.prog == BLIND && k > 0 && fn.params == []
    ensures Inner(w, k, fn, CALL_BOOM, [], st) == Got(Bad(AdHoc("Boom")), st)
    ensures Inner(w, k, fn, CALL_OTHER, [], st) == Got(Bad(Named("R", "B")), st)
  {
    BlindFinds();
    BlindLeaves(w, k - 1, BOOM, ErrLit("Boom"), AdHoc("Boom"), st);
    BlindLeaves(w, k - 1, OTHER, Field(Ident("R"), "B"), Named("R", "B"), st);
    assert EvalOps(w, k, true, CALL_BOOM, 0, map[], st) == GotAll([], st);
    assert EvalOps(w, k, true, CALL_OTHER, 0, map[], st) == GotAll([], st);
    assert EvalX(w, k, true, CALL_BOOM, map[], st) == CallNamed(w, k, "boom", [], st);
    assert EvalX(w, k, true, CALL_OTHER, map[], st) == CallNamed(w, k, "other", [], st);
    assert BindParams([], [], map[], st) == (map[], st);
    assert Inner(w, k, fn, CALL_BOOM, [], st) == EvalX(w, k, true, CALL_BOOM, map[], st);
    assert Inner(w, k, fn, CALL_OTHER, [], st) == EvalX(w, k, true, CALL_OTHER, map[], st);
  }

  lemma KOne(c: Rule, s: Stmt)
    requires KStmt(c, s)
    ensures KList(c, [s])
  {}

  // Each function obeys the discipline.
  lemma BlindRule(c: Rule)
    requires c.prog == BLIND
    ensures KRes(c, CALL_BOOM) && KRes(c, CALL_OTHER) && KOps(c, CALL_BOOM) && KOps(c, CALL_OTHER)
  {
    assert KOps(c, CALL_BOOM) && KOps(c, CALL_OTHER);
  }

  lemma BlindKindCatches()
    ensures KFn(BLIND, BLIND_NAMES, false, CATCHES)
  {
    var c := FnRule(BLIND, BLIND_NAMES, false, CATCHES);
    var ret := Ret(Some(Ident("e")));
    BlindRule(c);
    assert KErrReturn(c, Ident("e"));
    KOne(c, ret);
    assert KDrop(c, CatchBlock(CALL_BOOM, Some("e"), [ret]));
    assert KStmt(c, CATCHES.body[0]) && KStmt(c, CATCHES.body[1]);
  }

  lemma BlindKindTuples()
    ensures KFn(BLIND, BLIND_NAMES, false, TUPLES)
  {
    var c := FnRule(BLIND, BLIND_NAMES, false, TUPLES);
    var e := Tuple([Try(CALL_OTHER), Int(0)]);
    BlindRule(c);
    assert KVal(c, Try(CALL_OTHER)) && Operands(e) == [Try(CALL_OTHER), Int(0)];
    assert KOps(c, e) && KVal(c, e);
    KOne(c, TUPLES.body[0]);
  }

  lemma BlindKinds()
    ensures KProgram(BLIND, BLIND_NAMES, false)
  {
    BlindFinds();
    BlindKindCatches();
    BlindKindTuples();
    BlindKindOthers();
  }

  lemma BlindKindOthers()
    ensures KFn(BLIND, BLIND_NAMES, false, BOOM) && KFn(BLIND, BLIND_NAMES, false, OTHER)
    ensures KFn(BLIND, BLIND_NAMES, false, TRIES) && KFn(BLIND, BLIND_NAMES, false, CALLS)
  {
    BlindFinds();
    var c := FnRule(BLIND, BLIND_NAMES, false, TRIES);
    BlindRule(c);
    assert KVal(c, Try(CALL_BOOM));
    KOne(c, TRIES.body[0]);
    KOne(FnRule(BLIND, BLIND_NAMES, false, CALLS), CALLS.body[0]);
    KOne(FnRule(BLIND, BLIND_NAMES, false, BOOM), BOOM.body[0]);
    KOne(FnRule(BLIND, BLIND_NAMES, false, OTHER), OTHER.body[0]);
  }

  lemma BlindSetting(w: World, fn: FnDecl, call: Expr, st: State)
    requires w.prog == BLIND && fn in BLIND.fns && FnErrSet(fn.ret) == Some("S")
    requires call == CALL_BOOM || call == CALL_OTHER
    ensures Passes(w, BLIND_NAMES, fn, "S", call, [], st)
  {
    BlindKinds();
    BlindRule(FnRule(BLIND, BLIND_NAMES, false, fn));
  }

  /** A program that passes, four of whose functions are declared with S and are left with
      errors outside S: by `try` and by plain return of a generic `!T`, by returning a
      caught error, and by a `try` inside a tuple. */
  lemma BlindEscapes(w: World, k: nat, st: State)
    requires w.prog == BLIND && k > 0
    ensures CheckErrorSets(BLIND) == 0 && KProgram(BLIND, BLIND_NAMES, false)
    ensures forall fn | fn in {TRIES, CALLS, CATCHES, TUPLES} :: Escapes(BLIND.errs, "S", CallFn(w, k, fn, [], st))
  {
    BlindFinds();
    assert BLIND.fns == [BOOM, OTHER, TRIES, CALLS, CATCHES, TUPLES];
    BlindSetting(w, TRIES, CALL_BOOM, st);
    BlindSetting(w, CALLS, CALL_BOOM, st);
    BlindSetting(w, CATCHES, CALL_BOOM, st);
    BlindSetting(w, TUPLES, CALL_OTHER, st);
    BlindCalls(w, k, TRIES, st);
    BlindCalls(w, k, CALLS, st);
    BlindCalls(w, k, CATCHES, st);
    BlindCalls(w, k, TUPLES, st);
    TryEscapesIff(w, BLIND_NAMES, k, TRIES, "S", CALL_BOOM, [], st);
    CallEscapesIff(w, BLIND_NAMES, k, CALLS, "S", CALL_BOOM, [], st);
    CaughtEscapesIff(w, BLIND_NAMES, k, CATCHES, "S", CALL_BOOM, "e", 0, [], st);
    TupleEscapesIff(w, BLIND_NAMES, k, TUPLES, "S", CALL_OTHER, 0, [], st);
    BlindPasses();
  }

  lemma BlindPasses()
    requires forall fn | fn in {TRIES, CALLS, CATCHES, TUPLES} :: WalkList(BLIND, Some("S"), fn.body) == 0
    ensures CheckErrorSets(BLIND) == 0
  {
    BlindFinds();
    assert BOOM.body[1..] == [] && OTHER.body[1..] == [];
    assert WalkList(BLIND, None, BOOM.body) == 0;
    assert WalkList(BLIND, Some("R"), OTHER.body) == 0;
    var fns := [TUPLES];
    assert fns[1..] == [] && CheckFns(BLIND, fns) == 0;
    ConsTail(CATCHES, fns);
    fns := [CATCHES] + fns;
    assert CheckFns(BLIND, fns) == 0;
    ConsTail(CALLS, fns);
    fns := [CALLS] + fns;
    assert CheckFns(BLIND, fns) == 0;
    ConsTail(TRIES, fns);
    fns := [TRIES] + fns;
    assert CheckFns(BLIND, fns) == 0;
    ConsTail(OTHER, fns);
    fns := [OTHER] + fns;
    assert CheckFns(BLIND, fns) == 0;
    ConsTail(BOOM, fns);
    assert BLIND.fns == [BOOM] + fns;
  }
}
