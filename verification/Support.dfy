/** The programs on which the emitter keeps the documented meaning of deferred code and
    error handling, and on which the emitted text is read as it was meant.  Each condition
    is a syntactic one; modules Flags, Gaps and Emission say what happens without most of
    them. */
module Support {
  import opened Ast
  import opened Options
  import opened Semantics
  import opened Kinding
  import opened Lowering

  // Where a statement stands: in a function that keeps `_fn_ok`, inside a loop, inside
  // deferred code, directly in the body of the function, in the operand of a `ret` that
  // has already set `_fn_ok`; and whether the C++ compiler evaluates operands and arguments
  // from left to right.
  datatype Place = Place(rule: Rule, flag: bool, loop: bool, dfr: bool, top: bool, late: bool, ltr: bool) {
    function Inner(): Place { this.(top := false) }
    function InLoop(): Place { this.(top := false, loop := true) }
    function InCond(): Place { this.(top := false, loop := false) }
    function InDefer(): Place { this.(top := false, loop := false, dfr := true) }
    function InRet(): Place { this.(top := false, late := flag) }
  }

  // ---------- blocks that never run off their end ----------

  predicate Leaves(b: Block)
    decreases b, 0
  {
    b != [] && LeavesStmt(b[|b| - 1])
  }

  predicate LeavesStmt(s: Stmt)
    decreases s, 1
  {
    match s
    case Ret(_) => true
    case Break => true
    case Continue => true
    case If(_, thn, els) => Leaves(thn) && LeavesElse(els)
    case When(_, arms) =>
      arms != [] && arms[|arms| - 1].pattern.None? &&
      forall i | 0 <= i < |arms| :: Leaves(arms[i].body)
    case _ => false
  }

  predicate LeavesElse(els: Else)
    decreases els, 1
  {
    match els
    case NoElse => false
    case ElseBlock(b) => Leaves(b)
    case ElseIf(s) => LeavesStmt(s)
  }

  // ---------- the conditions ----------

  // Evaluation reads variables and does nothing else.
  predicate Pure(e: Expr) {
    || IsAtom(e)
    || ((IsLogic(e) || IsOp(e)) && KForm(e) && !e.Call? &&
        forall i | 0 <= i < |Operands(e)| :: Pure(Operands(e)[i]))
  }

  // No top-level variable is read.  A local variable of the same name counts as one.
  predicate NoGlobals(gs: seq<string>, e: Expr) {
    if e.Ident? then e.name !in gs
    else if e.Field? && e.target.Ident? then e.target.name !in gs
    else forall i | 0 <= i < |Operands(e)| :: NoGlobals(gs, Operands(e)[i])
  }

  // Nothing is called on the way to a value.
  predicate CallFree(e: Expr) {
    if IsAtom(e) then true
    else if IsLogic(e) || IsOp(e) then !e.Call? && forall i | 0 <= i < |Operands(e)| :: CallFree(Operands(e)[i])
    else if e.Assign? then CallFree(e.rhs)
    else CallFree(e.tried) && (e.CatchElse? ==> CallFree(e.fallback))
  }

  // A value is reached only with the local variables as they were: calls cannot change
  // the caller's, and a handler block that leaves yields no value.
  predicate NoWrites(e: Expr) {
    if IsAtom(e) then true
    else if IsLogic(e) || IsOp(e) then KForm(e) && forall i | 0 <= i < |Operands(e)| :: NoWrites(Operands(e)[i])
    else if e.Assign? then false
    else if e.Try? then NoWrites(e.tried)
    else if e.CatchElse? then NoWrites(e.tried) && NoWrites(e.fallback)
    else NoWrites(e.tried) && Leaves(e.handler)
  }

  // Evaluation cannot leave the function.
  predicate Stays(e: Expr) {
    if IsAtom(e) then true
    else if IsLogic(e) || IsOp(e) then forall i | 0 <= i < |Operands(e)| :: Stays(Operands(e)[i])
    else if e.Assign? then Stays(e.rhs)
    else e.CatchElse? && Stays(e.tried) && Stays(e.fallback)
  }

  // All operands but the j-th are pure.
  predicate PureBut(e: Expr, j: nat) {
    forall i | 0 <= i < |Operands(e)| && i != j :: Pure(Operands(e)[i])
  }

  // What a call may change is not read beside it.
  predicate Unseen(gs: seq<string>, e: Expr, j: nat) {
    forall i | 0 <= i < |Operands(e)| && i != j :: NoGlobals(gs, Operands(e)[i])
  }

  predicate OneAt(gs: seq<string>, e: Expr, j: nat) {
    && PureBut(e, j)
    && (j < |Operands(e)| && |Operands(e)| > 1 ==>
          NoWrites(Operands(e)[j]) && (CallFree(Operands(e)[j]) || Unseen(gs, e, j)))
  }

  // Operands and arguments that may be evaluated in any order: at most one of them does
  // anything, and the others cannot tell whether it has been done.
  predicate Orderly(gs: seq<string>, e: Expr) {
    exists j | 0 <= j <= |Operands(e)| :: OneAt(gs, e, j)
  }

  // The text of an assignment has no parentheses of its own.
  predicate Grouped(e: Expr) {
    if e.Binary? then !e.left.Assign? && !e.right.Assign?
    else if e.Unary? then !e.operand.Assign? && !Doubled(e.pre, e.operand)
    else if e.Field? || e.FieldPtr? || e.Subscript? then !e.target.Assign? && PostfixTarget(e.target)
    else e.Deref? ==> !e.target.Assign?
  }

  // `_fn_ok` is set before the operand of `ret` is evaluated, so the operand must either
  // be an error by its shape or be certain not to end in one.
  predicate SafeRet(c: Rule, e: Expr) {
    IsErrReturn(c.prog.errs, e) || (KVal(c, e) && Stays(e))
  }

  predicate SOps(x: Place, e: Expr)
    decreases e, 0
  {
    forall i | 0 <= i < |Operands(e)| :: SExpr(x, Operands(e)[i])
  }

  predicate SExpr(x: Place, e: Expr)
    decreases e, 1
  {
    if IsAtom(e) then true
    else if IsLogic(e) then Grouped(e) && SOps(x, e)
    else if IsOp(e) then Grouped(e) && (x.ltr || Orderly(x.rule.prog.globals, e)) && SOps(x, e)
    else if e.Assign? then SExpr(x, e.rhs)
    else if e.Try? then !x.dfr && SExpr(x, e.tried)
    else if e.CatchElse? then SExpr(x, e.tried) && SExpr(x, e.fallback)
    else SExpr(x, e.tried) && SList(x.Inner(), e.handler) && Leaves(e.handler)
  }

  predicate SDrop(x: Place, e: Expr)
    decreases e, 2
  {
    if e.CatchElse? then SExpr(x, e.tried) && Pure(e.fallback)
    else if e.CatchBlock? then SExpr(x, e.tried) && SList(x.Inner(), e.handler)
    else SExpr(x, e)
  }

  // Read any number of times, and beside `==`.
  predicate STest(x: Place, e: Expr)
    decreases e, 2
  {
    Pure(e) && SExpr(x, e)
  }

  predicate SArm(x: Place, arm: Arm)
    decreases arm, 1
  {
    (arm.pattern.Some? ==> STest(x, arm.pattern.value)) && SList(x.Inner(), arm.body)
  }

  predicate SStmt(x: Place, s: Stmt)
    decreases s, 1
  {
    match s
    case ExprStmt(e) => SDrop(x, e)
    case Print(e) => SExpr(x, e) && !e.Assign?
    case VarDecl(_, e) => SExpr(x, e)
    case If(e, thn, els) =>
      SExpr(x, e) && SList(x.Inner(), thn) &&
      (match els
       case NoElse => true
       case ElseBlock(b) => SList(x.Inner(), b)
       case ElseIf(s1) => s1.If? && SStmt(x.Inner(), s1))
    case When(e, arms) =>
      && STest(x, e) && arms != [] && arms[0].pattern.Some?
      && (forall i | 0 <= i < |arms| - 1 :: arms[i].pattern.Some?)
      && (forall i | 0 <= i < |arms| :: SArm(x, arms[i]))
    case While(e, b) => SExpr(x.InCond(), e) && SList(x.InLoop(), b)
    case Break => x.loop
    case Continue => x.loop
    case Defer(b) => SList(x.InDefer(), b)
    case ErrDefer(b) => x.top && x.flag && !x.late && SList(x.InDefer(), b)
    case Ret(None) => !x.dfr
    case Ret(Some(e)) => !x.dfr && SExpr(x.InRet(), e) && (x.flag && !x.late ==> SafeRet(x.rule, e))
  }

  // After an `errdefer` the block must not run off its end.
  predicate SList(x: Place, ss: Block)
    decreases ss, 0
  {
    ss == [] ||
    (SStmt(x, ss[0]) && SList(x, ss[1..]) && (ss[0].ErrDefer? ==> Leaves(ss[1..])))
  }

  // The body with the success return that the emitter adds.
  function FullBody(fn: FnDecl): Block {
    fn.body + if ImplicitReturn(fn) then [Ret(None)] else []
  }

  function FnPlace(p: Program, names: ErrNames, ltr: bool, fn: FnDecl): Place {
    Place(FnRule(p, names, false, fn), FnCfg(p.errs, fn).flag, false, false, true, false, ltr)
  }

  predicate SFn(p: Program, names: ErrNames, ltr: bool, fn: FnDecl) {
    && SList(FnPlace(p, names, ltr, fn), FullBody(fn))
    && (!fn.ret.isVoid ==> Leaves(fn.body))
  }

  predicate SProgram(p: Program, names: ErrNames, ltr: bool) {
    forall i | 0 <= i < |p.fns| :: SFn(p, names, ltr, p.fns[i])
  }

  // ---------- a leaving block is left ----------

  lemma {:induction false} LeavesIsLeft(w: World, k: nat, fal: bool, b: Block, env: Env, st: State)
    requires Leaves(b)
    ensures !ExecList(w, k, fal, b, env, st).out.Normal?
    decreases k, 1, b, 0
  {
    var s := b[0];
    if s.VarDecl? {
      var r := EvalX(w, k, fal, s.init, env, st);
      EvalXOut(w, k, fal, s.init, env, st);
      if r.Got? {
        var (env1, st1) := Bind(env, r.st, s.x, r.v);
        LeavesIsLeft(w, k, fal, b[1..], env1, st1);
      }
    } else if s.Defer? || s.ErrDefer? {
      LeavesIsLeft(w, k, fal, b[1..], env, st);
    } else if |b| > 1 {
      LeavesIsLeft(w, k, fal, b[1..], env, Exec(w, k, fal, s, env, st).st);
    } else {
      LeavesStmtIsLeft(w, k, fal, s, env, st);
    }
  }

  lemma {:induction false} LeavesStmtIsLeft(w: World, k: nat, fal: bool, s: Stmt, env: Env, st: State)
    requires LeavesStmt(s)
    ensures !Exec(w, k, fal, s, env, st).out.Normal?
    decreases k, 1, s, 1
  {
    match s
    case If(e, thn, els) =>
      var r := EvalX(w, k, fal, e, env, st);
      EvalXOut(w, k, fal, e, env, st);
      if r.Got? {
        if Truthy(r.v) {
          LeavesIsLeft(w, k, fal, thn, env, r.st);
        } else {
          assert LeavesElse(els);
          match els
          case ElseBlock(b) => LeavesIsLeft(w, k, fal, b, env, r.st);
          case ElseIf(s1) => LeavesStmtIsLeft(w, k, fal, s1, env, r.st);
        }
      }
    case When(e, arms) =>
      var r := EvalX(w, k, fal, e, env, st);
      EvalXOut(w, k, fal, e, env, st);
      if r.Got? { LeavesArms(w, k, fal, r.v, arms, env, r.st); }
    case Ret(Some(e)) => EvalXOut(w, k, fal, e, env, st);
    case _ =>
  }

  lemma {:induction false} LeavesArms(w: World, k: nat, fal: bool, v: Val, arms: seq<Arm>, env: Env, st: State)
    requires arms != [] && arms[|arms| - 1].pattern.None?
    requires forall i | 0 <= i < |arms| :: Leaves(arms[i].body)
    ensures !ExecArms(w, k, fal, v, arms, env, st).out.Normal?
    decreases k, 1, arms
  {
    if arms[0].pattern.None? {
      LeavesIsLeft(w, k, fal, arms[0].body, env, st);
    } else {
      var p := EvalX(w, k, fal, arms[0].pattern.value, env, st);
      assert (arms decreases to arms[0]) && (arms[0] decreases to arms[0].pattern.value);
      EvalXOut(w, k, fal, arms[0].pattern.value, env, st);
      if p.Got? && p.v == v {
        LeavesIsLeft(w, k, fal, arms[0].body, env, p.st);
      } else if p.Got? {
        LeavesArms(w, k, fal, v, arms[1..], env, p.st);
      }
    }
  }

  // Evaluation that does not yield a value leaves, and a call leaves only by timing out.
  lemma {:induction false} EvalXOut(w: World, k: nat, fal: bool, e: Expr, env: Env, st: State)
    ensures var r := EvalX(w, k, fal, e, env, st);
      r.Gone? ==> !r.out.Normal? && (Stays(e) ==> r.out.Timeout?)
    decreases k, 1, e, 1
  {
    if IsAtom(e) {
    } else if IsLogic(e) {
      assert Operands(e)[0] == e.left && Operands(e)[1] == e.right;
      EvalXOut(w, k, fal, e.left, env, st);
      EvalXOut(w, k, fal, e.right, env, EvalX(w, k, fal, e.left, env, st).st);
    } else if IsOp(e) {
      EvalOpsOut(w, k, fal, e, 0, env, st);
      var r := EvalOps(w, k, fal, e, 0, env, st);
      if r.GotAll? && OperOf(e).OCall? { CallOut(w, k, OperOf(e).f, r.vs, r.st); }
    } else {
      var e1 := if e.Assign? then e.rhs else e.tried;
      EvalXOut(w, k, fal, e1, env, st);
      if e.CatchElse? { EvalXOut(w, k, fal, e.fallback, env, EvalX(w, k, fal, e1, env, st).st); }
    }
  }

  lemma CallOut(w: World, k: nat, f: string, vs: seq<Val>, st: State)
    ensures CallNamed(w, k, f, vs, st).Gone? ==> CallNamed(w, k, f, vs, st).out.Timeout?
  {
    var found := FindFn(w.prog.fns, f);
    if found.Some? && k > 0 {
      var r := CallFn(w, k - 1, found.value, vs, st);
      assert r.Gone? ==> r.out.Timeout?;
    }
  }

  lemma {:induction false} EvalOpsOut(w: World, k: nat, fal: bool, e: Expr, i: nat, env: Env, st: State)
    requires i <= |Operands(e)|
    ensures var r := EvalOps(w, k, fal, e, i, env, st);
      && (r.GoneAll? ==> !r.out.Normal?)
      && (r.GoneAll? && (forall m | 0 <= m < |Operands(e)| :: Stays(Operands(e)[m])) ==> r.out.Timeout?)
    decreases k, 1, e, 0, |Operands(e)| - i
  {
    if i < |Operands(e)| {
      EvalXOut(w, k, fal, Operands(e)[i], env, st);
      EvalOpsOut(w, k, fal, e, i + 1, env, EvalX(w, k, fal, Operands(e)[i], env, st).st);
    }
  }
}
