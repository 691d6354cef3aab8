/** The part of C++ (with GCC statement expressions) that the emitter produces, and its
    meaning: guard objects live in the scope that declares them and are destroyed in the
    reverse order of their declaration however the scope is left, as section 9.6
    [stmt.jump] of ISO/IEC 14882:2017 demands; `_fn_ok` is a variable of the function. */
module Cpp {
  import opened Ast
  import opened Options
  import opened Semantics

  datatype TExpr =
    | TPure(e: Expr)                              // a name or a literal
    | TOp(o: Oper, args: seq<TExpr>)
    | TLogic(op: BinOp, left: TExpr, right: TExpr)    // && and ||
    | TAssign(asg: AsgOp, x: string, rhs: TExpr)
    | TIsBad(n: nat)                              // !_r_n.is_ok()
    | TErrOf(n: nat)                              // _r_n.error()
    | TValOf(n: nat)                              // _r_n.value()
    | TPick(n: nat, other: TExpr)                 // _r_n.is_ok() ? _r_n.value() : (other)
    | TNotOk                                      // !_fn_ok
    | TStmtExpr(ss: seq<TStmt>, result: TExpr)    // ({ ss result; })

  datatype TStmt =
    | TEval(e: TExpr)
    | TPrint(e: TExpr)
    | TDecl(x: string, e: TExpr)                  // auto x = e;
    | TTemp(n: nat, e: TExpr)                     // auto _r_n = (e);
    | TIf(c: TExpr, thn: seq<TStmt>, els: TElse)
    | TWhile(c: TExpr, body: seq<TStmt>)
    | TBlock(ss: seq<TStmt>)
    | TGuard(onError: bool, id: nat, body: seq<TStmt>)  // _defer_id or _errdefer_id
    | TSetOk                                      // _fn_ok = true;
    | TReturn(value: Option<TExpr>, wrapped: bool)    // return _OlrnResult<T>(e); or return e;
    | TBreak
    | TContinue

  datatype TElse = TNoElse | TElseBlock(ss: seq<TStmt>) | TElseIf(chain: TStmt)

  datatype TFn = TFn(name: string, params: seq<string>, flag: bool, body: seq<TStmt>)

  datatype TEnv = TEnv(vars: Env, temps: map<nat, Val>)

  datatype TState = TState(base: State, ok: bool)

  // C++ leaves the order of operands and arguments open (sections 4.6 [intro.execution]
  // and 8.2.2 [expr.call]).  `pick` says which of the operands that are left comes next,
  // at each moment of a run as it likes; nothing below depends on it.
  type Pick = (TExpr, seq<nat>, TState) -> nat

  datatype TWorld = TWorld(w: World, fns: seq<TFn>, pick: Pick)

  datatype TERes = TGot(v: Val, st: TState) | TGone(out: Out, st: TState)

  datatype TEAll = TGotAll(vs: seq<Val>, st: TState) | TGoneAll(out: Out, st: TState)

  // A guard object holds a lambda that captures its environment by reference.
  datatype Guard = Guard(body: seq<TStmt>, env: TEnv)

  // After a statement list: the environment and the guards, oldest first, of its scope.
  datatype TRes = TRes(out: Out, st: TState, env: TEnv, guards: seq<Guard>)

  datatype TEnd = TEnd(out: Out, st: TState)

  function FindT(fns: seq<TFn>, f: string): Option<TFn> {
    if fns == [] then None
    else if fns[0].name == f then Some(fns[0])
    else FindT(fns[1..], f)
  }

  // ---------- where `_fn_ok` occurs ----------

  predicate UsesX(e: TExpr) {
    match e
    case TOp(_, args) => UsesArgs(args)
    case TLogic(_, l, r) => UsesX(l) || UsesX(r)
    case TAssign(_, _, a) => UsesX(a)
    case TPick(_, a) => UsesX(a)
    case TNotOk => true
    case TStmtExpr(ss, a) => Uses(ss) || UsesX(a)
    case _ => false
  }

  predicate UsesArgs(es: seq<TExpr>) { es != [] && (UsesX(es[0]) || UsesArgs(es[1..])) }

  predicate UsesS(s: TStmt) {
    match s
    case TEval(e) => UsesX(e)
    case TPrint(e) => UsesX(e)
    case TDecl(_, e) => UsesX(e)
    case TTemp(_, e) => UsesX(e)
    case TIf(c, a, b) => UsesX(c) || Uses(a) || UsesE(b)
    case TWhile(c, a) => UsesX(c) || Uses(a)
    case TBlock(a) => Uses(a)
    case TGuard(onError, _, a) => onError || Uses(a)
    case TSetOk => true
    case TReturn(Some(e), _) => UsesX(e)
    case _ => false
  }

  predicate UsesE(b: TElse) {
    match b
    case TNoElse => false
    case TElseBlock(ss) => Uses(ss)
    case TElseIf(s) => UsesS(s)
  }

  predicate Uses(ss: seq<TStmt>) { ss != [] && (UsesS(ss[0]) || Uses(ss[1..])) }

  predicate Compiles(fn: TFn) { Uses(fn.body) ==> fn.flag }

  // ---------- runs ----------

  function Temp(env: TEnv, n: nat): Val { if n in env.temps then env.temps[n] else Unit }

  function All(n: nat): (r: seq<nat>)
    ensures |r| == n && forall i | 0 <= i < n :: r[i] == i
  {
    if n == 0 then [] else All(n - 1) + [n - 1]
  }

  function Blank(n: nat): (vs: seq<Val>)
    ensures |vs| == n
  {
    if n == 0 then [] else Blank(n - 1) + [Unit]
  }

  function Without(s: seq<nat>, p: nat): (r: seq<nat>)
    requires p < |s|
    ensures |r| == |s| - 1
  {
    s[..p] + s[p + 1..]
  }

  predicate Below(s: seq<nat>, n: nat) { forall i | 0 <= i < |s| :: s[i] < n }

  function TEvalX(tw: TWorld, k: nat, e: TExpr, env: TEnv, st: TState): TERes
    decreases k, 1, e, 1
  {
    match e
    case TPure(p) => TGot(if IsAtom(p) then AtomVal(tw.w, p, env.vars, st.base.store) else Unit, st)
    case TOp(o, args) =>
      var r := TOperands(tw, k, e, All(|args|), Blank(|args|), env, st);
      if r.TGoneAll? then TGone(r.out, r.st)
      else if o.OCall? then TCallNamed(tw, k, o.f, r.vs, r.st)
      else TGot(Apply(tw.w, o, r.vs), r.st)
    case TLogic(op, l, r) =>
      var a := TEvalX(tw, k, l, env, st);
      if a.TGone? then a
      else if Truthy(a.v) == (op == Or) then TGot(Bool(op == Or), a.st)
      else
        var b := TEvalX(tw, k, r, env, a.st);
        if b.TGone? then b else TGot(Bool(Truthy(b.v)), b.st)
    case TAssign(op, x, rhs) =>
      var r := TEvalX(tw, k, rhs, env, st);
      if r.TGone? then r
      else
        var (v, base) := Store(tw.w, op, x, r.v, env.vars, r.st.base);
        TGot(v, r.st.(base := base))
    case TIsBad(n) => TGot(Bool(Temp(env, n).Bad?), st)
    case TErrOf(n) => TGot(ErrOf(Temp(env, n)), st)
    case TValOf(n) => TGot(ValueOf(Temp(env, n)), st)
    case TPick(n, other) =>
      if Temp(env, n).Bad? then TEvalX(tw, k, other, env, st) else TGot(ValueOf(Temp(env, n)), st)
    case TNotOk => TGot(Bool(!st.ok), st)
    case TStmtExpr(ss, result) =>
      var r := TList(tw, k, ss, env, st);
      if r.out.Timeout? then TGone(Timeout, r.st)
      else if r.out.Normal? then
        var v := TEvalX(tw, k, result, r.env, r.st);
        var u := Unwind(tw, k, r.guards, if v.TGot? then Normal else v.out, v.st);
        if v.TGot? && u.out.Normal? then TGot(v.v, u.st) else TGone(u.out, u.st)
      else
        var u := Unwind(tw, k, r.guards, r.out, r.st);
        TGone(u.out, u.st)
  }

  // The operands with the numbers in `rest`, in the order picked; the others have `vs`.
  function TOperands(tw: TWorld, k: nat, e: TExpr, rest: seq<nat>, vs: seq<Val>, env: TEnv, st: TState): TEAll
    requires e.TOp? && |vs| == |e.args| && Below(rest, |e.args|)
    decreases k, 1, e, 0, |rest|
  {
    if rest == [] then TGotAll(vs, st)
    else
      var p := tw.pick(e, rest, st) % |rest|;
      var i := rest[p];
      var r := TEvalX(tw, k, e.args[i], env, st);
      if r.TGone? then TGoneAll(r.out, r.st)
      else TOperands(tw, k, e, Without(rest, p), vs[i := r.v], env, r.st)
  }

  function TCallNamed(tw: TWorld, k: nat, f: string, vs: seq<Val>, st: TState): TERes
    decreases k, 0, 0
  {
    match FindT(tw.fns, f)
    case None => TGot(Unit, st)
    case Some(fn) => if k == 0 then TGone(Timeout, st) else TCallFn(tw, k - 1, fn, vs, st)
  }

  // Each call has its own `_fn_ok`.  A function that uses the flag without declaring it is
  // no C++: nothing is run.
  function TCallFn(tw: TWorld, k: nat, fn: TFn, vs: seq<Val>, st: TState): TERes
    decreases k, 1, fn
  {
    if !Compiles(fn) then TGot(Unit, st)
    else
      var (env, base) := BindParams(fn.params, vs, GlobalEnv(tw.w.prog.globals), st.base);
      var r := TScope(tw, k, fn.body, TEnv(env, map[]), TState(base, false));
      var st1 := st.(base := r.st.base);
      match r.out
      case Timeout => TGone(Timeout, st1)
      case Leave(v) => TGot(v, st1)
      case _ => TGot(Unit, st1)
  }

  // Destructors run newest first; a lambda cannot change how the scope is left.
  function Unwind(tw: TWorld, k: nat, guards: seq<Guard>, out: Out, st: TState): TEnd
    decreases k, 0, |guards|
  {
    if out.Timeout? || guards == [] then TEnd(out, st)
    else if k == 0 then TEnd(Timeout, st)
    else
      var g := guards[|guards| - 1];
      var r := TScope(tw, k - 1, g.body, g.env, st);
      if r.out.Timeout? then r else Unwind(tw, k, guards[..|guards| - 1], out, r.st)
  }

  function TScope(tw: TWorld, k: nat, ss: seq<TStmt>, env: TEnv, st: TState): TEnd
    decreases k, 1, ss, 1
  {
    var r := TList(tw, k, ss, env, st);
    Unwind(tw, k, r.guards, r.out, r.st)
  }

  function GuardBody(s: TStmt): seq<TStmt>
    requires s.TGuard?
  {
    if s.onError then [TIf(TNotOk, s.body, TNoElse)] else s.body
  }

  function TList(tw: TWorld, k: nat, ss: seq<TStmt>, env: TEnv, st: TState): TRes
    decreases k, 1, ss, 0
  {
    if ss == [] then TRes(Normal, st, env, [])
    else
      match ss[0]
      case TDecl(x, e) =>
        assert (ss decreases to ss[0]) && (ss[0] decreases to e);
        var r := TEvalX(tw, k, e, env, st);
        if r.TGone? then TRes(r.out, r.st, env, [])
        else
          var (vars, base) := Bind(env.vars, r.st.base, x, r.v);
          TList(tw, k, ss[1..], env.(vars := vars), r.st.(base := base))
      case TTemp(n, e) =>
        assert (ss decreases to ss[0]) && (ss[0] decreases to e);
        var r := TEvalX(tw, k, e, env, st);
        if r.TGone? then TRes(r.out, r.st, env, [])
        else TList(tw, k, ss[1..], env.(temps := env.temps[n := r.v]), r.st)
      case TGuard(_, _, _) =>
        var r := TList(tw, k, ss[1..], env, st);
        r.(guards := [Guard(GuardBody(ss[0]), env)] + r.guards)
      case s =>
        var r := TExec(tw, k, s, env, st);
        if r.out.Normal? then TList(tw, k, ss[1..], env, r.st) else TRes(r.out, r.st, env, [])
  }

  function TExec(tw: TWorld, k: nat, s: TStmt, env: TEnv, st: TState): TEnd
    decreases k, 1, s, 1
  {
    match s
    case TEval(e) =>
      var r := TEvalX(tw, k, e, env, st);
      if r.TGone? then TEnd(r.out, r.st) else TEnd(Normal, r.st)
    case TPrint(e) =>
      var r := TEvalX(tw, k, e, env, st);
      if r.TGone? then TEnd(r.out, r.st)
      else TEnd(Normal, r.st.(base := Semantics.Emit(r.st.base, r.v)))
    case TIf(c, thn, els) =>
      var r := TEvalX(tw, k, c, env, st);
      if r.TGone? then TEnd(r.out, r.st)
      else if Truthy(r.v) then TScope(tw, k, thn, env, r.st)
      else TOtherwise(tw, k, els, env, r.st)
    case TWhile(_, _) => TLoop(tw, k, s, env, st)
    case TBlock(ss) => TScope(tw, k, ss, env, st)
    case TSetOk => TEnd(Normal, st.(ok := true))
    case TReturn(None, wrapped) => TEnd(Leave(if wrapped then Good(Unit) else Unit), st)
    case TReturn(Some(e), wrapped) =>
      var r := TEvalX(tw, k, e, env, st);
      if r.TGone? then TEnd(r.out, r.st)
      else TEnd(Leave(if wrapped then Wrap(r.v) else r.v), r.st)
    case TBreak => TEnd(Brk, st)
    case TContinue => TEnd(Cont, st)
    case _ => TEnd(Normal, st)  // declarations belong to TList
  }

  function TOtherwise(tw: TWorld, k: nat, els: TElse, env: TEnv, st: TState): TEnd
    decreases k, 1, els, 0
  {
    match els
    case TNoElse => TEnd(Normal, st)
    case TElseBlock(ss) => TScope(tw, k, ss, env, st)
    case TElseIf(s1) => TExec(tw, k, s1, env, st)
  }

  function TLoop(tw: TWorld, k: nat, s: TStmt, env: TEnv, st: TState): TEnd
    requires s.TWhile?
    decreases k, 1, s, 0
  {
    if k == 0 then TEnd(Timeout, st)
    else
      var c := TEvalX(tw, k - 1, s.c, env, st);
      if c.TGone? then TEnd(c.out, c.st)
      else if !Truthy(c.v) then TEnd(Normal, c.st)
      else
        var b := TScope(tw, k - 1, s.body, env, c.st);
        if b.out.Normal? || b.out.Cont? then TLoop(tw, k - 1, s, env, b.st)
        else if b.out.Brk? then TEnd(Normal, b.st)
        else b
  }
}
