/** What an Oleren program means: block-scoped deferred code that runs last-in first-out,
    error cleanup that runs only when a block is left with an error, error results that
    `try` passes on and `catch` handles.  Calls, loop rounds and deferred code each
    consume one unit of fuel, so that every run is a value.  Every function sees the variables
    declared at top level. */
module Semantics {
  import opened Ast
  import opened Options

  datatype ErrId = Named(set_: string, variant: string) | AdHoc(variant: string)

  // Good and Bad are the two shapes of a result of type !T; Err is a bare error value.
  datatype Val = Unit | Num(n: int) | Err(e: ErrId) | Good(v: Val) | Bad(err: ErrId)

  type Env = map<string, nat>

  datatype State = State(store: seq<Val>, trace: seq<Val>)

  datatype Out = Normal | Brk | Cont | Leave(v: Val) | Timeout

  // The value of an expression, or the way in which it was left.
  datatype ERes = Got(v: Val, st: State) | Gone(out: Out, st: State)

  // The same for all operands of an operation.
  datatype EAll = GotAll(vs: seq<Val>, st: State) | GoneAll(out: Out, st: State)

  // `last` is the value of a trailing expression statement.
  datatype Res = Res(out: Out, st: State, last: Val)

  // What operators make of numbers is a parameter: nothing below depends on it.
  datatype World = World(prog: Program, op: (Oper, seq<int>) -> int)

  function ValueOf(v: Val): Val {
    match v
    case Good(x) => x
    case Bad(_) => Num(0)
    case _ => v
  }

  function ErrOf(v: Val): Val {
    match v
    case Bad(e) => Err(e)
    case _ => Unit
  }

  // Building a result from the operand of `ret`.
  function Wrap(v: Val): Val {
    match v
    case Err(e) => Bad(e)
    case Good(_) => v
    case Bad(_) => v
    case _ => Good(v)
  }

  predicate Truthy(v: Val) { v.Num? && v.n != 0 }

  function AsgBin(op: AsgOp): BinOp {
    match op
    case PlusSet => Plus
    case MinusSet => Minus
    case StarSet => Star
    case SlashSet => Slash
    case _ => Percent
  }

  // ---------- values ----------

  function Bool(b: bool): Val { Num(if b then 1 else 0) }

  function Lookup(env: Env, store: seq<Val>, x: string): Val {
    if x in env && env[x] < |store| then store[env[x]] else Unit
  }

  function Ints(vs: seq<Val>): (ns: seq<int>)
    requires forall i | 0 <= i < |vs| :: vs[i].Num?
  {
    if vs == [] then [] else [vs[0].n] + Ints(vs[1..])
  }

  function Apply(w: World, o: Oper, vs: seq<Val>): Val {
    if o == OSame then Bool(|vs| == 2 && vs[0] == vs[1])
    else if forall i | 0 <= i < |vs| :: vs[i].Num? then Num(w.op(o, Ints(vs)))
    else Unit
  }

  function AtomVal(w: World, e: Expr, env: Env, store: seq<Val>): Val
    requires IsAtom(e)
  {
    if e.Int? then Num(e.n)
    else if e.Ident? then Lookup(env, store, e.name)
    else if e.ErrLit? then Err(AdHoc(e.variant))
    else if IsErrName(w.prog.errs, e.target.name) then Err(Named(e.target.name, e.field))
    else Apply(w, OField(e.field), [Lookup(env, store, e.target.name)])
  }

  // ---------- storage ----------

  // Top-level variables stand at the beginning of the store.
  function GlobalEnv(gs: seq<string>): (env: Env)
    ensures forall x | x in env :: x in gs && env[x] < |gs|
  {
    if gs == [] then map[] else GlobalEnv(gs[..|gs| - 1])[gs[|gs| - 1] := |gs| - 1]
  }

  function Bind(env: Env, st: State, x: string, v: Val): (Env, State) {
    (env[x := |st.store|], st.(store := st.store + [v]))
  }

  function BindOpt(env: Env, st: State, x: Option<string>, v: Val): (Env, State) {
    match x
    case None => (env, st)
    case Some(name) => Bind(env, st, name, v)
  }

  // Missing arguments read as Unit; sema rejects such calls.
  function BindParams(ps: seq<string>, vs: seq<Val>, env: Env, st: State): (Env, State) {
    if ps == [] then (env, st)
    else
      var v := if vs == [] then Unit else vs[0];
      var (env1, st1) := Bind(env, st, ps[0], v);
      BindParams(ps[1..], if vs == [] then [] else vs[1..], env1, st1)
  }

  function Store(w: World, op: AsgOp, x: string, v: Val, env: Env, st: State): (Val, State) {
    var v1 := if op == SetTo then v else Apply(w, OBin(AsgBin(op)), [Lookup(env, st.store, x), v]);
    (v1, if x in env && env[x] < |st.store| then st.(store := st.store[env[x] := v1]) else st)
  }

  function Emit(st: State, v: Val): State { st.(trace := st.trace + [v]) }

  // ---------- expressions and statements ----------

  function EvalX(w: World, k: nat, fal: bool, e: Expr, env: Env, st: State): ERes
    decreases k, 1, e, 1
  {
    if IsAtom(e) then Got(AtomVal(w, e, env, st.store), st)
    else if IsLogic(e) then
      var l := EvalX(w, k, fal, e.left, env, st);
      if l.Gone? then l
      else if Truthy(l.v) == (e.op == Or) then Got(Bool(e.op == Or), l.st)
      else
        var r := EvalX(w, k, fal, e.right, env, l.st);
        if r.Gone? then r else Got(Bool(Truthy(r.v)), r.st)
    else if IsOp(e) then
      var r := EvalOps(w, k, fal, e, 0, env, st);
      if r.GoneAll? then Gone(r.out, r.st)
      else if OperOf(e).OCall? then CallNamed(w, k, OperOf(e).f, r.vs, r.st)
      else Got(Apply(w, OperOf(e), r.vs), r.st)
    else
      var r := EvalX(w, k, fal, if e.Assign? then e.rhs else e.tried, env, st);
      if r.Gone? then r
      else if e.Assign? then
        var (v, st1) := Store(w, e.asg, e.lhs.name, r.v, env, r.st);
        Got(v, st1)
      else if !r.v.Bad? then Got(ValueOf(r.v), r.st)
      else if e.Try? then Gone(Leave(r.v), r.st)
      else if e.CatchElse? then EvalX(w, k, fal, e.fallback, env, r.st)
      else
        var (env1, st1) := BindOpt(env, r.st, e.errVar, ErrOf(r.v));
        var b := ExecList(w, k, fal, e.handler, env1, st1);
        if b.out.Normal? then Got(b.last, b.st) else Gone(b.out, b.st)
  }

  // The operands from the i-th on, left to right.
  function EvalOps(w: World, k: nat, fal: bool, e: Expr, i: nat, env: Env, st: State): EAll
    requires i <= |Operands(e)|
    decreases k, 1, e, 0, |Operands(e)| - i
  {
    if i == |Operands(e)| then GotAll([], st)
    else
      var r := EvalX(w, k, fal, Operands(e)[i], env, st);
      if r.Gone? then GoneAll(r.out, r.st)
      else
        var q := EvalOps(w, k, fal, e, i + 1, env, r.st);
        if q.GoneAll? then q else GotAll([r.v] + q.vs, q.st)
  }

  function CallNamed(w: World, k: nat, f: string, vs: seq<Val>, st: State): ERes
    decreases k, 0
  {
    match FindFn(w.prog.fns, f)
    case None => Got(Unit, st)
    case Some(fn) => if k == 0 then Gone(Timeout, st) else CallFn(w, k - 1, fn, vs, st)
  }

  function CallFn(w: World, k: nat, fn: FnDecl, vs: seq<Val>, st: State): ERes
    decreases k, 1, fn
  {
    var (env, st1) := BindParams(fn.params, vs, GlobalEnv(w.prog.globals), st);
    var r := ExecList(w, k, fn.ret.Fallible?, fn.body, env, st1);
    match r.out
    case Timeout => Gone(Timeout, r.st)
    case Leave(v) => Got(v, r.st)
    case _ => Got(if fn.ret.Fallible? && fn.ret.isVoid then Good(Unit) else Unit, r.st)
  }

  // The statements of one block.  Deferred code runs after the rest of its block.
  function ExecList(w: World, k: nat, fal: bool, ss: Block, env: Env, st: State): Res
    decreases k, 1, ss, 0
  {
    if ss == [] then Res(Normal, st, Unit)
    else
      match ss[0]
      case VarDecl(x, e) =>
        var r := EvalX(w, k, fal, e, env, st);
        if r.Gone? then Res(r.out, r.st, Unit)
        else
          var (env1, st1) := Bind(env, r.st, x, r.v);
          ExecList(w, k, fal, ss[1..], env1, st1)
      case Defer(b) =>
        var r := ExecList(w, k, fal, ss[1..], env, st);
        Finally(w, k, fal, true, b, env, r)
      case ErrDefer(b) =>
        var r := ExecList(w, k, fal, ss[1..], env, st);
        Finally(w, k, fal, IsErrorExit(r.out), b, env, r)
      case s =>
        var r := Exec(w, k, fal, s, env, st);
        if r.out.Normal? && |ss| > 1 then ExecList(w, k, fal, ss[1..], env, r.st) else r
  }

  predicate IsErrorExit(o: Out) { o.Leave? && o.v.Bad? }

  // Deferred code never changes how its block is left.
  function Finally(w: World, k: nat, fal: bool, runs: bool, b: Block, env: Env, r: Res): Res
    decreases k, 0
  {
    if r.out.Timeout? then r
    else if k == 0 then Res(Timeout, r.st, Unit)
    else if !runs then r
    else
      var d := ExecList(w, k - 1, fal, b, env, r.st);
      if d.out.Timeout? then d else Res(r.out, d.st, r.last)
  }

  function Exec(w: World, k: nat, fal: bool, s: Stmt, env: Env, st: State): Res
    decreases k, 1, s, 1
  {
    match s
    case ExprStmt(e) =>
      var r := EvalX(w, k, fal, e, env, st);
      if r.Gone? then Res(r.out, r.st, Unit) else Res(Normal, r.st, r.v)
    case Print(e) =>
      var r := EvalX(w, k, fal, e, env, st);
      if r.Gone? then Res(r.out, r.st, Unit) else Res(Normal, Emit(r.st, r.v), Unit)
    case If(c, thn, els) =>
      var r := EvalX(w, k, fal, c, env, st);
      if r.Gone? then Res(r.out, r.st, Unit)
      else if Truthy(r.v) then Quiet(ExecList(w, k, fal, thn, env, r.st))
      else
        (match els
         case NoElse => Res(Normal, r.st, Unit)
         case ElseBlock(b) => Quiet(ExecList(w, k, fal, b, env, r.st))
         case ElseIf(s1) => Quiet(Exec(w, k, fal, s1, env, r.st)))
    case When(subj, arms) =>
      var r := EvalX(w, k, fal, subj, env, st);
      if r.Gone? then Res(r.out, r.st, Unit) else ExecArms(w, k, fal, r.v, arms, env, r.st)
    case While(_, _) => ExecWhile(w, k, fal, s, env, st)
    case Break => Res(Brk, st, Unit)
    case Continue => Res(Cont, st, Unit)
    case Ret(None) => Res(Leave(if fal then Good(Unit) else Unit), st, Unit)
    case Ret(Some(e)) =>
      var r := EvalX(w, k, fal, e, env, st);
      if r.Gone? then Res(r.out, r.st, Unit)
      else Res(Leave(if fal then Wrap(r.v) else r.v), r.st, Unit)
    case _ => Res(Normal, st, Unit)  // declarations and deferred code belong to ExecList
  }

  function Quiet(r: Res): Res { r.(last := Unit) }

  function ExecArms(w: World, k: nat, fal: bool, v: Val, arms: seq<Arm>, env: Env, st: State): Res
    decreases k, 1, arms
  {
    if arms == [] then Res(Normal, st, Unit)
    else if arms[0].pattern.None? then Quiet(ExecList(w, k, fal, arms[0].body, env, st))
    else
      var p := EvalX(w, k, fal, arms[0].pattern.value, env, st);
      if p.Gone? then Res(p.out, p.st, Unit)
      else if p.v == v then Quiet(ExecList(w, k, fal, arms[0].body, env, p.st))
      else ExecArms(w, k, fal, v, arms[1..], env, p.st)
  }

  function ExecWhile(w: World, k: nat, fal: bool, s: Stmt, env: Env, st: State): Res
    requires s.While?
    decreases k, 1, s, 0
  {
    if k == 0 then Res(Timeout, st, Unit)
    else
      var c := EvalX(w, k - 1, fal, s.cond, env, st);
      if c.Gone? then Res(c.out, c.st, Unit)
      else if !Truthy(c.v) then Res(Normal, c.st, Unit)
      else
        var b := ExecList(w, k - 1, fal, s.body, env, c.st);
        if b.out.Normal? || b.out.Cont? then ExecWhile(w, k - 1, fal, s, env, b.st)
        else if b.out.Brk? then Res(Normal, b.st, Unit)
        else Quiet(b)
  }
}
