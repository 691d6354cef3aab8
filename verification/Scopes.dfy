/** The symbol table of src/sema/check.c: flat arrays with scope marks, walked over the
    tree.  It behaves as a stack of environments. */
module Scopes {
  import opened Ast
  import opened Options

  const MAX_SYMS := 1024
  const MAX_SCOPES := 128

  // Pointer kinds: 0 no pointer, 1 raw, 2 smart.
  datatype Sym = Sym(name: string, kind: int)

  // A tree as far as `walk` distinguishes it; NNil is a missing child.
  datatype Node =
    | NNil
    | NNull
    | NIdent(name: string)
    | NBlock(stmts: seq<Node>)
    | NCatch(expr: Node, fallback: Node, hasBody: bool, errVar: Option<string>, body: Node)
    | NLoop(init: Node, cond: Node, step: Node, body: Node)
    | NForEach(iter: Node, elem: Option<string>, idx: Option<string>, body: Node)
    | NVar(x: Option<string>, kind: int, init: Node)
    | NGroup(kind: int, entries: seq<Entry>)
    | NAssign(lhs: Node, rhs: Node)
    | NFree(arg: Node)
    | NOther(children: seq<Node>)

  datatype Entry = Entry(x: Option<string>, init: Node)

  // ---------- the meaning: a stack of scopes, innermost last ----------

  type Env = e: seq<seq<Sym>> | |e| > 0 witness [[]]

  datatype St = St(env: Env, errors: nat, used: set<string>)

  function FindIn(scope: seq<Sym>, x: string): Option<int> {
    if scope == [] then None
    else
      var s := scope[|scope| - 1];
      if s.name == x then Some(s.kind) else FindIn(scope[..|scope| - 1], x)
  }

  // Innermost scope first, latest declaration first.
  function Find(env: seq<seq<Sym>>, x: string): Option<int> {
    if env == [] then None
    else
      var r := FindIn(env[|env| - 1], x);
      if r.Some? then r else Find(env[..|env| - 1], x)
  }

  function Push(st: St): St { st.(env := st.env + [[]]) }

  function Pop(st: St): St
    requires |st.env| > 1
  {
    st.(env := st.env[..|st.env| - 1])
  }

  function Bind(env: Env, s: Sym): Env {
    env[..|env| - 1] + [env[|env| - 1] + [s]]
  }

  predicate Ignored(x: Option<string>) { x.None? || x.value == "_" }

  function DeclareF(imports: seq<string>, st: St, x: Option<string>, kind: int, shadow: bool): St {
    if Ignored(x) then st
    else
      St(Bind(st.env, Sym(x.value, kind)),
         st.errors + (if shadow && x.value in imports then 1 else 0), st.used)
  }

  function Raise(st: St, b: bool): St { if b then st.(errors := st.errors + 1) else st }

  function UseF(imports: seq<string>, st: St, x: string): St {
    if Find(st.env, x).None? && x in imports then st.(used := st.used + {x}) else st
  }

  function NullToNonPointer(st: St, lhs: Node, rhs: Node): bool {
    rhs.NNull? && lhs.NIdent? && Find(st.env, lhs.name) == Some(0)
  }

  function BadFree(st: St, arg: Node): bool {
    arg.NIdent? && (Find(st.env, arg.name) == Some(2) || Find(st.env, arg.name) == Some(0))
  }

  function WalkF(im: seq<string>, n: Node, st: St): (r: St)
    ensures |r.env| == |st.env|
    decreases n, 1
  {
    match n
    case NNil => st
    case NNull => st
    case NIdent(x) => UseF(im, st, x)
    case NBlock(ss) => Pop(WalkListF(im, ss, Push(st)))
    case NCatch(e, f, hasBody, x, b) =>
      var st1 := WalkF(im, f, WalkF(im, e, st));
      if !hasBody then st1 else Pop(WalkF(im, b, DeclareF(im, Push(st1), x, 0, true)))
    case NLoop(i, c, s, b) => Pop(WalkF(im, b, WalkF(im, s, WalkF(im, c, WalkF(im, i, Push(st))))))
    case NForEach(it, x, i, b) =>
      var st1 := Push(WalkF(im, it, st));
      Pop(WalkF(im, b, DeclareF(im, DeclareF(im, st1, x, 0, true), i, 0, true)))
    case NVar(x, k, i) =>
      var st1 := Raise(WalkF(im, i, st), i.NNull? && k == 0);
      DeclareF(im, st1, x, k, true)
    case NGroup(k, es) => WalkGroupF(im, k, es, st)
    case NAssign(l, r) => WalkF(im, r, WalkF(im, l, Raise(st, NullToNonPointer(st, l, r))))
    case NFree(a) => WalkF(im, a, Raise(st, BadFree(st, a)))
    case NOther(cs) => WalkListF(im, cs, st)
  }

  function WalkListF(im: seq<string>, ns: seq<Node>, st: St): (r: St)
    ensures |r.env| == |st.env|
    decreases ns, 0
  {
    if ns == [] then st else WalkListF(im, ns[1..], WalkF(im, ns[0], st))
  }

  function WalkGroupF(im: seq<string>, k: int, es: seq<Entry>, st: St): (r: St)
    ensures |r.env| == |st.env|
    decreases es, 0
  {
    if es == [] then st else WalkGroupF(im, k, es[1..], WalkEntryF(im, k, es[0], st))
  }

  function WalkEntryF(im: seq<string>, k: int, e: Entry, st: St): (r: St)
    ensures |r.env| == |st.env|
    decreases e, 0
  {
    DeclareF(im, WalkF(im, e.init, st), e.x, k, true)
  }

  // The scopes outside the current one are the same, the current one has grown at its end.
  predicate Keeps(a: Env, b: Env) {
    |a| == |b| && b[..|b| - 1] == a[..|a| - 1] && a[|a| - 1] <= b[|b| - 1]
  }

  lemma KeepsTrans(a: Env, b: Env, c: Env)
    requires Keeps(a, b) && Keeps(b, c)
    ensures Keeps(a, c)
  {}

  lemma InnerGone(st: St, r: St)
    requires Keeps(Push(st).env, r.env)
    ensures Pop(r).env == st.env
  {
    assert Push(st).env[..|st.env|] == st.env;
  }

  lemma DeclareKeeps(im: seq<string>, st: St, x: Option<string>, kind: int, shadow: bool)
    ensures Keeps(st.env, DeclareF(im, st, x, kind, shadow).env)
  {}

  /** Whatever is walked, the scopes outside the current one are untouched, the current one
      only grows at its end, and blocks and loops leave even that as they found it, as do
      for-each loops and handlers once their operands have been walked. */
  lemma {:induction false} WalkKeepsScopes(im: seq<string>, n: Node, st: St)
    ensures var r := WalkF(im, n, st);
      && Keeps(st.env, r.env)
      && (n.NBlock? || n.NLoop? ==> r.env == st.env)
      && (n.NForEach? ==> r.env == WalkF(im, n.iter, st).env)
      && (n.NCatch? && n.hasBody ==> r.env == WalkF(im, n.fallback, WalkF(im, n.expr, st)).env)
    decreases n, 1
  {
    match n
    case NBlock(ss) =>
      WalkListKeeps(im, ss, Push(st));
      InnerGone(st, WalkListF(im, ss, Push(st)));
    case NCatch(_, _, _, _, _) => CatchKeeps(im, n, st);
    case NLoop(_, _, _, _) => LoopKeeps(im, n, st);
    case NForEach(_, _, _, _) => ForEachKeeps(im, n, st);
    case NVar(_, _, _) => VarKeeps(im, n, st);
    case NGroup(k, es) => WalkGroupKeeps(im, k, es, st);
    case NAssign(_, _) => AssignKeeps(im, n, st);
    case NFree(a) => WalkKeepsScopes(im, a, Raise(st, BadFree(st, a)));
    case NOther(cs) => WalkListKeeps(im, cs, st);
    case _ =>
  }

  lemma {:induction false} VarKeeps(im: seq<string>, n: Node, st: St)
    requires n.NVar?
    ensures Keeps(st.env, WalkF(im, n, st).env)
    decreases n, 0
  {
    var st1 := Raise(WalkF(im, n.init, st), n.init.NNull? && n.kind == 0);
    WalkKeepsScopes(im, n.init, st);
    DeclareKeeps(im, st1, n.x, n.kind, true);
    KeepsTrans(st.env, st1.env, WalkF(im, n, st).env);
  }

  lemma {:induction false} AssignKeeps(im: seq<string>, n: Node, st: St)
    requires n.NAssign?
    ensures Keeps(st.env, WalkF(im, n, st).env)
    decreases n, 0
  {
    var st1 := Raise(st, NullToNonPointer(st, n.lhs, n.rhs));
    WalkKeepsScopes(im, n.lhs, st1);
    WalkKeepsScopes(im, n.rhs, WalkF(im, n.lhs, st1));
    KeepsTrans(st.env, WalkF(im, n.lhs, st1).env, WalkF(im, n, st).env);
  }

  lemma {:induction false} CatchKeeps(im: seq<string>, n: Node, st: St)
    requires n.NCatch?
    ensures var st1 := WalkF(im, n.fallback, WalkF(im, n.expr, st));
      Keeps(st.env, st1.env) && WalkF(im, n, st).env == st1.env
    decreases n, 0
  {
    WalkKeepsScopes(im, n.expr, st);
    WalkKeepsScopes(im, n.fallback, WalkF(im, n.expr, st));
    var st1 := WalkF(im, n.fallback, WalkF(im, n.expr, st));
    if n.hasBody {
      var st2 := DeclareF(im, Push(st1), n.errVar, 0, true);
      DeclareKeeps(im, Push(st1), n.errVar, 0, true);
      WalkKeepsScopes(im, n.body, st2);
      KeepsTrans(Push(st1).env, st2.env, WalkF(im, n.body, st2).env);
      InnerGone(st1, WalkF(im, n.body, st2));
    }
  }

  lemma {:induction false} LoopKeeps(im: seq<string>, n: Node, st: St)
    requires n.NLoop?
    ensures WalkF(im, n, st).env == st.env
    decreases n, 0
  {
    var st0 := Push(st);
    var st1 := WalkF(im, n.init, st0);
    var st2 := WalkF(im, n.cond, st1);
    var st3 := WalkF(im, n.step, st2);
    var st4 := WalkF(im, n.body, st3);
    WalkKeepsScopes(im, n.init, st0);
    WalkKeepsScopes(im, n.cond, st1);
    WalkKeepsScopes(im, n.step, st2);
    WalkKeepsScopes(im, n.body, st3);
    KeepsTrans(st0.env, st1.env, st2.env);
    KeepsTrans(st0.env, st2.env, st3.env);
    KeepsTrans(st0.env, st3.env, st4.env);
    InnerGone(st, st4);
  }

  lemma {:induction false} ForEachKeeps(im: seq<string>, n: Node, st: St)
    requires n.NForEach?
    ensures Keeps(st.env, WalkF(im, n.iter, st).env) && WalkF(im, n, st).env == WalkF(im, n.iter, st).env
    decreases n, 0
  {
    WalkKeepsScopes(im, n.iter, st);
    var st1 := WalkF(im, n.iter, st);
    var st2 := DeclareF(im, Push(st1), n.elem, 0, true);
    var st3 := DeclareF(im, st2, n.idx, 0, true);
    var st4 := WalkF(im, n.body, st3);
    DeclareKeeps(im, Push(st1), n.elem, 0, true);
    DeclareKeeps(im, st2, n.idx, 0, true);
    WalkKeepsScopes(im, n.body, st3);
    KeepsTrans(Push(st1).env, st2.env, st3.env);
    KeepsTrans(Push(st1).env, st3.env, st4.env);
    InnerGone(st1, st4);
  }

  lemma {:induction false} WalkListKeeps(im: seq<string>, ns: seq<Node>, st: St)
    ensures Keeps(st.env, WalkListF(im, ns, st).env)
    decreases ns, 0
  {
    if ns != [] {
      WalkKeepsScopes(im, ns[0], st);
      WalkListKeeps(im, ns[1..], WalkF(im, ns[0], st));
    }
  }

  lemma {:induction false} WalkGroupKeeps(im: seq<string>, k: int, es: seq<Entry>, st: St)
    ensures Keeps(st.env, WalkGroupF(im, k, es, st).env)
    decreases es, 0
  {
    if es != [] {
      WalkEntryKeeps(im, k, es[0], st);
      WalkGroupKeeps(im, k, es[1..], WalkEntryF(im, k, es[0], st));
    }
  }

  lemma {:induction false} WalkEntryKeeps(im: seq<string>, k: int, e: Entry, st: St)
    ensures Keeps(st.env, WalkEntryF(im, k, e, st).env)
    decreases e, 0
  {
    WalkKeepsScopes(im, e.init, st);
  }

  // ---------- within the fixed table sizes ----------

  function Flat(env: seq<seq<Sym>>): seq<Sym> {
    if env == [] then [] else Flat(env[..|env| - 1]) + env[|env| - 1]
  }

  predicate Room(st: St, x: Option<string>) { Ignored(x) || |Flat(st.env)| < MAX_SYMS }

  predicate Depth(st: St) { |st.env| <= MAX_SCOPES }

  predicate Fits(im: seq<string>, n: Node, st: St)
    decreases n, 1
  {
    match n
    case NBlock(ss) => Depth(st) && FitsList(im, ss, Push(st))
    case NCatch(e, f, hasBody, x, b) =>
      var st1 := WalkF(im, e, st);
      var st2 := WalkF(im, f, st1);
      Fits(im, e, st) && Fits(im, f, st1) &&
      (hasBody ==> Depth(st2) && Room(st2, x) && Fits(im, b, DeclareF(im, Push(st2), x, 0, true)))
    case NLoop(i, c, s, b) =>
      var st1 := WalkF(im, i, Push(st));
      var st2 := WalkF(im, c, st1);
      var st3 := WalkF(im, s, st2);
      Depth(st) && Fits(im, i, Push(st)) && Fits(im, c, st1) && Fits(im, s, st2) && Fits(im, b, st3)
    case NForEach(it, x, i, b) =>
      var st1 := WalkF(im, it, st);
      var st2 := DeclareF(im, Push(st1), x, 0, true);
      Fits(im, it, st) && Depth(st1) && Room(st1, x) && Room(st2, i) && Fits(im, b, DeclareF(im, st2, i, 0, true))
    case NVar(x, k, i) => Fits(im, i, st) && Room(WalkF(im, i, st), x)
    case NGroup(k, es) => FitsGroup(im, k, es, st)
    case NAssign(l, r) =>
      var st1 := Raise(st, NullToNonPointer(st, l, r));
      Fits(im, l, st1) && Fits(im, r, WalkF(im, l, st1))
    case NFree(a) => Fits(im, a, Raise(st, BadFree(st, a)))
    case NOther(cs) => FitsList(im, cs, st)
    case _ => true
  }

  predicate FitsList(im: seq<string>, ns: seq<Node>, st: St)
    decreases ns, 0
  {
    ns == [] || (Fits(im, ns[0], st) && FitsList(im, ns[1..], WalkF(im, ns[0], st)))
  }

  predicate FitsGroup(im: seq<string>, k: int, es: seq<Entry>, st: St)
    decreases es, 0
  {
    es == [] || (FitsEntry(im, es[0], st) && FitsGroup(im, k, es[1..], WalkEntryF(im, k, es[0], st)))
  }

  predicate FitsEntry(im: seq<string>, e: Entry, st: St)
    decreases e, 0
  {
    Fits(im, e.init, st) && Room(WalkF(im, e.init, st), e.x)
  }

  // ---------- the flat table ----------

  lemma FlatPush(env: seq<seq<Sym>>, scope: seq<Sym>)
    ensures Flat(env + [scope]) == Flat(env) + scope
  {
    assert (env + [scope])[..|env|] == env;
  }

  lemma FlatBind(env: Env, s: Sym)
    ensures Flat(Bind(env, s)) == Flat(env) + [s]
  {
    var outer, top := env[..|env| - 1], env[|env| - 1];
    FlatPush(outer, top + [s]);
    FlatPush(outer, top);
    assert env == outer + [top];
  }

  lemma {:induction false} FindInApp(a: seq<Sym>, b: seq<Sym>, x: string)
    ensures FindIn(a + b, x) == if FindIn(b, x).Some? then FindIn(b, x) else FindIn(a, x)
  {
    if b == [] {
      assert a + b == a;
    } else {
      assert (a + b)[..|a + b| - 1] == a + b[..|b| - 1];
      FindInApp(a, b[..|b| - 1], x);
    }
  }

  /** Searching the flat table from its end finds what the stack of scopes means. */
  lemma {:induction false} FlatFind(env: seq<seq<Sym>>, x: string)
    ensures FindIn(Flat(env), x) == Find(env, x)
  {
    if env != [] {
      FlatFind(env[..|env| - 1], x);
      FindInApp(Flat(env[..|env| - 1]), env[|env| - 1], x);
    }
  }

  lemma {:induction false} FlatPrefix(env: seq<seq<Sym>>, i: nat)
    requires i <= |env|
    ensures |Flat(env[..i])| <= |Flat(env)| && Flat(env)[..|Flat(env[..i])|] == Flat(env[..i])
    decreases |env|
  {
    if i == |env| {
      assert env[..i] == env;
    } else {
      FlatPrefix(env[..|env| - 1], i);
      assert env[..|env| - 1][..i] == env[..i];
    }
  }

  // Where scope i + 1 begins in the flat table.
  function Mark(env: seq<seq<Sym>>, i: nat): nat
    requires i < |env|
  {
    |Flat(env[..i + 1])|
  }

  lemma SameMarks(a: seq<seq<Sym>>, b: seq<seq<Sym>>, n: nat)
    requires n <= |a| && n <= |b| && a[..n] == b[..n]
    ensures forall i | 0 <= i < n :: Mark(a, i) == Mark(b, i)
  {
    forall i | 0 <= i < n ensures Mark(a, i) == Mark(b, i) {
      assert a[..i + 1] == a[..n][..i + 1] && b[..i + 1] == b[..n][..i + 1];
    }
  }

  class Check {
    const syms: array<string>
    const kinds: array<int>
    const scopeStart: array<nat>
    const imports: seq<string>
    const importUsed: array<bool>
    var symCount: nat
    var scopeDepth: nat
    var errors: nat
    var checkShadow: bool
    ghost var env: seq<seq<Sym>>
    ghost var used: set<string>

    ghost predicate Valid()
      reads this, syms, kinds, scopeStart, importUsed
    {
      && syms.Length == kinds.Length == MAX_SYMS && scopeStart.Length == MAX_SCOPES
      && importUsed.Length == |imports|
      && |env| == scopeDepth + 1 && scopeDepth <= MAX_SCOPES
      && symCount == |Flat(env)| <= MAX_SYMS
      && (forall i | 0 <= i < symCount :: Sym(syms[i], kinds[i]) == Flat(env)[i])
      && (forall i | 0 <= i < scopeDepth :: scopeStart[i] == Mark(env, i))
      && (forall i | 0 <= i < |imports| :: importUsed[i] <==> imports[i] in used)
    }

    ghost function Abs(): St
      requires Valid()
      reads this, syms, kinds, scopeStart, importUsed
    {
      St(env, errors, used)
    }

    constructor (imports: seq<string>)
      ensures Valid() && Abs() == St([[]], 0, {}) && this.imports == imports && !checkShadow
      ensures fresh(syms) && fresh(kinds) && fresh(scopeStart) && fresh(importUsed)
    {
      this.imports := imports;
      syms, kinds, scopeStart := new string[MAX_SYMS](_ => ""), new int[MAX_SYMS](_ => 0), new nat[MAX_SCOPES](_ => 0);
      importUsed := new bool[|imports|](_ => false);
      symCount, scopeDepth, errors, checkShadow := 0, 0, 0, false;
      env, used := [[]], {};
    }

    method PushScope()
      requires Valid() && Depth(Abs())
      modifies this, scopeStart
      ensures Valid() && Abs() == Push(old(Abs())) && checkShadow == old(checkShadow)
    {
      if scopeDepth < MAX_SCOPES { scopeStart[scopeDepth] := symCount; }
      scopeDepth := scopeDepth + 1;
      FlatPush(env, []);
      ghost var outer := env;
      env := env + [[]];
      assert outer[..|outer|] == outer && env[..|outer|] == outer;
      SameMarks(env, outer, |outer|);
    }

    method PopScope()
      requires Valid() && |env| > 1
      modifies this
      ensures Valid() && Abs() == Pop(old(Abs())) && checkShadow == old(checkShadow)
    {
      scopeDepth := scopeDepth - 1;
      if scopeDepth < MAX_SCOPES { symCount := scopeStart[scopeDepth]; }
      ghost var inner := env;
      env := env[..|env| - 1];
      FlatPrefix(inner, |env|);
      assert inner[..|env|] == env && env[..|env|] == env;
      SameMarks(env, inner, |env|);
    }

    method Declare(x: Option<string>, kind: int)
      requires Valid() && Room(Abs(), x)
      modifies this, syms, kinds
      ensures Valid() && Abs() == DeclareF(imports, old(Abs()), x, kind, checkShadow)
      ensures checkShadow == old(checkShadow)
    {
      if x.None? || x.value == "_" { return; }
      if checkShadow {
        var i := 0;
        while i < |imports|
          invariant i <= |imports| && x.value !in imports[..i]
        {
          if imports[i] == x.value {
            errors := errors + 1;
            break;
          }
          i := i + 1;
        }
      }
      if symCount < MAX_SYMS {
        syms[symCount] := x.value;
        kinds[symCount] := kind;
        symCount := symCount + 1;
      }
      ghost var before := env;
      FlatBind(env, Sym(x.value, kind));
      env := Bind(env, Sym(x.value, kind));
      SameMarks(env, before, scopeDepth);
    }

    // sym_ptr_kind and is_local: a scan of the flat table from its end.
    method FindSym(x: string) returns (r: Option<int>)
      requires Valid()
      ensures r == Find(env, x)
    {
      FlatFind(env, x);
      ghost var flat := Flat(env);
      var i := symCount;
      assert flat[..i] == flat;
      while i > 0
        invariant 0 <= i <= symCount
        invariant FindIn(flat, x) == FindIn(flat[..i], x)
      {
        assert flat[..i][..i - 1] == flat[..i - 1];
        i := i - 1;
        if syms[i] == x { return Some(kinds[i]); }
      }
      r := None;
    }

    method MarkImportUsed(x: string)
      requires Valid()
      modifies importUsed, `used
      ensures Valid() && Abs() == UseF(imports, old(Abs()), x)
    {
      var local := FindSym(x);
      if local.Some? { return; }
      var i := 0;
      while i < |imports|
        invariant i <= |imports|
        invariant forall j | 0 <= j < i :: importUsed[j] <==> imports[j] in used || imports[j] == x
        invariant forall j | i <= j < |imports| :: importUsed[j] <==> imports[j] in used
        invariant used == old(used)
        modifies importUsed
      {
        if imports[i] == x { importUsed[i] := true; }
        i := i + 1;
      }
      if x in imports { used := used + {x}; }
    }

    method DeclareShadowing(x: Option<string>, kind: int)
      requires Valid() && Room(Abs(), x)
      modifies this, syms, kinds
      ensures Valid() && Abs() == DeclareF(imports, old(Abs()), x, kind, true) && !checkShadow
    {
      checkShadow := true;
      Declare(x, kind);
      checkShadow := false;
    }

    /** One walk over any tree leaves the table as the meaning says: the same scopes, the
        same errors, the same used imports. */
    method Walk(n: Node)
      requires Valid() && Fits(imports, n, Abs()) && !checkShadow
      modifies this, syms, kinds, scopeStart, importUsed
      ensures Valid() && Abs() == WalkF(imports, n, old(Abs())) && !checkShadow
      decreases n, 1
    {
      match n
      case NNil =>
      case NNull =>
      case NIdent(x) => MarkImportUsed(x);
      case NBlock(ss) =>
        PushScope();
        WalkList(ss);
        PopScope();
      case NCatch(_, _, _, _, _) => WalkCatch(n);
      case NLoop(_, _, _, _) => WalkLoop(n);
      case NForEach(_, _, _, _) => WalkForEach(n);
      case NVar(_, _, _) => WalkVar(n);
      case NGroup(k, es) => WalkGroup(k, es);
      case NAssign(l, r) => WalkAssign(n);
      case NFree(a) => WalkFree(n);
      case NOther(cs) => WalkList(cs);
    }

    method WalkVar(n: Node)
      requires n.NVar? && Valid() && Fits(imports, n, Abs()) && !checkShadow
      modifies this, syms, kinds, scopeStart, importUsed
      ensures Valid() && Abs() == WalkF(imports, n, old(Abs())) && !checkShadow
      decreases n, 0
    {
      Walk(n.init);
      if n.init.NNull? && n.kind == 0 { errors := errors + 1; }
      DeclareShadowing(n.x, n.kind);
    }

    method WalkCatch(n: Node)
      requires n.NCatch? && Valid() && Fits(imports, n, Abs()) && !checkShadow
      modifies this, syms, kinds, scopeStart, importUsed
      ensures Valid() && Abs() == WalkF(imports, n, old(Abs())) && !checkShadow
      decreases n, 0
    {
      Walk(n.expr);
      Walk(n.fallback);
      if n.hasBody {
        RoomInner(Abs(), n.errVar);
        PushScope();
        DeclareShadowing(n.errVar, 0);
        Walk(n.body);
        PopScope();
      }
    }

    method WalkLoop(n: Node)
      requires n.NLoop? && Valid() && Fits(imports, n, Abs()) && !checkShadow
      modifies this, syms, kinds, scopeStart, importUsed
      ensures Valid() && Abs() == WalkF(imports, n, old(Abs())) && !checkShadow
      decreases n, 0
    {
      PushScope();
      Walk(n.init);
      Walk(n.cond);
      Walk(n.step);
      Walk(n.body);
      PopScope();
    }

    method WalkForEach(n: Node)
      requires n.NForEach? && Valid() && Fits(imports, n, Abs()) && !checkShadow
      modifies this, syms, kinds, scopeStart, importUsed
      ensures Valid() && Abs() == WalkF(imports, n, old(Abs())) && !checkShadow
      decreases n, 0
    {
      Walk(n.iter);
      RoomInner(Abs(), n.elem);
      PushScope();
      DeclareShadowing(n.elem, 0);
      DeclareShadowing(n.idx, 0);
      Walk(n.body);
      PopScope();
    }

    method WalkAssign(n: Node)
      requires n.NAssign? && Valid() && Fits(imports, n, Abs()) && !checkShadow
      modifies this, syms, kinds, scopeStart, importUsed
      ensures Valid() && Abs() == WalkF(imports, n, old(Abs())) && !checkShadow
      decreases n, 0
    {
      if n.rhs.NNull? && n.lhs.NIdent? {
        var kind := FindSym(n.lhs.name);
        if kind == Some(0) { errors := errors + 1; }
      }
      Walk(n.lhs);
      Walk(n.rhs);
    }

    method WalkFree(n: Node)
      requires n.NFree? && Valid() && Fits(imports, n, Abs()) && !checkShadow
      modifies this, syms, kinds, scopeStart, importUsed
      ensures Valid() && Abs() == WalkF(imports, n, old(Abs())) && !checkShadow
      decreases n, 0
    {
      if n.arg.NIdent? {
        var kind := FindSym(n.arg.name);
        if kind == Some(2) { errors := errors + 1; } else if kind == Some(0) { errors := errors + 1; }
      }
      Walk(n.arg);
    }

    method WalkList(ns: seq<Node>)
      requires Valid() && FitsList(imports, ns, Abs()) && !checkShadow
      modifies this, syms, kinds, scopeStart, importUsed
      ensures Valid() && Abs() == WalkListF(imports, ns, old(Abs())) && !checkShadow
      decreases ns, 0
    {
      var i := 0;
      ghost var start := Abs();
      while i < |ns|
        invariant i <= |ns| && Valid() && !checkShadow
        invariant FitsList(imports, ns[i..], Abs())
        invariant WalkListF(imports, ns[i..], Abs()) == WalkListF(imports, ns, start)
      {
        assert ns[i..][0] == ns[i] && ns[i..][1..] == ns[i + 1..];
        Walk(ns[i]);
        i := i + 1;
      }
    }

    method WalkGroup(k: int, es: seq<Entry>)
      requires Valid() && FitsGroup(imports, k, es, Abs()) && !checkShadow
      modifies this, syms, kinds, scopeStart, importUsed
      ensures Valid() && Abs() == WalkGroupF(imports, k, es, old(Abs())) && !checkShadow
      decreases es, 0
    {
      var i := 0;
      ghost var start := Abs();
      while i < |es|
        invariant i <= |es| && Valid() && !checkShadow
        invariant FitsGroup(imports, k, es[i..], Abs())
        invariant WalkGroupF(imports, k, es[i..], Abs()) == WalkGroupF(imports, k, es, start)
      {
        assert es[i..][0] == es[i] && es[i..][1..] == es[i + 1..];
        WalkEntry(k, es[i]);
        i := i + 1;
      }
    }

    method WalkEntry(k: int, e: Entry)
      requires Valid() && FitsEntry(imports, e, Abs()) && !checkShadow
      modifies this, syms, kinds, scopeStart, importUsed
      ensures Valid() && Abs() == WalkEntryF(imports, k, e, old(Abs())) && !checkShadow
      decreases e, 0
    {
      Walk(e.init);
      DeclareShadowing(e.x, k);
    }
  }

  lemma RoomInner(st: St, x: Option<string>)
    requires Room(st, x)
    ensures Room(Push(st), x)
  {
    FlatPush(st.env, []);
  }

  // ---------- one function body ----------

  function DeclareParams(im: seq<string>, ps: seq<Sym>, st: St): (r: St)
    ensures |r.env| == |st.env|
  {
    if ps == [] then st
    else DeclareParams(im, ps[1..], DeclareF(im, st, Some(ps[0].name), ps[0].kind, false))
  }

  lemma {:induction false} ParamsKeep(im: seq<string>, ps: seq<Sym>, st: St)
    ensures Keeps(st.env, DeclareParams(im, ps, st).env)
  {
    if ps != [] {
      var st1 := DeclareF(im, st, Some(ps[0].name), ps[0].kind, false);
      DeclareKeeps(im, st, Some(ps[0].name), ps[0].kind, false);
      ParamsKeep(im, ps[1..], st1);
    }
  }

  /** Checking a function body leaves the table as it was before the function. */
  lemma FnBodyRestores(im: seq<string>, ps: seq<Sym>, body: Node, st: St)
    ensures Pop(WalkF(im, body, DeclareParams(im, ps, Push(st)))).env == st.env
  {
    ParamsKeep(im, ps, Push(st));
    var st1 := DeclareParams(im, ps, Push(st));
    WalkKeepsScopes(im, body, st1);
    InnerGone(st, WalkF(im, body, st1));
  }
}
