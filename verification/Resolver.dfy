/** Import resolution: a depth-first search with a visited table that emits a module once
    all of its own imports have been dealt with.  src/module/resolver.c. */
module Resolver {
  const MAX_VISITED := 256

  // A canonical path.
  datatype File = File(path: string)

  // An @std import is skipped here; a path that is absolute or contains `..` is refused;
  // a local import names a file by its canonical path.
  datatype Import = Lib | Refused | Local(name: string, file: File)

  // The imports of every file that can be read and parsed.
  type Graph = map<File, seq<Import>>

  datatype Module = Module(name: string, file: File)

  datatype Ctx = Ctx(visited: seq<File>, decls: seq<Module>, count: nat)

  function Seen(st: Ctx): set<File> { set f | f in st.visited }

  function Files(decls: seq<Module>): set<File> { set m | m in decls :: m.file }

  function Dfs(g: Graph, max: nat, imports: seq<Import>, st: Ctx): (r: (Ctx, bool))
    ensures st.visited <= r.0.visited && st.decls <= r.0.decls
    decreases |g.Keys - Seen(st)|, |imports|
  {
    if imports == [] then (st, true)
    else
      match imports[0]
      case Lib => Dfs(g, max, imports[1..], st)
      case Refused => (st, false)
      case Local(name, f) =>
        if f in st.visited then Dfs(g, max, imports[1..], st)
        else
          var st1 := st.(visited := st.visited + [f]);
          if st.count >= max || f !in g then (st1, false)
          else
            Shrinks(g, st, f);
            var (st2, ok) := Dfs(g, max, g[f], st1);
            if !ok then (st2, false)
            else
              var st3 := Ctx(st2.visited, st2.decls + [Module(name, f)], st2.count + 1);
              Shrinks2(g, st, st3, f);
              Dfs(g, max, imports[1..], st3)
  }

  lemma Shrinks(g: Graph, st: Ctx, f: File)
    requires f in g && f !in st.visited
    ensures |g.Keys - Seen(st.(visited := st.visited + [f]))| < |g.Keys - Seen(st)|
  {
    var a, b := g.Keys - Seen(st.(visited := st.visited + [f])), g.Keys - Seen(st);
    assert f in b && f !in a;
    Smaller(a, b, f);
  }

  lemma Shrinks2(g: Graph, st: Ctx, later: Ctx, f: File)
    requires f in g && f !in st.visited && st.visited + [f] <= later.visited
    ensures |g.Keys - Seen(later)| < |g.Keys - Seen(st)|
  {
    var a, b := g.Keys - Seen(later), g.Keys - Seen(st);
    assert later.visited[|st.visited|] == f;
    assert f in b && f !in a;
    forall x | x in st.visited ensures x in later.visited { SeenGrow(st.visited, later.visited, x); }
    Smaller(a, b, f);
  }

  lemma Smaller(a: set<File>, b: set<File>, x: File)
    requires a <= b && x in b && x !in a
    ensures |a| < |b|
  {
    SubsetSize(a, b - {x});
  }

  lemma {:induction false} SubsetSize(a: set<File>, b: set<File>)
    requires a <= b
    ensures |a| <= |b|
    decreases a
  {
    if a != {} {
      var x :| x in a;
      SubsetSize(a - {x}, b - {x});
    }
  }

  // ---------- reachability ----------

  ghost predicate Edge(g: Graph, u: File, v: File) {
    u in g && exists i, n | 0 <= i < |g[u]| :: g[u][i] == Local(n, v)
  }

  ghost predicate Path(g: Graph, p: seq<File>) {
    p != [] && forall i | 0 <= i < |p| - 1 :: Edge(g, p[i], p[i + 1])
  }

  ghost predicate Connects(g: Graph, p: seq<File>, u: File, v: File) {
    Path(g, p) && p[0] == u && p[|p| - 1] == v
  }

  ghost predicate Reach(g: Graph, u: File, v: File) {
    exists p :: Connects(g, p, u, v)
  }

  lemma ReachSelf(g: Graph, u: File)
    ensures Reach(g, u, u)
  {
    assert Connects(g, [u], u, u);
  }

  lemma ReachStep(g: Graph, u: File, v: File, t: File)
    requires Reach(g, u, v) && Edge(g, v, t)
    ensures Reach(g, u, t)
  {
    var p :| Connects(g, p, u, v);
    var q := p + [t];
    forall i | 0 <= i < |q| - 1 ensures Edge(g, q[i], q[i + 1]) {
      if i < |p| - 1 { assert Edge(g, p[i], p[i + 1]); }
    }
    assert Connects(g, q, u, t);
  }

  // A set that contains the start and every target of its members contains what is reachable.
  lemma {:induction false} ClosedReach(g: Graph, s: set<File>, p: seq<File>)
    requires forall u, v | u in s && Edge(g, u, v) :: v in s
    requires Path(g, p) && p[0] in s
    ensures p[|p| - 1] in s
    decreases |p|
  {
    if |p| > 1 {
      var q := p[1..];
      assert Edge(g, p[0], p[1]);
      forall i | 0 <= i < |q| - 1 ensures Edge(g, q[i], q[i + 1]) { assert Edge(g, p[i + 1], p[i + 2]); }
      ClosedReach(g, s, q);
    }
  }

  // ---------- what one search does ----------

  predicate TargetsSeen(imports: seq<Import>, visited: seq<File>) {
    forall i | 0 <= i < |imports| :: !imports[i].Refused? && (imports[i].Local? ==> imports[i].file in visited)
  }

  predicate Distinct(fs: seq<File>) { forall i, j | 0 <= i < j < |fs| :: fs[i] != fs[j] }

  predicate OnceEach(decls: seq<Module>) {
    forall i, j | 0 <= i < j < |decls| :: decls[i].file != decls[j].file
  }

  // Emitted modules are visited files, each once; the counter counts them.
  ghost predicate Consistent(st: Ctx, base: nat) {
    Files(st.decls) <= Seen(st) && OnceEach(st.decls) && st.count == base + |st.decls|
  }

  // The imports of every file visited between st and r have been visited too.
  ghost predicate Closed(g: Graph, st: Ctx, r: Ctx) {
    forall f | f in r.visited && f !in st.visited :: f in g && TargetsSeen(g[f], r.visited)
  }

  // The modules emitted between st and r are the files visited between st and r.
  ghost predicate Emits(st: Ctx, r: Ctx) {
    forall f :: f in r.visited && f !in st.visited <==> f in Files(r.decls) && f !in Files(st.decls)
  }

  ghost predicate Searched(g: Graph, imports: seq<Import>, st: Ctx, r: Ctx) {
    TargetsSeen(imports, r.visited) && Closed(g, st, r) && Emits(st, r)
  }

  function Entered(st: Ctx, f: File): Ctx { st.(visited := st.visited + [f]) }

  function Emitted(st: Ctx, name: string, f: File): Ctx {
    Ctx(st.visited, st.decls + [Module(name, f)], st.count + 1)
  }

  // What the search does with an import it has not met before.
  lemma DfsNew(g: Graph, max: nat, imports: seq<Import>, st: Ctx)
    requires imports != [] && imports[0].Local? && imports[0].file !in st.visited
    requires imports[0].file in g && st.count < max && Dfs(g, max, g[imports[0].file], Entered(st, imports[0].file)).1
    ensures Dfs(g, max, imports, st) == Dfs(g, max, imports[1..],
      Emitted(Dfs(g, max, g[imports[0].file], Entered(st, imports[0].file)).0, imports[0].name, imports[0].file))
  {
  }

  lemma {:induction false} DfsSearches(g: Graph, max: nat, imports: seq<Import>, st: Ctx, base: nat)
    requires Consistent(st, base) && Dfs(g, max, imports, st).1
    ensures Consistent(Dfs(g, max, imports, st).0, base) && Searched(g, imports, st, Dfs(g, max, imports, st).0)
    decreases |g.Keys - Seen(st)|, |imports|
  {
    if imports == [] {
    } else if imports[0].Local? && imports[0].file !in st.visited {
      DfsSearchesNew(g, max, imports, st, base);
    } else {
      DfsSearches(g, max, imports[1..], st, base);
      TargetsMore(imports, Dfs(g, max, imports[1..], st).0.visited);
    }
  }

  lemma {:induction false} DfsSearchesNew(g: Graph, max: nat, imports: seq<Import>, st: Ctx, base: nat)
    requires imports != [] && imports[0].Local? && imports[0].file !in st.visited
    requires Consistent(st, base) && Dfs(g, max, imports, st).1
    ensures Consistent(Dfs(g, max, imports, st).0, base) && Searched(g, imports, st, Dfs(g, max, imports, st).0)
    decreases |g.Keys - Seen(st)|, |imports|, 0
  {
    var f := imports[0].file;
    var st1 := Entered(st, f);
    Shrinks(g, st, f);
    EnterConsistent(st, f, base);
    DfsSearches(g, max, g[f], st1, base);
    var st2 := Dfs(g, max, g[f], st1).0;
    var st3 := Emitted(st2, imports[0].name, f);
    Shrinks2(g, st, st3, f);
    EmitConsistent(g, st, st2, imports[0].name, f, base);
    DfsSearches(g, max, imports[1..], st3, base);
    var r := Dfs(g, max, imports[1..], st3).0;
    Compose(g, imports, st, st2, r, base);
    DfsNew(g, max, imports, st);
    assert Dfs(g, max, imports, st).0 == r;
  }

  lemma TargetsMore(imports: seq<Import>, visited: seq<File>)
    requires imports != [] && TargetsSeen(imports[1..], visited)
    requires !imports[0].Refused? && (imports[0].Local? ==> imports[0].file in visited)
    ensures TargetsSeen(imports, visited)
  {
    forall i | 0 <= i < |imports|
      ensures !imports[i].Refused? && (imports[i].Local? ==> imports[i].file in visited)
    {
      if i > 0 { assert imports[i] == imports[1..][i - 1]; }
    }
  }

  lemma FilesApp(a: seq<Module>, m: Module)
    ensures Files(a + [m]) == Files(a) + {m.file}
  {
    forall x | x in Files(a) + {m.file} ensures x in Files(a + [m]) {
      if x == m.file { assert m in a + [m]; } else {
        var k :| k in a && k.file == x;
        assert k in a + [m];
      }
    }
  }

  lemma FilesGrow(a: seq<Module>, b: seq<Module>)
    requires a <= b
    ensures Files(a) <= Files(b)
  {
    forall x | x in Files(a) ensures x in Files(b) {
      var m :| m in a && m.file == x;
      assert m in b;
    }
  }

  lemma EnterConsistent(st: Ctx, f: File, base: nat)
    requires Consistent(st, base)
    ensures Consistent(Entered(st, f), base)
  {
    assert Seen(st) <= Seen(Entered(st, f));
  }

  // A file is not emitted before its own imports have been searched.
  lemma NotYet(g: Graph, st: Ctx, st2: Ctx, f: File, base: nat)
    requires f !in st.visited && Consistent(st, base) && Emits(Entered(st, f), st2)
    ensures f !in Files(st2.decls)
  {
    assert f !in Seen(st);
    assert f in Entered(st, f).visited;
  }

  // After the imports of f have been searched, f itself is emitted.
  lemma EmitConsistent(g: Graph, st: Ctx, st2: Ctx, name: string, f: File, base: nat)
    requires f !in st.visited && Consistent(st, base) && Consistent(st2, base) && Emits(Entered(st, f), st2)
    requires Entered(st, f).visited <= st2.visited
    ensures Consistent(Emitted(st2, name, f), base)
  {
    FilesApp(st2.decls, Module(name, f));
    NotYet(g, st, st2, f, base);
    assert st2.visited[|st.visited|] == f;
    var decls := st2.decls + [Module(name, f)];
    forall i, j | 0 <= i < j < |decls| ensures decls[i].file != decls[j].file {
      assert decls[i] in st2.decls;
      assert decls[i].file in Files(st2.decls);
    }
  }

  lemma Compose(g: Graph, imports: seq<Import>, st: Ctx, st2: Ctx, r: Ctx, base: nat)
    requires imports != [] && imports[0].Local? && imports[0].file !in st.visited && imports[0].file in g
    requires var f, st1 := imports[0].file, Entered(st, imports[0].file);
      Consistent(st, base) && st1.visited <= st2.visited && st1.decls <= st2.decls && Searched(g, g[f], st1, st2)
    requires var st3 := Emitted(st2, imports[0].name, imports[0].file);
      st3.visited <= r.visited && st3.decls <= r.decls && Searched(g, imports[1..], st3, r)
    ensures Searched(g, imports, st, r)
  {
    var f := imports[0].file;
    var st1, st3 := Entered(st, f), Emitted(st2, imports[0].name, f);
    assert st1.visited[|st.visited|] == f && r.visited[|st.visited|] == f;
    TargetsMore(imports, r.visited);
    forall x | x in r.visited && x !in st.visited ensures x in g && TargetsSeen(g[x], r.visited) {
      if x == f || x in st2.visited {
        assert TargetsSeen(g[x], st2.visited);
        TargetsGrow(g[x], st2.visited, r.visited);
      }
    }
    ComposeEmits(g, st, st2, r, imports[0].name, f, base);
  }

  lemma TargetsGrow(imports: seq<Import>, a: seq<File>, b: seq<File>)
    requires TargetsSeen(imports, a) && a <= b
    ensures TargetsSeen(imports, b)
  {
    forall i | 0 <= i < |imports| && imports[i].Local? ensures imports[i].file in b {
      var j :| 0 <= j < |a| && a[j] == imports[i].file;
      assert b[j] == a[j];
    }
  }

  lemma SeenGrow(a: seq<File>, b: seq<File>, x: File)
    requires a <= b && x in a
    ensures x in b
  {
    var j :| 0 <= j < |a| && a[j] == x;
    assert b[j] == x;
  }

  lemma ComposeEmits(g: Graph, st: Ctx, st2: Ctx, r: Ctx, name: string, f: File, base: nat)
    requires f !in st.visited && Consistent(st, base)
    requires Entered(st, f).visited <= st2.visited && st.decls <= st2.decls && Emits(Entered(st, f), st2)
    requires st2.visited <= r.visited && Emitted(st2, name, f).decls <= r.decls && Emits(Emitted(st2, name, f), r)
    ensures Emits(st, r)
  {
    FilesApp(st2.decls, Module(name, f));
    FilesGrow(st.decls, st2.decls);
    FilesGrow(Emitted(st2, name, f).decls, r.decls);
    forall x
      ensures x in r.visited && x !in st.visited <==> x in Files(r.decls) && x !in Files(st.decls)
    {
      if x in st.visited {
        SeenGrow(st.visited, Entered(st, f).visited, x);
        SeenGrow(Entered(st, f).visited, st2.visited, x);
      } else {
        assert x !in Seen(st) && x !in Files(st.decls);
        assert f in Entered(st, f).visited;
        SeenGrow(Entered(st, f).visited, st2.visited, f);
        SeenGrow(st2.visited, r.visited, f);
        if x in st2.visited { SeenGrow(st2.visited, r.visited, x); }
      }
    }
  }

  // ---------- everything visited is reachable ----------

  ghost predicate TargetsReach(g: Graph, imports: seq<Import>, root: File) {
    forall i | 0 <= i < |imports| && imports[i].Local? :: Reach(g, root, imports[i].file)
  }

  lemma ReachTargets(g: Graph, root: File, f: File)
    requires f in g && Reach(g, root, f)
    ensures TargetsReach(g, g[f], root)
  {
    LocalEdges(g, f);
    forall i | 0 <= i < |g[f]| && g[f][i].Local? ensures Reach(g, root, g[f][i].file) {
      ReachStep(g, root, f, g[f][i].file);
    }
  }

  lemma {:induction false} DfsReaches(g: Graph, max: nat, imports: seq<Import>, st: Ctx, root: File, x: File)
    requires TargetsReach(g, imports, root) && x in Dfs(g, max, imports, st).0.visited
    ensures x in st.visited || Reach(g, root, x)
    decreases |g.Keys - Seen(st)|, |imports|
  {
    if imports != [] && !imports[0].Refused? {
      var tail := imports[1..];
      assert TargetsReach(g, tail, root) by {
        forall i | 0 <= i < |tail| && tail[i].Local? ensures Reach(g, root, tail[i].file) {
          assert tail[i] == imports[i + 1];
        }
      }
      if imports[0].Lib? || imports[0].file in st.visited {
        DfsReaches(g, max, tail, st, root, x);
      } else {
        assert Reach(g, root, imports[0].file);
        DfsReachesNew(g, max, imports, st, root, x);
      }
    }
  }

  lemma {:induction false} DfsReachesNew(g: Graph, max: nat, imports: seq<Import>, st: Ctx, root: File, x: File)
    requires imports != [] && imports[0].Local? && imports[0].file !in st.visited
    requires TargetsReach(g, imports[1..], root) && Reach(g, root, imports[0].file)
    requires x in Dfs(g, max, imports, st).0.visited
    ensures x in st.visited || Reach(g, root, x)
    decreases |g.Keys - Seen(st)|, |imports|, 0
  {
    var f := imports[0].file;
    var st1 := Entered(st, f);
    if st.count < max && f in g {
      Shrinks(g, st, f);
      ReachTargets(g, root, f);
      var (st2, ok) := Dfs(g, max, g[f], st1);
      if x in st2.visited {
        DfsReaches(g, max, g[f], st1, root, x);
      } else if ok {
        var st3 := Emitted(st2, imports[0].name, f);
        Shrinks2(g, st, st3, f);
        DfsNew(g, max, imports, st);
        DfsReaches(g, max, imports[1..], st3, root, x);
      }
    }
  }

  // ---------- order ----------

  // Each import of an emitted module comes before it, or leads back to it.
  ghost predicate OrderedAt(g: Graph, decls: seq<Module>, i: nat, v: File)
    requires i < |decls|
  {
    v in Files(decls[..i]) || Reach(g, v, decls[i].file)
  }

  ghost predicate Ordered(g: Graph, decls: seq<Module>) {
    forall i: nat, v | i < |decls| && Edge(g, decls[i].file, v) :: OrderedAt(g, decls, i, v)
  }

  // Files whose imports are still being resolved lead to the current one.
  ghost predicate InProgress(g: Graph, st: Ctx, current: File) {
    forall x | x in st.visited && x !in Files(st.decls) :: Reach(g, x, current)
  }

  ghost predicate ImportedBy(g: Graph, imports: seq<Import>, current: File) {
    forall i | 0 <= i < |imports| && imports[i].Local? :: Edge(g, current, imports[i].file)
  }

  lemma {:induction false} DfsOrders(g: Graph, max: nat, imports: seq<Import>, st: Ctx, base: nat, current: File)
    requires Consistent(st, base) && Ordered(g, st.decls) && InProgress(g, st, current)
    requires ImportedBy(g, imports, current) && Dfs(g, max, imports, st).1
    ensures Ordered(g, Dfs(g, max, imports, st).0.decls)
    decreases |g.Keys - Seen(st)|, |imports|
  {
    if imports != [] {
      assert ImportedBy(g, imports[1..], current) by {
        forall i | 0 <= i < |imports[1..]| && imports[1..][i].Local? ensures Edge(g, current, imports[1..][i].file) {
          assert imports[1..][i] == imports[i + 1];
        }
      }
      if imports[0].Lib? || imports[0].file in st.visited {
        DfsOrders(g, max, imports[1..], st, base, current);
      } else {
        DfsOrdersNew(g, max, imports, st, base, current);
      }
    }
  }

  lemma {:induction false} DfsOrdersNew(g: Graph, max: nat, imports: seq<Import>, st: Ctx, base: nat, current: File)
    requires imports != [] && imports[0].Local? && imports[0].file !in st.visited
    requires Consistent(st, base) && Ordered(g, st.decls) && InProgress(g, st, current)
    requires Edge(g, current, imports[0].file) && ImportedBy(g, imports[1..], current)
    requires Dfs(g, max, imports, st).1
    ensures Ordered(g, Dfs(g, max, imports, st).0.decls)
    decreases |g.Keys - Seen(st)|, |imports|, 0
  {
    var f, name := imports[0].file, imports[0].name;
    var st1 := Entered(st, f);
    Shrinks(g, st, f);
    Enter(g, st, current, f);
    EnterConsistent(st, f, base);
    LocalEdges(g, f);
    DfsOrders(g, max, g[f], st1, base, f);
    DfsSearches(g, max, g[f], st1, base);
    var st2 := Dfs(g, max, g[f], st1).0;
    var st3 := Emitted(st2, name, f);
    Shrinks2(g, st, st3, f);
    EmitConsistent(g, st, st2, name, f, base);
    EmitOrdered(g, st1, st2, name, f);
    Leave(g, st, st2, name, current, f);
    DfsOrders(g, max, imports[1..], st3, base, current);
    DfsNew(g, max, imports, st);
  }

  lemma Enter(g: Graph, st: Ctx, current: File, f: File)
    requires InProgress(g, st, current) && Edge(g, current, f)
    ensures InProgress(g, Entered(st, f), f)
  {
    forall x | x in Entered(st, f).visited && x !in Files(st.decls) ensures Reach(g, x, f) {
      if x == f { ReachSelf(g, f); } else { ReachStep(g, x, current, f); }
    }
  }

  lemma Leave(g: Graph, st: Ctx, st2: Ctx, name: string, current: File, f: File)
    requires InProgress(g, st, current) && st.decls <= st2.decls && Emits(Entered(st, f), st2)
    ensures InProgress(g, Emitted(st2, name, f), current)
  {
    FilesApp(st2.decls, Module(name, f));
    FilesGrow(st.decls, st2.decls);
    forall x | x in st2.visited && x !in Files(st2.decls) && x != f ensures Reach(g, x, current) {
      assert x in Entered(st, f).visited;
    }
  }

  lemma EmitOrdered(g: Graph, st1: Ctx, st2: Ctx, name: string, f: File)
    requires f in g && InProgress(g, st1, f) && Ordered(g, st2.decls) && Searched(g, g[f], st1, st2)
    requires st1.decls <= st2.decls
    ensures Ordered(g, st2.decls + [Module(name, f)])
  {
    var decls := st2.decls + [Module(name, f)];
    FilesGrow(st1.decls, st2.decls);
    forall i: nat, v | i < |decls| && Edge(g, decls[i].file, v) ensures OrderedAt(g, decls, i, v) {
      if i < |st2.decls| {
        assert decls[i] == st2.decls[i] && decls[..i] == st2.decls[..i];
        assert OrderedAt(g, st2.decls, i, v);
      } else {
        assert decls[i].file == f && decls[..i] == st2.decls;
        var j, n :| 0 <= j < |g[f]| && g[f][j] == Local(n, v);
        assert v in st2.visited;
        if v !in Files(st2.decls) { assert v in st1.visited && v !in Files(st1.decls); }
      }
    }
  }

  lemma LocalEdges(g: Graph, f: File)
    requires f in g
    ensures ImportedBy(g, g[f], f)
  {
    forall i | 0 <= i < |g[f]| && g[f][i].Local? ensures Edge(g, f, g[f][i].file) {
      assert g[f][i] == Local(g[f][i].name, g[f][i].file);
    }
  }

  // ---------- success and failure ----------

  // A file that can be read and whose imports are all acceptable.
  ghost predicate Sound(g: Graph, f: File) { f in g && NoneRefused(g[f]) }

  ghost predicate Healthy(g: Graph, host: File) { forall f | Reach(g, host, f) :: Sound(g, f) }

  // The host and only readable files have been visited; the host has not been emitted.
  ghost predicate Progress(g: Graph, st: Ctx, base: nat, host: File) {
    && Consistent(st, base) && host in g && host in st.visited && host !in Files(st.decls)
    && forall x | x in st.visited :: x in g
  }

  predicate NoneRefused(imports: seq<Import>) { forall i | 0 <= i < |imports| :: !imports[i].Refused? }

  lemma {:induction false} DfsSucceeds(g: Graph, max: nat, imports: seq<Import>, st: Ctx, base: nat, host: File)
    requires Progress(g, st, base, host) && Healthy(g, host) && base + |g.Keys| <= max + 1
    requires NoneRefused(imports) && TargetsReach(g, imports, host)
    ensures Dfs(g, max, imports, st).1 && Progress(g, Dfs(g, max, imports, st).0, base, host)
    decreases |g.Keys - Seen(st)|, |imports|
  {
    if imports != [] {
      var tail := imports[1..];
      assert NoneRefused(tail) && TargetsReach(g, tail, host) by {
        forall i | 0 <= i < |tail|
          ensures !tail[i].Refused? && (tail[i].Local? ==> Reach(g, host, tail[i].file))
        {
          assert tail[i] == imports[i + 1];
        }
      }
      if imports[0].Lib? || imports[0].file in st.visited {
        DfsSucceeds(g, max, tail, st, base, host);
      } else {
        DfsSucceedsNew(g, max, imports, st, base, host);
      }
    }
  }

  lemma {:induction false} DfsSucceedsNew(g: Graph, max: nat, imports: seq<Import>, st: Ctx, base: nat, host: File)
    requires imports != [] && imports[0].Local? && imports[0].file !in st.visited
    requires Progress(g, st, base, host) && Healthy(g, host) && base + |g.Keys| <= max + 1
    requires NoneRefused(imports[1..]) && TargetsReach(g, imports[1..], host) && Reach(g, host, imports[0].file)
    ensures Dfs(g, max, imports, st).1 && Progress(g, Dfs(g, max, imports, st).0, base, host)
    decreases |g.Keys - Seen(st)|, |imports|, 0
  {
    var f, name := imports[0].file, imports[0].name;
    var st1 := Entered(st, f);
    assert Sound(g, f);
    CountBound(g, st, base, host, f);
    Shrinks(g, st, f);
    ReachTargets(g, host, f);
    EnterConsistent(st, f, base);
    DfsSucceeds(g, max, g[f], st1, base, host);
    DfsSearches(g, max, g[f], st1, base);
    var st2 := Dfs(g, max, g[f], st1).0;
    var st3 := Emitted(st2, name, f);
    Shrinks2(g, st, st3, f);
    EmitConsistent(g, st, st2, name, f, base);
    FilesApp(st2.decls, Module(name, f));
    DfsSucceeds(g, max, imports[1..], st3, base, host);
    DfsNew(g, max, imports, st);
  }

  lemma CountBound(g: Graph, st: Ctx, base: nat, host: File, f: File)
    requires Progress(g, st, base, host) && f in g && f !in st.visited
    ensures |st.decls| + 2 <= |g.Keys|
  {
    FilesSize(st.decls);
    assert Files(st.decls) <= Seen(st) <= g.Keys;
    assert f !in Seen(st);
    assert Files(st.decls) <= g.Keys - {host} - {f};
    SubsetSize(Files(st.decls), g.Keys - {host} - {f});
  }

  lemma {:induction false} FilesSize(decls: seq<Module>)
    requires OnceEach(decls)
    ensures |Files(decls)| == |decls|
  {
    if decls != [] {
      var n := |decls| - 1;
      FilesSize(decls[..n]);
      assert decls == decls[..n] + [decls[n]];
      FilesApp(decls[..n], decls[n]);
      assert decls[n].file !in Files(decls[..n]);
    }
  }

  // ---------- the main results ----------

  // The state in which resolver_merge_imports starts: only the host has been visited.
  function Start(host: File, base: nat): Ctx { Ctx([host], [], base) }

  function Merge(g: Graph, max: nat, host: File, base: nat): (Ctx, bool)
    requires host in g
  {
    Dfs(g, max, g[host], Start(host, base))
  }

  lemma StartOk(g: Graph, host: File, base: nat)
    requires host in g
    ensures Consistent(Start(host, base), base) && Ordered(g, []) && InProgress(g, Start(host, base), host)
    ensures ImportedBy(g, g[host], host) && TargetsReach(g, g[host], host)
    ensures Progress(g, Start(host, base), base, host)
  {
    ReachSelf(g, host);
    LocalEdges(g, host);
    ReachTargets(g, host, host);
  }

  lemma MergeCloses(g: Graph, max: nat, host: File, base: nat, u: File, v: File)
    requires host in g && Merge(g, max, host, base).1
    requires u in Merge(g, max, host, base).0.visited && Edge(g, u, v)
    ensures v in Merge(g, max, host, base).0.visited
  {
    StartOk(g, host, base);
    DfsSearches(g, max, g[host], Start(host, base), base);
    var r := Merge(g, max, host, base).0;
    var i, n :| 0 <= i < |g[u]| && g[u][i] == Local(n, v);
    assert TargetsSeen(g[u], r.visited);
  }

  lemma MergeVisits(g: Graph, max: nat, host: File, base: nat, f: File)
    requires host in g && Merge(g, max, host, base).1
    ensures f in Merge(g, max, host, base).0.visited <==> Reach(g, host, f)
  {
    StartOk(g, host, base);
    ReachSelf(g, host);
    var r := Merge(g, max, host, base).0;
    assert host == r.visited[0];
    if f in r.visited { DfsReaches(g, max, g[host], Start(host, base), host, f); }
    if Reach(g, host, f) {
      var p :| Connects(g, p, host, f);
      forall u, v | u in Seen(r) && Edge(g, u, v) ensures v in Seen(r) { MergeCloses(g, max, host, base, u, v); }
      ClosedReach(g, Seen(r), p);
    }
  }

  /** On success the declaration list holds every file reachable from the host by local
      imports, each once, and never the host itself, however cyclic the imports are. */
  lemma MergeEmitsReachable(g: Graph, max: nat, host: File, base: nat)
    requires host in g && Merge(g, max, host, base).1
    ensures var decls := Merge(g, max, host, base).0.decls;
      OnceEach(decls) && forall f :: f in Files(decls) <==> Reach(g, host, f) && f != host
  {
    StartOk(g, host, base);
    DfsSearches(g, max, g[host], Start(host, base), base);
    var decls := Merge(g, max, host, base).0.decls;
    forall f ensures f in Files(decls) <==> Reach(g, host, f) && f != host {
      MergeVisits(g, max, host, base, f);
      assert f in Start(host, base).visited <==> f == host;
    }
  }

  /** For every import u -> v between emitted modules, v stands before u in the list
      unless v can itself reach u. */
  lemma MergeOrders(g: Graph, max: nat, host: File, base: nat, i: nat, j: nat)
    requires host in g && Merge(g, max, host, base).1
    requires var decls := Merge(g, max, host, base).0.decls;
      i < |decls| && j < |decls| && Edge(g, decls[i].file, decls[j].file)
    ensures var decls := Merge(g, max, host, base).0.decls;
      j < i || Reach(g, decls[j].file, decls[i].file)
  {
    StartOk(g, host, base);
    DfsOrders(g, max, g[host], Start(host, base), base, host);
    DfsSearches(g, max, g[host], Start(host, base), base);
    var decls := Merge(g, max, host, base).0.decls;
    assert OrderedAt(g, decls, i, decls[j].file);
    if decls[j].file in Files(decls[..i]) {
      var m :| m in decls[..i] && m.file == decls[j].file;
      var l :| 0 <= l < i && decls[l] == m;
      assert l == j;
    }
  }

  /** With room for all files, resolution succeeds exactly if every file reachable from the
      host can be parsed and imports by acceptable paths only. */
  lemma MergeSucceedsIff(g: Graph, max: nat, host: File, base: nat)
    requires host in g && base + |g.Keys| <= max + 1
    ensures Merge(g, max, host, base).1 <==> Healthy(g, host)
  {
    StartOk(g, host, base);
    var st := Start(host, base);
    if Healthy(g, host) {
      ReachSelf(g, host);
      assert Sound(g, host);
      DfsSucceeds(g, max, g[host], st, base, host);
    }
    if Merge(g, max, host, base).1 {
      DfsSearches(g, max, g[host], st, base);
      var r := Merge(g, max, host, base).0;
      forall f | Reach(g, host, f) ensures Sound(g, f) {
        MergeVisits(g, max, host, base, f);
        assert f in g && TargetsSeen(g[f], r.visited);
      }
    }
  }

  // What one import not met before does to the search.
  function Visit(g: Graph, max: nat, name: string, f: File, st: Ctx): (Ctx, bool) {
    if st.count >= max || f !in g then (Entered(st, f), false)
    else
      var (st2, ok) := Dfs(g, max, g[f], Entered(st, f));
      if ok then (Emitted(st2, name, f), true) else (st2, false)
  }

  lemma VisitPrefix(g: Graph, max: nat, imports: seq<Import>, st: Ctx, f: File)
    ensures st.visited <= Dfs(g, max, imports, Entered(st, f)).0.visited
  {
    assert st.visited <= Entered(st, f).visited;
  }

  // One turn of the loop, for each way it can go.
  lemma DfsAt(g: Graph, max: nat, imports: seq<Import>, i: nat, st: Ctx)
    requires i < |imports|
    ensures imports[i].Refused? ==> Dfs(g, max, imports[i..], st) == (st, false)
    ensures imports[i].Lib? || (imports[i].Local? && imports[i].file in st.visited) ==>
      Dfs(g, max, imports[i..], st) == Dfs(g, max, imports[i + 1..], st)
    ensures imports[i].Local? && imports[i].file !in st.visited ==>
      var (st3, ok) := Visit(g, max, imports[i].name, imports[i].file, st);
      Dfs(g, max, imports[i..], st) == if ok then Dfs(g, max, imports[i + 1..], st3) else (st3, false)
  {
    assert imports[i..][0] == imports[i] && imports[i..][1..] == imports[i + 1..];
  }

  class ImportCtx {
    const visited: array<File>
    var visitedCount: nat
    var decls: seq<Module>
    var extraCount: nat
    const max: nat

    ghost predicate Valid()
      reads this, visited
    {
      visited.Length == MAX_VISITED && visitedCount <= MAX_VISITED && Distinct(visited[..visitedCount])
    }

    ghost function Abs(): Ctx
      requires Valid()
      reads this, visited
    {
      Ctx(visited[..visitedCount], decls, extraCount)
    }

    constructor (host: File, base: nat, max: nat)
      ensures Valid() && Abs() == Start(host, base) && this.max == max && fresh(visited)
    {
      visited := new File[MAX_VISITED](_ => File(""));
      visitedCount, decls, extraCount := 1, [], base;
      this.max := max;
      new;
      visited[0] := host;
      assert visited[..1] == [host];
    }

    method SeenBefore(f: File) returns (b: bool)
      requires Valid()
      ensures b == (f in Abs().visited)
    {
      var i := 0;
      while i < visitedCount
        invariant i <= visitedCount && f !in visited[..i]
      {
        if visited[i] == f { return true; }
        i := i + 1;
      }
      b := false;
    }

    method Add(f: File)
      requires Valid() && f !in Abs().visited && visitedCount < MAX_VISITED
      modifies `visitedCount, visited
      ensures Valid() && Abs() == old(Abs()).(visited := old(Abs()).visited + [f])
    {
      visited[visitedCount] := f;
      visitedCount := visitedCount + 1;
      assert visited[..visitedCount] == old(visited[..visitedCount]) + [f];
    }

    method Emit(name: string, f: File)
      requires Valid()
      modifies `decls, `extraCount
      ensures Valid() && Abs() == Emitted(old(Abs()), name, f)
    {
      decls := decls + [Module(name, f)];
      extraCount := extraCount + 1;
    }

    // `files` is everything that can ever be visited; the table is large enough for it.
    ghost predicate Room(g: Graph, files: set<File>)
      requires Valid()
      reads this, visited
    {
      |files| <= MAX_VISITED && Seen(Abs()) <= files && forall f | f in g :: TargetsIn(g[f], files)
    }

    /** The recursive loop does what the search function says: same visited files, same
        modules in the same order, same failures; and it terminates on every graph. */
    method ResolveLocalRec(g: Graph, imports: seq<Import>, ghost files: set<File>) returns (ok: bool)
      requires Valid() && Room(g, files) && TargetsIn(imports, files)
      modifies this, visited
      ensures Valid() && Room(g, files) && (Abs(), ok) == Dfs(g, max, imports, old(Abs()))
      decreases |g.Keys - Seen(Abs())|
    {
      var i := 0;
      ghost var start := Abs();
      while i < |imports|
        invariant i <= |imports| && Valid() && Room(g, files) && start.visited <= Abs().visited
        invariant Dfs(g, max, imports[i..], Abs()) == Dfs(g, max, imports, start)
        decreases |imports| - i
      {
        DfsAt(g, max, imports, i, Abs());
        if imports[i].Refused? { return false; }
        if imports[i].Local? {
          var seen := SeenBefore(imports[i].file);
          if !seen {
            Remains(g, start, Abs());
            var done := ResolveNew(g, imports[i].name, imports[i].file, files);
            if !done { return false; }
          }
        }
        i := i + 1;
      }
      ok := true;
    }

    // The body of the loop for an import that has not been visited.
    method ResolveNew(g: Graph, name: string, f: File, ghost files: set<File>) returns (ok: bool)
      requires Valid() && Room(g, files) && f in files && f !in Abs().visited
      modifies this, visited
      ensures Valid() && Room(g, files) && (Abs(), ok) == Visit(g, max, name, f, old(Abs()))
      ensures old(Abs()).visited <= Abs().visited
      decreases |g.Keys - Seen(Abs())|, 0
    {
      ghost var before := Abs();
      RoomLeft(before.visited, files, f);
      Add(f);
      assert Abs() == Entered(before, f) && Seen(Abs()) == Seen(before) + {f};
      if extraCount >= max { return false; }
      if f !in g { return false; }
      Shrinks(g, before, f);
      ok := ResolveLocalRec(g, g[f], files);
      ghost var after := Abs();
      assert (after, ok) == Dfs(g, max, g[f], Entered(before, f));
      VisitPrefix(g, max, g[f], before, f);
      if ok { Emit(name, f); }
    }
  }

  predicate TargetsIn(imports: seq<Import>, files: set<File>) {
    forall i | 0 <= i < |imports| && imports[i].Local? :: imports[i].file in files
  }

  lemma Remains(g: Graph, start: Ctx, st: Ctx)
    requires start.visited <= st.visited
    ensures |g.Keys - Seen(st)| <= |g.Keys - Seen(start)|
  {
    forall x | x in start.visited ensures x in st.visited { SeenGrow(start.visited, st.visited, x); }
    SubsetSize(g.Keys - Seen(st), g.Keys - Seen(start));
  }

  lemma RoomLeft(visited: seq<File>, files: set<File>, f: File)
    requires Distinct(visited) && (forall x | x in visited :: x in files) && f in files && f !in visited
    ensures |visited| < |files|
  {
    var s := set x | x in visited;
    DistinctSize(visited);
    Smaller(s, files, f);
  }

  lemma {:induction false} DistinctSize(fs: seq<File>)
    requires Distinct(fs)
    ensures |set x | x in fs| == |fs|
  {
    if fs != [] {
      var n := |fs| - 1;
      DistinctSize(fs[..n]);
      assert (set x | x in fs) == (set x | x in fs[..n]) + {fs[n]};
    }
  }

  /** The whole local half: with table room for every file, the modules emitted are the files
      reachable from the host, each once, dependencies first except around cycles. */
  method MergeImports(g: Graph, host: File, base: nat, max: nat, ghost files: set<File>)
    returns (decls: seq<Module>, ok: bool)
    requires host in g && host in files && |files| <= MAX_VISITED && forall f | f in g :: TargetsIn(g[f], files)
    ensures ok ==> OnceEach(decls) && forall f :: f in Files(decls) <==> Reach(g, host, f) && f != host
    ensures ok ==> forall i, j | 0 <= i < |decls| && 0 <= j < |decls| && Edge(g, decls[i].file, decls[j].file) ::
      j < i || Reach(g, decls[j].file, decls[i].file)
    ensures base + |g.Keys| <= max + 1 ==> (ok <==> Healthy(g, host))
  {
    var ctx := new ImportCtx(host, base, max);
    assert Seen(ctx.Abs()) <= files;
    ok := ctx.ResolveLocalRec(g, g[host], files);
    decls := ctx.decls;
    assert (ctx.Abs(), ok) == Merge(g, max, host, base);
    if ok {
      MergeEmitsReachable(g, max, host, base);
      forall i, j | 0 <= i < |decls| && 0 <= j < |decls| && Edge(g, decls[i].file, decls[j].file)
        ensures j < i || Reach(g, decls[j].file, decls[i].file)
      {
        MergeOrders(g, max, host, base, i, j);
      }
    }
    if base + |g.Keys| <= max + 1 { MergeSucceedsIff(g, max, host, base); }
  }
}
