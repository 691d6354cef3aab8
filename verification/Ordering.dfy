/** Operands of which at most one does anything: the order of their evaluation is not
    seen.  Both runs are compared with a list of values and the result of that one. */
module Ordering {
  import opened Ast
  import opened Options
  import opened Seqs
  import opened Semantics
  import opened Cpp
  import opened Support

  // Without the j-th, every operand has its value before and after the j-th has run,
  // which ends in r; there may be no j-th operand.
  ghost predicate SourceOps(w: World, k: nat, fal: bool, e: Expr, j: nat, vs: seq<Val>, env: Env, st: State, r: ERes) {
    && |vs| == |Operands(e)| && j <= |vs|
    && (if j < |vs| then EvalX(w, k, fal, Operands(e)[j], env, st) == r && (r.Got? ==> r.v == vs[j])
        else r == Got(Unit, st))
    && (forall m | 0 <= m < |vs| && m != j :: EvalX(w, k, fal, Operands(e)[m], env, st) == Got(vs[m], st))
    && (r.Got? ==>
          forall m | 0 <= m < |vs| && m != j :: EvalX(w, k, fal, Operands(e)[m], env, r.st) == Got(vs[m], r.st))
  }

  lemma {:induction false} LeftToRight(w: World, k: nat, fal: bool, e: Expr, i: nat, j: nat, vs: seq<Val>,
                                       env: Env, st: State, r: ERes)
    requires SourceOps(w, k, fal, e, j, vs, env, st, r) && i <= |vs| && (i <= j || r.Got?)
    ensures EvalOps(w, k, fal, e, i, env, if i <= j then st else r.st) ==
      if r.Got? then GotAll(vs[i..], r.st) else GoneAll(r.out, r.st)
    decreases |vs| - i
  {
    var cur := if i <= j then st else r.st;
    if i == |vs| {
      assert vs[i..] == [];
    } else {
      var x := Operands(e)[i];
      if i == j {
        assert EvalX(w, k, fal, x, env, cur) == r;
      } else {
        assert EvalX(w, k, fal, x, env, cur) == Got(vs[i], cur);
      }
      if i != j || r.Got? {
        LeftToRight(w, k, fal, e, i + 1, j, vs, env, st, r);
        HeadTail(vs[i..]);
      }
    }
  }

  ghost predicate TargetOps(tw: TWorld, k: nat, e: TExpr, j: nat, vs: seq<Val>, env: TEnv, st: TState, r: TERes) {
    && e.TOp? && |vs| == |e.args| && j <= |vs|
    && (if j < |vs| then TEvalX(tw, k, e.args[j], env, st) == r && (r.TGot? ==> r.v == vs[j])
        else r == TGot(Unit, st))
    && (forall m | 0 <= m < |vs| && m != j :: TEvalX(tw, k, e.args[m], env, st) == TGot(vs[m], st))
    && (r.TGot? ==> forall m | 0 <= m < |vs| && m != j :: TEvalX(tw, k, e.args[m], env, r.st) == TGot(vs[m], r.st))
  }

  predicate Distinct(s: seq<nat>) { forall a, b | 0 <= a < b < |s| :: s[a] != s[b] }

  lemma WithoutIn(s: seq<nat>, p: nat, m: nat)
    requires p < |s| && Distinct(s)
    ensures m in Without(s, p) <==> m in s && m != s[p]
    ensures Distinct(Without(s, p)) && forall n :: Below(s, n) ==> Below(Without(s, p), n)
  {
    var t := Without(s, p);
    if m in s && m != s[p] {
      var q :| 0 <= q < |s| && s[q] == m;
      assert t[if q < p then q else q - 1] == m;
    }
  }

  /** Whatever order is picked, the operands end as left to right. */
  lemma {:induction false} AnyOrder(tw: TWorld, k: nat, e: TExpr, j: nat, vs: seq<Val>, env: TEnv, st: TState, r: TERes,
                                    rest: seq<nat>, us: seq<Val>)
    requires TargetOps(tw, k, e, j, vs, env, st, r) && |us| == |vs|
    requires Distinct(rest) && Below(rest, |vs|) && (j < |vs| && r.TGone? ==> j in rest)
    requires forall m | 0 <= m < |vs| && m !in rest :: us[m] == vs[m]
    ensures TOperands(tw, k, e, rest, us, env, if j < |vs| && j !in rest then r.st else st) ==
      if r.TGot? then TGotAll(vs, r.st) else TGoneAll(r.out, r.st)
    decreases |rest|
  {
    var cur := if j < |vs| && j !in rest then r.st else st;
    if rest == [] {
      assert us == vs;
    } else {
      var p := tw.pick(e, rest, cur) % |rest|;
      var i := rest[p];
      forall m: nat ensures m in Without(rest, p) <==> m in rest && m != i { WithoutIn(rest, p, m); }
      if i != j || r.TGot? {
        WithoutIn(rest, p, i);
        AnyOrder(tw, k, e, j, vs, env, st, r, Without(rest, p), us[i := vs[i]]);
      }
    }
  }

  lemma AllOperands(tw: TWorld, k: nat, e: TExpr, j: nat, vs: seq<Val>, env: TEnv, st: TState, r: TERes)
    requires TargetOps(tw, k, e, j, vs, env, st, r)
    ensures TOperands(tw, k, e, All(|vs|), Blank(|vs|), env, st) ==
      if r.TGot? then TGotAll(vs, r.st) else TGoneAll(r.out, r.st)
  {
    var rest := All(|vs|);
    forall m | 0 <= m < |vs| ensures m in rest { assert rest[m] == m; }
    AnyOrder(tw, k, e, j, vs, env, st, r, rest, Blank(|vs|));
  }

  // ---------- a compiler that goes from left to right ----------

  const LEFT_TO_RIGHT: Pick := (e, rest, st) => 0

  lemma NextInOrder(tw: TWorld, k: nat, e: TExpr, rest: seq<nat>, vs: seq<Val>, env: TEnv, st: TState)
    requires tw.pick == LEFT_TO_RIGHT && e.TOp? && |vs| == |e.args| && Below(rest, |e.args|) && rest != []
    ensures var r := TEvalX(tw, k, e.args[rest[0]], env, st);
      TOperands(tw, k, e, rest, vs, env, st) ==
        if r.TGone? then TGoneAll(r.out, r.st)
        else TOperands(tw, k, e, Without(rest, 0), vs[rest[0] := r.v], env, r.st)
  {
    assert tw.pick(e, rest, st) % |rest| == 0;
  }

  // The operands from the i-th on.
  function InOrder(tw: TWorld, k: nat, e: TExpr, i: nat, env: TEnv, st: TState): TEAll
    requires e.TOp? && i <= |e.args|
    decreases |e.args| - i
  {
    if i == |e.args| then TGotAll([], st)
    else
      var r := TEvalX(tw, k, e.args[i], env, st);
      if r.TGone? then TGoneAll(r.out, r.st)
      else
        var q := InOrder(tw, k, e, i + 1, env, r.st);
        if q.TGoneAll? then q else TGotAll([r.v] + q.vs, q.st)
  }

  predicate From(rest: seq<nat>, i: nat, n: nat) {
    i <= n && |rest| == n - i && forall m | 0 <= m < |rest| :: rest[m] == i + m
  }

  lemma FromNext(rest: seq<nat>, i: nat, n: nat)
    requires From(rest, i, n) && i < n
    ensures rest[0] == i && Below(rest, n) && From(Without(rest, 0), i + 1, n)
  {}

  lemma {:induction false} GoesInOrder(tw: TWorld, k: nat, e: TExpr, i: nat, rest: seq<nat>, us: seq<Val>,
                                       env: TEnv, st: TState)
    requires tw.pick == LEFT_TO_RIGHT && e.TOp? && |us| == |e.args| && From(rest, i, |us|)
    ensures var q := InOrder(tw, k, e, i, env, st);
      TOperands(tw, k, e, rest, us, env, st) ==
        if q.TGoneAll? then q else TGotAll(us[..i] + q.vs, q.st)
    decreases |us| - i
  {
    if i == |us| {
      AppNil(us);
    } else {
      FromNext(rest, i, |us|);
      NextInOrder(tw, k, e, rest, us, env, st);
      var r := TEvalX(tw, k, e.args[i], env, st);
      if r.TGot? {
        var q := InOrder(tw, k, e, i + 1, env, r.st);
        GoesInOrder(tw, k, e, i + 1, Without(rest, 0), us[i := r.v], env, r.st);
        if q.TGotAll? { OneMore(us, i, r.v, q.vs); }
      }
    }
  }

  lemma OneMore(us: seq<Val>, i: nat, v: Val, vs: seq<Val>)
    requires i < |us|
    ensures us[i := v][..i + 1] + vs == us[..i] + ([v] + vs)
  {}

  // ---------- a compiler that goes from right to left ----------

  const RIGHT_TO_LEFT: Pick := (e, rest, st) => if rest == [] then 0 else |rest| - 1

  // The first i operands from the last of them to the first: in the source ...
  function EvalBack(w: World, k: nat, fal: bool, e: Expr, i: nat, env: Env, st: State): EAll
    requires i <= |Operands(e)|
    decreases i
  {
    if i == 0 then GotAll([], st)
    else
      var r := EvalX(w, k, fal, Operands(e)[i - 1], env, st);
      if r.Gone? then GoneAll(r.out, r.st)
      else
        var q := EvalBack(w, k, fal, e, i - 1, env, r.st);
        if q.GoneAll? then q else GotAll(q.vs + [r.v], q.st)
  }

  // ... and in the emitted program.
  function InBack(tw: TWorld, k: nat, e: TExpr, i: nat, env: TEnv, st: TState): TEAll
    requires e.TOp? && i <= |e.args|
    decreases i
  {
    if i == 0 then TGotAll([], st)
    else
      var r := TEvalX(tw, k, e.args[i - 1], env, st);
      if r.TGone? then TGoneAll(r.out, r.st)
      else
        var q := InBack(tw, k, e, i - 1, env, r.st);
        if q.TGoneAll? then q else TGotAll(q.vs + [r.v], q.st)
  }

  lemma NextBack(tw: TWorld, k: nat, e: TExpr, rest: seq<nat>, vs: seq<Val>, env: TEnv, st: TState)
    requires tw.pick == RIGHT_TO_LEFT && e.TOp? && |vs| == |e.args| && Below(rest, |e.args|) && rest != []
    ensures var n := |rest| - 1;
      var r := TEvalX(tw, k, e.args[rest[n]], env, st);
      TOperands(tw, k, e, rest, vs, env, st) ==
        if r.TGone? then TGoneAll(r.out, r.st)
        else TOperands(tw, k, e, Without(rest, n), vs[rest[n] := r.v], env, r.st)
  {
    assert tw.pick(e, rest, st) % |rest| == |rest| - 1;
  }

  lemma UpToNext(rest: seq<nat>, i: nat)
    requires From(rest, 0, i) && i > 0
    ensures rest[i - 1] == i - 1 && Below(rest, i) && From(Without(rest, i - 1), 0, i - 1)
  {}

  lemma {:induction false} GoesBack(tw: TWorld, k: nat, e: TExpr, i: nat, rest: seq<nat>, us: seq<Val>,
                                    env: TEnv, st: TState)
    requires tw.pick == RIGHT_TO_LEFT && e.TOp? && |us| == |e.args| && i <= |us| && From(rest, 0, i)
    ensures var q := InBack(tw, k, e, i, env, st);
      TOperands(tw, k, e, rest, us, env, st) ==
        if q.TGoneAll? then q else TGotAll(q.vs + us[i..], q.st)
    decreases i
  {
    if i == 0 {
      AppNil(us);
    } else {
      UpToNext(rest, i);
      NextBack(tw, k, e, rest, us, env, st);
      var r := TEvalX(tw, k, e.args[i - 1], env, st);
      if r.TGot? {
        var q := InBack(tw, k, e, i - 1, env, r.st);
        GoesBack(tw, k, e, i - 1, Without(rest, i - 1), us[i - 1 := r.v], env, r.st);
        if q.TGotAll? { OneLess(us, i, r.v, q.vs); }
      }
    }
  }

  lemma OneLess(us: seq<Val>, i: nat, v: Val, vs: seq<Val>)
    requires 0 < i <= |us|
    ensures vs + us[i - 1 := v][i - 1..] == (vs + [v]) + us[i..]
  {}

  // ---------- two operands ----------

  lemma Last(tw: TWorld, k: nat, e: TExpr, i: nat, vs: seq<Val>, env: TEnv, st: TState)
    requires e.TOp? && |vs| == |e.args| && i < |vs|
    ensures var r := TEvalX(tw, k, e.args[i], env, st);
      TOperands(tw, k, e, [i], vs, env, st) ==
        if r.TGone? then TGoneAll(r.out, r.st) else TGotAll(vs[i := r.v], r.st)
  {
    var one: seq<nat> := [i];
    assert Without(one, 0) == [];
    assert tw.pick(e, one, st) % |one| == 0;
  }

  /** Two operands are evaluated in one order or the other. */
  lemma OneOrTheOther(tw: TWorld, k: nat, e: TExpr, env: TEnv, st: TState)
    requires e.TOp? && |e.args| == 2
    ensures var q := TOperands(tw, k, e, All(2), Blank(2), env, st);
      q == InOrder(tw, k, e, 0, env, st) || q == InBack(tw, k, e, 2, env, st)
  {
    var two, us := All(2), Blank(2);
    assert two == [0, 1] && Without(two, 0) == [1] && Without(two, 1) == [0];
    var p := tw.pick(e, two, st) % 2;
    var r := TEvalX(tw, k, e.args[p], env, st);
    if r.TGot? {
      Last(tw, k, e, 1 - p, us[p := r.v], env, r.st);
      var l := TEvalX(tw, k, e.args[1 - p], env, r.st);
      if p == 0 {
        if l.TGot? {
          assert InOrder(tw, k, e, 2, env, l.st) == TGotAll([], l.st);
          assert us[0 := r.v][1 := l.v] == [r.v] + ([l.v] + []);
        }
        assert InOrder(tw, k, e, 1, env, r.st) == if l.TGone? then TGoneAll(l.out, l.st) else TGotAll([l.v] + [], l.st);
      } else {
        if l.TGot? {
          assert InBack(tw, k, e, 0, env, l.st) == TGotAll([], l.st);
          assert us[1 := r.v][0 := l.v] == ([] + [l.v]) + [r.v];
        }
        assert InBack(tw, k, e, 1, env, r.st) == if l.TGone? then TGoneAll(l.out, l.st) else TGotAll([] + [l.v], l.st);
      }
    }
  }
}
