/** The string helpers every emitted program carries: split, join, replace, count.
    src/codegen/stdlib_impl.h. */
module Strings {
  import opened Options
  import opened Seqs

  predicate At(s: string, d: string, i: nat) { i + |d| <= |s| && s[i..i + |d|] == d }

  // std::string::find: the first occurrence at or after p.
  function Find(s: string, d: string, p: nat): (r: Option<nat>)
    ensures r.Some? ==> p <= r.value && r.value + |d| <= |s|
    decreases |s| - p
  {
    if p + |d| > |s| then None else if At(s, d, p) then Some(p) else Find(s, d, p + 1)
  }

  ghost predicate IsFirst(s: string, d: string, p: nat, r: Option<nat>) {
    match r
    case None => forall i: nat | p <= i :: !At(s, d, i)
    case Some(n) => p <= n && At(s, d, n) && forall i: nat | p <= i < n :: !At(s, d, i)
  }

  lemma {:induction false} FindsFirst(s: string, d: string, p: nat, r: Option<nat>)
    ensures Find(s, d, p) == r <==> IsFirst(s, d, p, r)
    decreases |s| - p
  {
    if p + |d| <= |s| && !At(s, d, p) {
      FindsFirst(s, d, p + 1, r);
    }
  }

  predicate Contains(s: string, d: string) { Find(s, d, 0).Some? }

  // The pieces between the occurrences of d, from position p on.
  function Parts(s: string, d: string, p: nat): (v: seq<string>)
    requires d != "" && p <= |s|
    ensures v != []
    decreases |s| - p
  {
    match Find(s, d, p)
    case None => [s[p..]]
    case Some(n) => [s[p..n]] + Parts(s, d, n + |d|)
  }

  lemma PartsStep(s: string, d: string, p: nat)
    requires d != "" && p <= |s|
    ensures Find(s, d, p).None? ==> Parts(s, d, p) == [s[p..]]
    ensures Find(s, d, p).Some? ==> var n := Find(s, d, p).value;
      Parts(s, d, p) == [s[p..n]] + Parts(s, d, n + |d|) && |Parts(s, d, p)| == 1 + |Parts(s, d, n + |d|)|
  {
  }

  function Split(s: string, d: string): seq<string> {
    if d == "" then Chars(s) else Parts(s, d, 0)
  }

  function Chars(s: string): seq<string> { if s == "" then [] else [[s[0]]] + Chars(s[1..]) }

  function Join(v: seq<string>, sep: string): string {
    if v == [] then "" else if |v| == 1 then v[0] else v[0] + sep + Join(v[1..], sep)
  }

  // ---------- the loops ----------

  method SplitLoop(s: string, d: string) returns (out: seq<string>)
    ensures out == Split(s, d)
  {
    out := [];
    if d == "" {
      var i := 0;
      while i < |s|
        invariant i <= |s| && out + Chars(s[i..]) == Chars(s)
      {
        assert s[i..][1..] == s[i + 1..];
        Assoc(out, [[s[i]]], Chars(s[i + 1..]));
        out := out + [[s[i]]];
        i := i + 1;
      }
      return;
    }
    var p: nat := 0;
    var n := Find(s, d, p);
    while n.Some?
      invariant p <= |s| && n == Find(s, d, p)
      invariant out + Parts(s, d, p) == Parts(s, d, 0)
      decreases |s| - p
    {
      PartsStep(s, d, p);
      Assoc(out, [s[p..n.value]], Parts(s, d, n.value + |d|));
      out := out + [s[p..n.value]];
      p := n.value + |d|;
      n := Find(s, d, p);
    }
    out := out + [s[p..]];
  }

  method JoinLoop(v: seq<string>, sep: string) returns (r: string)
    ensures r == Join(v, sep)
  {
    r := "";
    var i := 0;
    while i < |v|
      invariant i <= |v| && r == Join(v[..i], sep)
    {
      JoinSnoc(v[..i], v[i], sep);
      assert v[..i] + [v[i]] == v[..i + 1];
      if i > 0 { r := r + sep; }
      r := r + v[i];
      i := i + 1;
    }
    assert v[..i] == v;
  }

  method CountLoop(s: string, sub: string) returns (n: nat)
    ensures n == if sub == "" then 0 else |Split(s, sub)| - 1
  {
    if sub == "" { return 0; }
    n := 0;
    var p: nat := 0;
    var f := Find(s, sub, p);
    while f.Some?
      invariant p <= |s| && f == Find(s, sub, p)
      invariant n + |Parts(s, sub, p)| == |Parts(s, sub, 0)|
      decreases |s| - p
    {
      PartsStep(s, sub, p);
      n := n + 1;
      p := f.value + |sub|;
      f := Find(s, sub, p);
    }
  }

  /** The text is edited in place while it is searched; the search goes on behind what was
      put in, so the loop ends even when the new text contains the old one. */
  method ReplaceLoop(s: string, f: string, t: string) returns (r: string)
    requires f != ""
    ensures r == Join(Split(s, f), t)
  {
    r := s;
    var p: nat := 0;
    var n := Find(r, f, p);
    while n.Some?
      invariant p <= |r| && n == Find(r, f, p)
      invariant Finished(r, f, t, p) == Finished(s, f, t, 0)
      decreases |r| - p
    {
      EditKeeps(r, f, t, p, n.value);
      r := r[..n.value] + t + r[n.value + |f|..];
      p := n.value + |t|;
      n := Find(r, f, p);
    }
    FinishedEnd(r, f, t, p);
    FinishedStart(s, f, t);
  }

  lemma FinishedEnd(r: string, f: string, t: string, p: nat)
    requires f != "" && p <= |r| && Find(r, f, p).None?
    ensures Finished(r, f, t, p) == r
  {
    assert Parts(r, f, p) == [r[p..]];
    assert r[..p] + r[p..] == r;
  }

  lemma FinishedStart(s: string, f: string, t: string)
    requires f != ""
    ensures Finished(s, f, t, 0) == Join(Split(s, f), t)
  {
    AppNil(Join(Parts(s, f, 0), t));
    assert s[..0] == "";
  }

  // What is settled before p, and what replacing the rest would give.
  function Finished(r: string, f: string, t: string, p: nat): string
    requires f != "" && p <= |r|
  {
    r[..p] + Join(Parts(r, f, p), t)
  }

  lemma EditKeeps(r: string, f: string, t: string, p: nat, n: nat)
    requires f != "" && p <= |r| && Find(r, f, p) == Some(n)
    ensures Finished(r[..n] + t + r[n + |f|..], f, t, n + |t|) == Finished(r, f, t, p)
  {
    BehindEdit(r[..n] + t, r[n + |f|..], f);
    BeforeEdit(r, f, t, p, n);
  }

  lemma BehindEdit(front: string, rest: string, f: string)
    requires f != ""
    ensures (front + rest)[..|front|] == front && Parts(front + rest, f, |front|) == Parts(rest, f, 0)
  {
    PartsShift(front + rest, |front|, rest, f, 0);
  }

  lemma BeforeEdit(r: string, f: string, t: string, p: nat, n: nat)
    requires f != "" && p <= |r| && Find(r, f, p) == Some(n)
    ensures r[..p] + Join(Parts(r, f, p), t) == r[..n] + t + Join(Parts(r[n + |f|..], f, 0), t)
  {
    var v := Parts(r, f, n + |f|);
    PartsAt(r, f, n + |f|);
    PartsSome(r, f, p, n);
    JoinFirst(Parts(r, f, p), r[p..n], v, t);
    Prefixed(r, p, n, t, Join(Parts(r, f, p), t), Join(v, t));
  }

  lemma Prefixed(r: string, p: nat, n: nat, t: string, joined: string, tail: string)
    requires p <= n <= |r| && joined == r[p..n] + t + tail
    ensures r[..p] + joined == r[..n] + t + tail
  {
    CutJoined(r, p, n);
    Regroup(r[..p], r[p..n], t, tail);
  }

  lemma CutJoined(r: string, p: nat, n: nat)
    requires p <= n <= |r|
    ensures r[..p] + r[p..n] == r[..n]
  {
  }

  lemma Regroup(a: string, b: string, c: string, d: string)
    ensures a + (b + c + d) == a + b + c + d
  {
  }

  lemma PartsAt(s: string, d: string, p: nat)
    requires d != "" && p <= |s|
    ensures Parts(s, d, p) == Parts(s[p..], d, 0)
  {
    PartsShift(s, p, s[p..], d, 0);
  }

  lemma JoinFirst(w: seq<string>, a: string, v: seq<string>, sep: string)
    requires v != [] && w == [a] + v
    ensures Join(w, sep) == a + sep + Join(v, sep)
  {
    ConsTail(a, v);
  }

  // ---------- searching a text with a prefix put before it ----------

  lemma AtShift(s: string, off: nat, b: string, d: string, i: nat)
    requires EndsIn(s, off, b)
    ensures At(s, d, off + i) <==> At(b, d, i)
  {
    if i + |d| <= |b| { SliceShift(s, off, b, i, i + |d|); }
  }

  lemma {:induction false} FindShift(s: string, off: nat, b: string, d: string, p: nat)
    requires EndsIn(s, off, b)
    ensures Find(s, d, off + p) == match Find(b, d, p) case None => None case Some(n) => Some(off + n)
    decreases |b| - p
  {
    if p + |d| <= |b| {
      AtShift(s, off, b, d, p);
      if !At(b, d, p) { FindShift(s, off, b, d, p + 1); }
    }
  }

  lemma {:induction false} PartsShift(s: string, off: nat, b: string, d: string, p: nat)
    requires EndsIn(s, off, b) && d != "" && p <= |b|
    ensures Parts(s, d, off + p) == Parts(b, d, p)
    decreases |b| - p
  {
    FindShift(s, off, b, d, p);
    if Find(b, d, p).Some? {
      var n := Find(b, d, p).value;
      PartsShift(s, off, b, d, n + |d|);
      ShiftSome(s, off, b, d, p, n);
    } else {
      ShiftNone(s, off, b, d, p);
    }
  }

  lemma PartsSome(s: string, d: string, p: nat, n: nat)
    requires d != "" && p <= |s| && Find(s, d, p) == Some(n)
    ensures Parts(s, d, p) == [s[p..n]] + Parts(s, d, n + |d|)
  {
  }

  lemma ShiftSome(s: string, off: nat, b: string, d: string, p: nat, n: nat)
    requires EndsIn(s, off, b) && d != "" && p <= |b|
    requires Find(b, d, p) == Some(n) && Find(s, d, off + p) == Some(off + n)
    requires Parts(s, d, off + (n + |d|)) == Parts(b, d, n + |d|)
    ensures Parts(s, d, off + p) == Parts(b, d, p)
  {
    PartsSome(b, d, p, n);
    PartsSome(s, d, off + p, off + n);
    SliceShift(s, off, b, p, n);
  }

  lemma ShiftNone(s: string, off: nat, b: string, d: string, p: nat)
    requires EndsIn(s, off, b) && d != "" && p <= |b|
    requires Find(b, d, p) == None && Find(s, d, off + p) == None
    ensures Parts(s, d, off + p) == Parts(b, d, p)
  {
    PartsStep(b, d, p);
    PartsStep(s, d, off + p);
    SliceShift(s, off, b, p, |b|);
    assert s[off + p..] == s[off + p..off + |b|] && b[p..] == b[p..|b|];
  }

  // ---------- the algebra ----------

  lemma {:induction false} JoinSnoc(v: seq<string>, x: string, sep: string)
    ensures Join(v + [x], sep) == if v == [] then x else Join(v, sep) + sep + x
  {
    if |v| > 1 {
      JoinSnoc(v[1..], x, sep);
      assert (v + [x])[1..] == v[1..] + [x];
      assert v[0] + sep + (Join(v[1..], sep) + sep + x) == v[0] + sep + Join(v[1..], sep) + sep + x;
    } else if |v| == 1 {
      assert (v + [x])[1..] == [x];
    }
  }

  lemma {:induction false} JoinParts(s: string, d: string, p: nat)
    requires d != "" && p <= |s|
    ensures Join(Parts(s, d, p), d) == s[p..]
    decreases |s| - p
  {
    var f := Find(s, d, p);
    FindsFirst(s, d, p, f);
    if f.Some? {
      var n := f.value;
      JoinParts(s, d, n + |d|);
      var tail := Parts(s, d, n + |d|);
      assert ([s[p..n]] + tail)[1..] == tail;
      assert s[p..] == s[p..n] + s[n..n + |d|] + s[n + |d|..];
    }
  }

  lemma {:induction false} JoinChars(s: string)
    ensures Join(Chars(s), "") == s
  {
    if s != "" {
      JoinChars(s[1..]);
      assert ([[s[0]]] + Chars(s[1..]))[1..] == Chars(s[1..]);
      assert s == [s[0]] + "" + s[1..];
    }
  }

  /** Joining what was split gives the text back, for every separator, empty or not. */
  lemma JoinSplit(s: string, d: string)
    ensures Join(Split(s, d), d) == s
  {
    if d == "" { JoinChars(s); } else { JoinParts(s, d, 0); }
  }

  lemma {:induction false} PartsClean(s: string, d: string, p: nat, k: nat)
    requires d != "" && p <= |s| && k < |Parts(s, d, p)|
    ensures !Contains(Parts(s, d, p)[k], d)
    ensures k < |Parts(s, d, p)| - 1 ==> Clean(Parts(s, d, p)[k], d)
    decreases |s| - p
  {
    PartsStep(s, d, p);
    if Find(s, d, p).None? {
      FindShift(s, p, s[p..], d, 0);
    } else if k > 0 {
      PartsClean(s, d, Find(s, d, p).value + |d|, k - 1);
    } else {
      FrontClean(s, d, p, Find(s, d, p).value);
    }
  }

  lemma FrontClean(s: string, d: string, p: nat, n: nat)
    requires d != "" && p <= |s| && Find(s, d, p) == Some(n)
    ensures Clean(s[p..n], d) && !Contains(s[p..n], d)
  {
    FindsFirst(s, d, p, Some(n));
    var part := s[p..n];
    assert part + s[n..n + |d|] == s[p..n + |d|];
    forall i: nat | i < |part| ensures !At(part + d, d, i) {
      assert !At(s, d, p + i);
      SliceOfSlice(s, p, n + |d| - p, i, i + |d|);
    }
    CleanContains(part, d);
  }

  // The first occurrence of d in the part followed by d is the d put behind it.
  predicate Clean(part: string, d: string) { forall i | 0 <= i < |part| :: !At(part + d, d, i) }

  lemma CleanContains(part: string, d: string)
    requires Clean(part, d) && d != ""
    ensures !Contains(part, d)
  {
    var f := Find(part, d, 0);
    FindsFirst(part, d, 0, f);
    if f.Some? {
      assert (part + d)[f.value..f.value + |d|] == part[f.value..f.value + |d|];
      assert At(part + d, d, f.value);
    }
  }

  /** No part of a split contains the separator. */
  lemma NoPartContains(s: string, d: string, k: nat)
    requires d != "" && k < |Split(s, d)|
    ensures !Contains(Split(s, d)[k], d)
  {
    PartsClean(s, d, 0, k);
  }

  predicate AllClean(v: seq<string>, d: string) { forall k | 0 <= k < |v| :: Clean(v[k], d) }

  /** Splitting what was joined gives the parts back exactly if no separator starts inside a
      part: neither within it nor running over into the separator behind it. */
  lemma {:induction false} SplitJoin(v: seq<string>, d: string)
    requires d != "" && v != []
    ensures Split(Join(v, d), d) == v <==> !Contains(v[|v| - 1], d) && AllClean(v[..|v| - 1], d)
    decreases |v|
  {
    if |v| == 1 {
      SplitOne(v, d);
    } else {
      var tail := v[1..];
      SplitJoin(tail, d);
      CleanCons(v, d);
      FirstPart(v[0], d, Join(tail, d));
      var parts := Split(Join(tail, d), d);
      assert v == [v[0]] + tail;
      if Clean(v[0], d) && parts != tail { assert ([v[0]] + parts)[1..] == parts && v[1..] == tail; }
    }
  }

  lemma SplitOne(v: seq<string>, d: string)
    requires d != "" && |v| == 1
    ensures Split(Join(v, d), d) == v <==> !Contains(v[0], d)
  {
    if Contains(v[0], d) {
      var n := Find(v[0], d, 0).value;
      assert |Parts(v[0], d, 0)| == 1 + |Parts(v[0], d, n + |d|)|;
    } else {
      assert v[0][0..] == v[0];
    }
  }

  lemma CleanCons(v: seq<string>, d: string)
    requires |v| > 1
    ensures AllClean(v[..|v| - 1], d) <==> Clean(v[0], d) && AllClean(v[1..][..|v| - 2], d)
    ensures v[1..][|v| - 2] == v[|v| - 1]
  {
    var front, back := v[..|v| - 1], v[1..][..|v| - 2];
    assert front[0] == v[0];
    assert forall k | 0 <= k < |back| :: back[k] == front[k + 1];
    assert forall k | 0 < k < |front| :: front[k] == back[k - 1];
  }

  lemma AtFront(a: string, b: string, d: string, i: nat)
    requires i + |d| <= |a|
    ensures At(a + b, d, i) <==> At(a, d, i)
  {
    assert (a + b)[i..i + |d|] == a[i..i + |d|];
  }

  lemma FirstPart(a: string, d: string, rest: string)
    requires d != ""
    ensures Clean(a, d) ==> Parts(a + d + rest, d, 0) == [a] + Parts(rest, d, 0)
    ensures !Clean(a, d) ==> |Parts(a + d + rest, d, 0)[0]| < |a|
  {
    FirstFound(a, d, rest);
    PartsStep(a + d + rest, d, 0);
    if Clean(a, d) {
      PartsShift(a + d + rest, |a + d|, rest, d, 0);
      assert (a + d + rest)[0..|a|] == a;
    }
  }

  lemma FirstFound(a: string, d: string, rest: string)
    requires d != ""
    ensures var f := Find(a + d + rest, d, 0);
      f.Some? && f.value <= |a| && (f.value == |a| <==> Clean(a, d))
  {
    var s := a + d + rest;
    FindsFirst(s, d, 0, Find(s, d, 0));
    AtFront(a + d, rest, d, |a|);
    assert (a + d)[|a|..|a| + |d|] == d;
    assert At(s, d, |a|);
    forall i: nat | i < |a| ensures At(s, d, i) <==> At(a + d, d, i) { AtFront(a + d, rest, d, i); }
  }

  /** For a separator of one character, that is: no part contains it. */
  lemma SplitJoinChar(v: seq<string>, c: char)
    requires v != []
    ensures Split(Join(v, [c]), [c]) == v <==> NoneHas(v, c)
  {
    SplitJoin(v, [c]);
    OneChar(v[|v| - 1], c);
    NoneHasSnoc(v, c);
  }

  predicate NoneHas(v: seq<string>, c: char) { forall k | 0 <= k < |v| :: c !in v[k] }

  lemma NoneHasSnoc(v: seq<string>, c: char)
    requires v != []
    ensures NoneHas(v, c) <==> AllClean(v[..|v| - 1], [c]) && c !in v[|v| - 1]
  {
    var front := v[..|v| - 1];
    forall k | 0 <= k < |front| ensures Clean(front[k], [c]) <==> c !in v[k] { OneChar(front[k], c); }
  }

  lemma OneChar(part: string, c: char)
    ensures Clean(part, [c]) <==> c !in part
    ensures !Contains(part, [c]) <==> c !in part
  {
    FindsFirst(part, [c], 0, Find(part, [c], 0));
    forall i: nat | i < |part|
      ensures (At(part, [c], i) <==> part[i] == c) && (At(part + [c], [c], i) <==> part[i] == c)
    {
      assert part[i..i + 1] == [part[i]] && (part + [c])[i..i + 1] == [part[i]];
    }
  }

  // ---------- counting ----------

  function Count(s: string, sub: string): nat { if sub == "" then 0 else |Split(s, sub)| - 1 }

  /** The count is one less than the number of parts, unless the separator is empty and the
      text is not a single character. */
  lemma CountParts(s: string, sub: string)
    ensures Count(s, sub) == |Split(s, sub)| - 1 <==> sub != "" || |s| == 1
  {
    if sub == "" { CharsSize(s); }
  }

  lemma {:induction false} CharsSize(s: string)
    ensures |Chars(s)| == |s|
  {
    if s != "" { CharsSize(s[1..]); }
  }

  // Occurrences of d, in order and without overlap.
  predicate Disjoint(s: string, d: string, ps: seq<nat>) {
    (forall i | 0 <= i < |ps| :: At(s, d, ps[i])) && forall i, j | 0 <= i < j < |ps| :: ps[i] + |d| <= ps[j]
  }

  /** Taking the leftmost occurrence each time counts as many as any choice can. */
  lemma CountIsGreatest(s: string, d: string, ps: seq<nat>)
    requires d != "" && Disjoint(s, d, ps)
    ensures |ps| <= Count(s, d)
  {
    Greedy(s, d, 0, ps);
  }

  lemma {:induction false} Greedy(s: string, d: string, p: nat, ps: seq<nat>)
    requires d != "" && p <= |s| && Disjoint(s, d, ps) && (ps != [] ==> p <= ps[0])
    ensures |ps| < |Parts(s, d, p)|
    decreases |ps|
  {
    if ps != [] {
      assert At(s, d, ps[0]);
      FindsFirst(s, d, p, Find(s, d, p));
      var n := Find(s, d, p).value;
      DisjointTail(s, d, ps);
      Greedy(s, d, n + |d|, ps[1..]);
      PartsStep(s, d, p);
    }
  }

  lemma DisjointTail(s: string, d: string, ps: seq<nat>)
    requires Disjoint(s, d, ps) && ps != []
    ensures Disjoint(s, d, ps[1..]) && (|ps| > 1 ==> ps[0] + |d| <= ps[1..][0])
  {
    var tail := ps[1..];
    assert forall i | 0 <= i < |tail| :: tail[i] == ps[i + 1];
  }

  // ---------- replacing ----------

  function Replace(s: string, f: string, t: string): string
    requires f != ""
  {
    Join(Split(s, f), t)
  }

  function Total(v: seq<string>): nat { if v == [] then 0 else |v[0]| + Total(v[1..]) }

  lemma {:induction false} JoinSize(v: seq<string>, sep: string)
    requires v != []
    ensures |Join(v, sep)| == Total(v) + (|v| - 1) * |sep|
  {
    if |v| > 1 { JoinSize(v[1..], sep); }
  }

  /** Each occurrence changes the length by the same amount. */
  lemma ReplaceSize(s: string, f: string, t: string)
    requires f != ""
    ensures |Replace(s, f, t)| + Count(s, f) * |f| == |s| + Count(s, f) * |t|
  {
    JoinSplit(s, f);
    JoinSize(Split(s, f), f);
    JoinSize(Split(s, f), t);
  }

  /** Replacing back restores the text if the new text cannot be found elsewhere. */
  lemma ReplaceBack(s: string, f: string, t: string)
    requires f != "" && t != ""
    requires var v := Split(s, f); !Contains(v[|v| - 1], t) && AllClean(v[..|v| - 1], t)
    ensures Replace(Replace(s, f, t), t, f) == s
  {
    SplitJoin(Split(s, f), t);
    JoinSplit(s, f);
  }

  // The loop's state after k rounds, as long as the search succeeds.
  function Rounds(r: string, p: nat, f: string, t: string, k: nat): (string, nat)
    requires p <= |r|
    decreases k
  {
    match Find(r, f, p)
    case None => (r, p)
    case Some(n) => if k == 0 then (r, p) else Rounds(r[..n] + t + r[n + |f|..], n + |t|, f, t, k - 1)
  }

  predicate Done(r: string, p: nat, f: string, t: string, k: nat)
    requires p <= |r|
  {
    var (r1, p1) := Rounds(r, p, f, t, k);
    Find(r1, f, p1).None?
  }

  ghost predicate Stops(r: string, p: nat, f: string, t: string)
    requires p <= |r|
  {
    exists k: nat :: Done(r, p, f, t, k)
  }

  /** Replacing ends exactly if the text looked for is not empty. */
  lemma ReplaceStopsIff(s: string, f: string, t: string)
    ensures Stops(s, 0, f, t) <==> f != ""
  {
    if f == "" {
      forall k: nat ensures !Done(s, 0, f, t, k) { EmptyGoesOn(s, 0, t, k); }
    } else {
      WillStop(s, 0, f, t);
    }
  }

  lemma {:induction false} EmptyGoesOn(r: string, p: nat, t: string, k: nat)
    requires p <= |r|
    ensures !Done(r, p, "", t, k)
    decreases k
  {
    assert r[p..p] == "";
    assert At(r, "", p);
    if k > 0 { EmptyGoesOn(r[..p] + t + r[p..], p + |t|, t, k - 1); }
  }

  lemma {:induction false} WillStop(r: string, p: nat, f: string, t: string)
    requires p <= |r| && f != ""
    ensures Stops(r, p, f, t)
    decreases |r| - p
  {
    var f1 := Find(r, f, p);
    if f1.None? {
      assert Done(r, p, f, t, 0);
    } else {
      var n := f1.value;
      var r1 := r[..n] + t + r[n + |f|..];
      WillStop(r1, n + |t|, f, t);
      var k: nat :| Done(r1, n + |t|, f, t, k);
      OneMore(r, p, f, t, n, k);
    }
  }

  lemma OneMore(r: string, p: nat, f: string, t: string, n: nat, k: nat)
    requires p <= |r| && Find(r, f, p) == Some(n) && Done(r[..n] + t + r[n + |f|..], n + |t|, f, t, k)
    ensures Done(r, p, f, t, k + 1)
  {
  }
}
