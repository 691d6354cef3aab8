/** Every well-grouped tree is what the parser builds from its tokens. */
module PrattComplete {
  import opened Ast
  import opened Options
  import opened Seqs
  import opened Pratt

  // Tokens that can begin an expression.
  ghost predicate Begins(t: Tok) {
    t.INT? || t.ID? || t.LPAREN? || t.TRY? || t.ERR? || (exists p: Prefix :: t == PrefixTok(p))
  }

  lemma {:induction false} FirstTok(g: Grammar, t: Cst)
    requires WellGrouped(g, t)
    ensures Yield(t) != [] && Begins(Yield(t)[0])
  {
    match t
    case CPre(p, _) => assert Begins(PrefixTok(p));
    case CBin(_, l, _) => FirstTok(g, l);
    case CAsg(_, l, _) => FirstTok(g, l);
    case CFld(l, _) => FirstTok(g, l);
    case CPtr(l, _) => FirstTok(g, l);
    case CSub(l, _) => FirstTok(g, l);
    case CDeref(l, _) => FirstTok(g, l);
    case CCall(l, _, _) => FirstTok(g, l);
    case CElse(l, _) => FirstTok(g, l);
    case CCatch(l, x, _, _) => FirstTok(g, l); if x.Some? {}
    case _ =>
  }

  lemma BeginsNot(t: Tok)
    requires Begins(t)
    ensures t != OP(BitOr) && !t.BLOCK? && t != RPAREN && t != COMMA && t != NEWLINE
  {
    if !t.INT? && !t.ID? && !t.LPAREN? && !t.TRY? && !t.ERR? {
      var p: Prefix :| t == PrefixTok(p);
    }
  }

  lemma {:induction false} EdgeOpen(g: Grammar, t: Cst)
    requires Sensible(g) && WellGrouped(g, t) && LeftMin(g, t) >= 0
    ensures RightMin(g, t) >= 0
  {
    match t
    case CBin(op, _, r) => assert SaneTok(g, OP(op)); EdgeOpen(g, r);
    case CAsg(op, _, r) => assert SaneTok(g, ASG(op)); EdgeOpen(g, r);
    case CElse(_, r) => EdgeOpen(g, r);
    case CPre(_, r) => EdgeOpen(g, r);
    case CTry(r) => EdgeOpen(g, r);
    case _ =>
  }

  // A closing token ends any expression.
  lemma Closes(g: Grammar, t: Cst, rest: seq<Tok>)
    requires Sensible(g) && WellGrouped(g, t) && LeftMin(g, t) >= 0
    requires rest != [] && (rest[0].RPAREN? || rest[0].RBRACKET? || rest[0].COMMA?)
    ensures Stops(g, t, rest, 0)
  {
    assert SaneTok(g, rest[0]);
    EdgeOpen(g, t);
  }

  ghost predicate Reached(g: Grammar, t: Cst, rest: seq<Tok>, m: int) {
    ParseBp(g, Yield(t) + rest, m) == ParseLed(g, t, rest, m, true)
  }

  lemma LedOnce(g: Grammar, left: Cst, ts: seq<Tok>, m: int, t: Cst, rest: seq<Tok>)
    requires ts != [] && Lbp(g, ts) >= m && LedStep(g, left, ts) == Parsed(t, rest, true)
    ensures ParseLed(g, left, ts, m, true) == ParseLed(g, t, rest, m, true)
  {}

  // One infix or postfix turn, read backwards.
  lemma Turn(g: Grammar, left: Cst, op: seq<Tok>, t: Cst, rest: seq<Tok>, m: int)
    requires op != [] && Lbp(g, op) >= m
    requires Reached(g, left, op + rest, m)
    requires LedStep(g, left, op + rest) == Parsed(t, rest, true)
    requires Yield(t) == Yield(left) + op
    ensures Reached(g, t, rest, m)
  {
    var ts := op + rest;
    assert ts[0] == op[0];
    LedOnce(g, left, ts, m, t, rest);
    Glue(Yield(left), op, rest);
  }

  lemma Glue(a: seq<Tok>, b: seq<Tok>, c: seq<Tok>)
    ensures a + (b + c) == (a + b) + c
  {}

  lemma {:induction false} Reaches(g: Grammar, t: Cst, rest: seq<Tok>, m: int)
    requires Sensible(g) && WellGrouped(g, t) && LeftMin(g, t) >= m && Open(g, t, rest)
    ensures Reached(g, t, rest, m)
    decreases t, 1
  {
    match t
    case CBin(_, _, _) => ReachBin(g, t, rest, m);
    case CAsg(_, _, _) => ReachBin(g, t, rest, m);
    case CElse(_, _) => ReachElse(g, t, rest, m);
    case CCatch(_, _, _, _) => ReachCatch(g, t, rest, m);
    case CFld(_, _) => ReachPost(g, t, rest, m);
    case CPtr(_, _) => ReachPost(g, t, rest, m);
    case CDeref(_, _) => ReachPost(g, t, rest, m);
    case CSub(_, _) => ReachSub(g, t, rest, m);
    case CCall(_, _, _) => ReachCall(g, t, rest, m);
    case CPre(_, _) => ReachPre(g, t, rest, m);
    case CTry(_) => ReachPre(g, t, rest, m);
    case CGroup(_) => ReachGroup(g, t, rest, m);
    case CTuple(_) => ReachTuple(g, t, rest, m);
    case _ => ReachLeaf(g, t, rest, m);
  }

  lemma {:induction false} Complete(g: Grammar, t: Cst, rest: seq<Tok>, m: int)
    requires Sensible(g) && WellGrouped(g, t) && LeftMin(g, t) >= m && Stops(g, t, rest, m)
    ensures ParseBp(g, Yield(t) + rest, m) == Parsed(t, rest, true)
    decreases t, 2
  {
    Reaches(g, t, rest, m);
  }

  lemma Started(g: Grammar, t: Cst, rest: seq<Tok>, m: int)
    requires ParseNud(g, Yield(t) + rest) == Parsed(t, rest, true) && !t.CBad?
    ensures Reached(g, t, rest, m)
  {}

  lemma ReachLeaf(g: Grammar, t: Cst, rest: seq<Tok>, m: int)
    requires Sensible(g) && (t.CInt? || t.CId? || t.CErr?)
    ensures Reached(g, t, rest, m)
  {
    var ts := Yield(t) + rest;
    assert SaneTok(g, ts[0]);
    assert ts[|Yield(t)|..] == rest;
    if t.CErr? { assert ts[1..][1..][1..] == rest; }
    Started(g, t, rest, m);
  }

  lemma {:induction false} ReachPre(g: Grammar, t: Cst, rest: seq<Tok>, m: int)
    requires Sensible(g) && (t.CPre? || t.CTry?) && WellGrouped(g, t) && Open(g, t, rest)
    ensures Reached(g, t, rest, m)
    decreases t, 0
  {
    Complete(g, t.inner, rest, PREFIX);
    var head := if t.CPre? then PrefixTok(t.prefix) else TRY;
    assert SaneTok(g, head);
    PreNud(g, t, head, Yield(t.inner) + rest, rest);
    Glue([head], Yield(t.inner), rest);
    Started(g, t, rest, m);
  }

  lemma PreNud(g: Grammar, t: Cst, head: Tok, ts: seq<Tok>, rest: seq<Tok>)
    requires if t.CPre? then g.prefix(head) == Some(t.prefix) else t.CTry? && head == TRY && g.prefix(TRY).None?
    requires ParseBp(g, ts, PREFIX) == Parsed(t.inner, rest, true)
    ensures ParseNud(g, [head] + ts) == Parsed(t, rest, true)
  {
    assert ([head] + ts)[1..] == ts;
  }

  lemma {:induction false} ReachGroup(g: Grammar, t: Cst, rest: seq<Tok>, m: int)
    requires Sensible(g) && t.CGroup? && WellGrouped(g, t)
    ensures Reached(g, t, rest, m)
    decreases t, 0
  {
    var close := [RPAREN] + rest;
    Closes(g, t.inner, close);
    Complete(g, t.inner, close, 0);
    var ts := Yield(t) + rest;
    assert SaneTok(g, ts[0]);
    assert ts[1..] == Yield(t.inner) + close;
    assert Next(close) == rest;
    Started(g, t, rest, m);
  }

  lemma {:induction false} ElemsComplete(g: Grammar, es: seq<Cst>, rest: seq<Tok>)
    requires Sensible(g) && WellGroupedList(g, es)
    requires At(rest, RPAREN)
    ensures ParseElems(g, ElemsYield(es) + rest) == ParsedList(es, false, rest, true)
    decreases es, 3
  {
    if es == [] {
      assert ElemsYield(es) + rest == rest;
    } else {
      var more := ElemsYield(es[1..]) + rest;
      assert ElemsYield(es) + rest == [COMMA] + (Yield(es[0]) + more);
      Closes(g, es[0], more);
      Complete(g, es[0], more, 0);
      ElemsComplete(g, es[1..], rest);
      assert [es[0]] + es[1..] == es;
    }
  }

  lemma {:induction false} ReachTuple(g: Grammar, t: Cst, rest: seq<Tok>, m: int)
    requires Sensible(g) && t.CTuple? && WellGrouped(g, t)
    ensures Reached(g, t, rest, m)
    decreases t, 0
  {
    var e, es := t.elems[0], t.elems[1..];
    HeadTail(t.elems);
    var close := [RPAREN] + rest;
    var more := ElemsYield(es) + close;
    TupleToks(t, e, es, rest);
    assert At(more, COMMA);
    Closes(g, e, more);
    Complete(g, e, more, 0);
    ElemsComplete(g, es, close);
    TupleNud(g, t, e, es, rest);
    Started(g, t, rest, m);
  }

  lemma TupleNud(g: Grammar, t: Cst, e: Cst, es: seq<Cst>, rest: seq<Tok>)
    requires Sensible(g) && t == CTuple([e] + es)
    requires var close := [RPAREN] + rest;
      var more := ElemsYield(es) + close;
      && At(more, COMMA) && Yield(t) + rest == [LPAREN] + (Yield(e) + more)
      && ParseBp(g, Yield(e) + more, 0) == Parsed(e, more, true)
      && ParseElems(g, more) == ParsedList(es, false, close, true)
    ensures ParseNud(g, Yield(t) + rest) == Parsed(t, rest, true)
  {
    var ts := Yield(t) + rest;
    assert SaneTok(g, ts[0]);
    ConsTail(LPAREN, Yield(e) + (ElemsYield(es) + ([RPAREN] + rest)));
    ConsTail(RPAREN, rest);
  }

  lemma TupleToks(t: Cst, e: Cst, es: seq<Cst>, rest: seq<Tok>)
    requires t.CTuple? && t.elems == [e] + es
    ensures Yield(t) + rest == [LPAREN] + (Yield(e) + (ElemsYield(es) + ([RPAREN] + rest)))
  {
    TupleYield(e, es);
    Join4([LPAREN], Yield(e), ElemsYield(es), [RPAREN], rest);
  }

  lemma {:induction false} ReachBin(g: Grammar, t: Cst, rest: seq<Tok>, m: int)
    requires Sensible(g) && (t.CBin? || t.CAsg?) && WellGrouped(g, t) && LeftMin(g, t) >= m && Open(g, t, rest)
    ensures Reached(g, t, rest, m)
    decreases t, 0
  {
    var op := if t.CBin? then OP(t.op) else ASG(t.asg);
    var ts := [op] + Yield(t.right);
    Assoc([op], Yield(t.right), rest);
    Reaches(g, t.left, ts + rest, m);
    Complete(g, t.right, rest, g.bp(op).rbp);
    ConsTail(op, Yield(t.right) + rest);
    Assoc(Yield(t.left), [op], Yield(t.right));
    Turn(g, t.left, ts, t, rest, m);
  }

  lemma {:induction false} ReachElse(g: Grammar, t: Cst, rest: seq<Tok>, m: int)
    requires Sensible(g) && t.CElse? && WellGrouped(g, t) && LeftMin(g, t) >= m && Open(g, t, rest)
    ensures Reached(g, t, rest, m)
    decreases t, 0
  {
    var ts := [CATCH] + Yield(t.fallback);
    Assoc([CATCH], Yield(t.fallback), rest);
    Reaches(g, t.target, ts + rest, m);
    Complete(g, t.fallback, rest, 13);
    ConsTail(CATCH, Yield(t.fallback) + rest);
    FirstTok(g, t.fallback);
    BeginsNot(Yield(t.fallback)[0]);
    Assoc(Yield(t.target), [CATCH], Yield(t.fallback));
    Turn(g, t.target, ts, t, rest, m);
  }

  lemma {:induction false} SkipAll(n: nat, ts: seq<Tok>)
    requires !At(ts, NEWLINE)
    ensures SkipNewlines(Newlines(n) + ts) == ts
  {
    if n == 0 {
      assert Newlines(0) + ts == ts;
    } else {
      assert Newlines(n) + ts == [NEWLINE] + (Newlines(n - 1) + ts);
      SkipAll(n - 1, ts);
    }
  }

  function CatchToks(t: Cst): seq<Tok>
    requires t.CCatch?
  {
    match t.errVar
    case None => [CATCH, BLOCK(t.body)]
    case Some(x) => [CATCH, OP(BitOr), ID(x), OP(BitOr)] + Newlines(t.newlines) + [BLOCK(t.body)]
  }

  lemma CatchStep(g: Grammar, t: Cst, rest: seq<Tok>)
    requires t.CCatch? && (t.errVar.None? ==> t.newlines == 0)
    ensures LedStep(g, t.target, CatchToks(t) + rest) == Parsed(t, rest, true)
  {
    var ts := CatchToks(t) + rest;
    if t.errVar.None? {
      assert ts[1..][1..] == rest;
      assert ts[1..][0] == BLOCK(t.body);
    } else {
      CatchVarStep(g, t, t.errVar.value, rest);
    }
  }

  lemma CatchVarStep(g: Grammar, t: Cst, x: string, rest: seq<Tok>)
    requires t.CCatch? && t.errVar == Some(x)
    ensures LedStep(g, t.target, CatchToks(t) + rest) == Parsed(t, rest, true)
  {
    var tail := [BLOCK(t.body)] + rest;
    var t4 := Newlines(t.newlines) + tail;
    var t3 := [OP(BitOr)] + t4;
    var t2 := [ID(x)] + t3;
    var t1 := [OP(BitOr)] + t2;
    var ts := [CATCH] + t1;
    assert CatchToks(t) + rest == ts;
    assert ts[1..] == t1 && t1[1..] == t2 && Next(t2) == t3 && Next(t3) == t4;
    SkipAll(t.newlines, tail);
    assert Next(tail) == rest && |t4| - |tail| == t.newlines;
  }

  lemma {:induction false} ReachCatch(g: Grammar, t: Cst, rest: seq<Tok>, m: int)
    requires Sensible(g) && t.CCatch? && WellGrouped(g, t) && LeftMin(g, t) >= m
    ensures Reached(g, t, rest, m)
    decreases t, 0
  {
    var ts := CatchToks(t);
    assert (ts + rest)[0] == CATCH;
    Reaches(g, t.target, ts + rest, m);
    CatchStep(g, t, rest);
    if t.errVar.Some? {
      var open := [CATCH, OP(BitOr), ID(t.errVar.value), OP(BitOr)];
      assert Yield(t) == Yield(t.target) + open + Newlines(t.newlines) + [BLOCK(t.body)];
    }
    assert Yield(t) == Yield(t.target) + ts;
    Turn(g, t.target, ts, t, rest, m);
  }

  function PostToks(t: Cst): seq<Tok>
    requires t.CFld? || t.CPtr? || t.CDeref?
  {
    if t.CFld? then [DOT, ID(t.field)] else if t.CPtr? then [ARROW, ID(t.field)] else DerefToks(t.form)
  }

  lemma {:induction false} ReachPost(g: Grammar, t: Cst, rest: seq<Tok>, m: int)
    requires Sensible(g) && (t.CFld? || t.CPtr? || t.CDeref?) && WellGrouped(g, t) && LeftMin(g, t) >= m
    ensures Reached(g, t, rest, m)
    decreases t, 0
  {
    var ts := PostToks(t);
    Reaches(g, t.target, ts + rest, m);
    assert (ts + rest)[|ts|..] == rest;
    if |ts| == 2 { assert (ts + rest)[1..][1..] == rest; }
    assert LedStep(g, t.target, ts + rest) == Parsed(t, rest, true);
    assert Yield(t) == Yield(t.target) + ts;
    Turn(g, t.target, ts, t, rest, m);
  }

  lemma {:induction false} ReachSub(g: Grammar, t: Cst, rest: seq<Tok>, m: int)
    requires Sensible(g) && t.CSub? && WellGrouped(g, t) && LeftMin(g, t) >= m
    ensures Reached(g, t, rest, m)
    decreases t, 0
  {
    var ts := [LBRACKET] + Yield(t.index) + [RBRACKET];
    var close := [RBRACKET] + rest;
    assert ts + rest == [LBRACKET] + (Yield(t.index) + close);
    Reaches(g, t.target, ts + rest, m);
    Closes(g, t.index, close);
    Complete(g, t.index, close, 0);
    SubStep(g, t, Yield(t.index) + close, rest);
    SubToks(t);
    Turn(g, t.target, ts, t, rest, m);
  }

  lemma SubStep(g: Grammar, t: Cst, ts: seq<Tok>, rest: seq<Tok>)
    requires t.CSub? && ParseBp(g, ts, 0) == Parsed(t.index, [RBRACKET] + rest, true)
    ensures LedStep(g, t.target, [LBRACKET] + ts) == Parsed(t, rest, true)
  {
    assert ([LBRACKET] + ts)[1..] == ts;
    assert Next([RBRACKET] + rest) == rest;
  }

  lemma SubToks(t: Cst)
    requires t.CSub?
    ensures Yield(t) == Yield(t.target) + ([LBRACKET] + Yield(t.index) + [RBRACKET])
  {}

  lemma {:induction false} ArgsComplete(g: Grammar, es: seq<Cst>, trailing: bool, rest: seq<Tok>)
    requires Sensible(g) && WellGroupedList(g, es) && (trailing ==> es != [])
    requires At(rest, RPAREN)
    ensures ParseArgs(g, ArgsYield(es, trailing) + rest) == ParsedList(es, trailing, rest, true)
    decreases es, 3
  {
    if es == [] {
      assert ArgsYield(es, trailing) + rest == rest;
    } else {
      var e := es[0];
      assert [e] + es[1..] == es;
      FirstTok(g, e);
      BeginsNot(Yield(e)[0]);
      if |es| == 1 && !trailing {
        assert ArgsYield(es, trailing) + rest == Yield(e) + rest;
        Closes(g, e, rest);
        Complete(g, e, rest, 0);
      } else {
        var tl := trailing && |es| > 1;
        var more := [COMMA] + (ArgsYield(es[1..], tl) + rest);
        ArgsJoin(e, es[1..], tl, rest);
        assert ArgsYield(es, trailing) + rest == Yield(e) + more;
        Closes(g, e, more);
        Complete(g, e, more, 0);
        ArgsComplete(g, es[1..], tl, rest);
        assert more[1..] == ArgsYield(es[1..], tl) + rest;
      }
    }
  }

  lemma {:induction false} ReachCall(g: Grammar, t: Cst, rest: seq<Tok>, m: int)
    requires Sensible(g) && t.CCall? && WellGrouped(g, t) && LeftMin(g, t) >= m
    ensures Reached(g, t, rest, m)
    decreases t, 0
  {
    var ts := [LPAREN] + ArgsYield(t.args, t.trailing) + [RPAREN];
    var close := [RPAREN] + rest;
    assert ts + rest == [LPAREN] + (ArgsYield(t.args, t.trailing) + close);
    Reaches(g, t.target, ts + rest, m);
    ArgsComplete(g, t.args, t.trailing, close);
    assert (ts + rest)[1..] == ArgsYield(t.args, t.trailing) + close;
    assert Next(close) == rest;
    CallToks(t);
    Turn(g, t.target, ts, t, rest, m);
  }

  lemma CallToks(t: Cst)
    requires t.CCall?
    ensures Yield(t) == Yield(t.target) + ([LPAREN] + ArgsYield(t.args, t.trailing) + [RPAREN])
  {}

  // ---------- consequences ----------

  /** The token list of a well-grouped tree belongs to no other well-grouped tree. */
  lemma Unambiguous(g: Grammar, t: Cst, u: Cst)
    requires Sensible(g) && WellGrouped(g, t) && WellGrouped(g, u)
    requires LeftMin(g, t) >= 0 && LeftMin(g, u) >= 0 && Yield(t) == Yield(u)
    ensures t == u
  {
    Complete(g, t, [], 0);
    Complete(g, u, [], 0);
    assert Yield(t) + [] == Yield(u) + [];
  }

  /** The parser accepts a token list exactly if it begins with the tokens of a
      well-grouped tree of the demanded strength that can stop there. */
  lemma ParseExact(g: Grammar, ts: seq<Tok>, m: int, t: Cst, rest: seq<Tok>)
    requires Sensible(g) && 0 <= m <= CLOSED
    ensures ParseBp(g, ts, m) == Parsed(t, rest, true) <==>
      (ts == Yield(t) + rest && WellGrouped(g, t) && LeftMin(g, t) >= m && Stops(g, t, rest, m))
  {
    ParseSound(g, ts, m);
    if ts == Yield(t) + rest && WellGrouped(g, t) && LeftMin(g, t) >= m && Stops(g, t, rest, m) {
      Complete(g, t, rest, m);
    }
  }
}
