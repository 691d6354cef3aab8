/** The parser as it works: a window of two tokens that slides over the lexer's output, a
    loop that rebuilds its left operand, and an error flag.  On every token list, well
    formed or not, it terminates and does what the function ParseBp says. */
module PrattParser {
  import opened Ast
  import opened Options
  import opened Pratt
  import opened Printer
  import opened Seqs

  class Parser {
    var cur: Option<Tok>       // None is the end of the input
    var peek: Option<Tok>
    var lexer: seq<Tok>        // what the lexer has not handed out yet
    var hadError: bool

    // The lexer returns the end of the input again and again once it is reached.
    predicate Valid()
      reads this
    {
      (cur.None? ==> peek.None?) && (peek.None? ==> lexer == [])
    }

    function Rest(): seq<Tok>
      reads this
    {
      if cur.None? then [] else if peek.None? then [cur.value] else [cur.value, peek.value] + lexer
    }

    constructor (tokens: seq<Tok>)
      ensures Valid() && Rest() == tokens && !hadError
    {
      hadError := false;
      cur := if |tokens| > 0 then Some(tokens[0]) else None;
      peek := if |tokens| > 1 then Some(tokens[1]) else None;
      lexer := if |tokens| > 1 then tokens[2..] else [];
    }

    method NextTok() returns (prev: Option<Tok>)
      requires Valid()
      modifies `cur, `peek, `lexer
      ensures Valid() && prev == old(cur) && Rest() == Next(old(Rest()))
    {
      prev := cur;
      cur := peek;
      if lexer == [] {
        peek := None;
      } else {
        peek := Some(lexer[0]);
        lexer := lexer[1..];
      }
    }

    predicate Check(t: Tok)
      requires Valid()
      reads this
      ensures Check(t) == At(Rest(), t)
    {
      cur == Some(t)
    }

    method Match(t: Tok) returns (b: bool)
      requires Valid()
      modifies `cur, `peek, `lexer
      ensures Valid() && b == At(old(Rest()), t) && Rest() == if b then old(Rest())[1..] else old(Rest())
    {
      b := Check(t);
      if b { var _ := NextTok(); }
    }

    method Expect(t: Tok)
      requires Valid()
      modifies this
      ensures Valid() && Rest() == Next(old(Rest())) && hadError == (old(hadError) || !At(old(Rest()), t))
    {
      if !Check(t) { hadError := true; }
      var _ := NextTok();
    }

    method ExpectIdent() returns (name: string)
      requires Valid()
      modifies this
      ensures Valid() && Rest() == Next(old(Rest())) && name == NameAt(old(Rest()))
      ensures hadError == (old(hadError) || !IdAt(old(Rest())))
    {
      name := "?";
      if cur.Some? && cur.value.ID? { name := cur.value.name; } else { hadError := true; }
      var _ := NextTok();
    }

    ghost predicate Did(r: Parsed, t: Cst, before: bool)
      reads this
    {
      Valid() && t == r.tree && Rest() == r.rest && hadError == (before || !r.ok)
    }

    method ParseExprBp(minBp: int) returns (t: Cst)
      requires Valid() && minBp >= 0
      modifies this
      ensures Did(ParseBp(Oleren(), old(Rest()), minBp), t, old(hadError))
      decreases |Rest()|, 2
    {
      ghost var n := ParseNud(Oleren(), Rest());
      ghost var before := hadError;
      t := ParsePrefix();
      if t.CBad? { return; }
      ghost var ok := n.ok;
      while true
        invariant Valid() && !t.CBad? && hadError == (before || !ok) && |Rest()| <= |n.rest|
        invariant ParseLed(Oleren(), n.tree, n.rest, minBp, n.ok) == ParseLed(Oleren(), t, Rest(), minBp, ok)
        decreases |Rest()|
      {
        if cur.None? || InfixBp(cur.value).lbp < minBp { break; }
        ghost var s := LedStep(Oleren(), t, Rest());
        StepIsTree(Oleren(), t, Rest());
        t := ParseTurn(t);
        ok := ok && s.ok;
      }
    }

    method ParsePrefix() returns (t: Cst)
      requires Valid()
      modifies this
      ensures Did(ParseNud(Oleren(), old(Rest())), t, old(hadError))
      decreases |Rest()|, 1
    {
      if Check(LPAREN) {
        t := ParseParen();
      } else if cur.Some? && PrefixOp(cur.value).Some? {
        var op := PrefixOp(cur.value).value;
        var _ := NextTok();
        var c := ParseExprBp(PREFIX);
        t := CPre(op, c);
      } else if cur.Some? && cur.value.INT? {
        t := CInt(cur.value.n);
        var _ := NextTok();
      } else if cur.Some? && cur.value.ID? {
        t := CId(cur.value.name);
        var _ := NextTok();
      } else if Check(TRY) {
        var _ := NextTok();
        var c := ParseExprBp(PREFIX);
        t := CTry(c);
      } else if Check(ERR) {
        var _ := NextTok();
        Expect(DOT);
        var v := ExpectIdent();
        t := CErr(v);
      } else {
        hadError := true;
        var _ := NextTok();
        t := CBad;
      }
    }

    // ( e )  or  ( e , e ... )
    method ParseParen() returns (t: Cst)
      requires Valid() && At(Rest(), LPAREN)
      modifies this
      ensures Did(ParseNud(Oleren(), old(Rest())), t, old(hadError))
      decreases |Rest()|, 0
    {
      var _ := NextTok();
      t := ParseExprBp(0);
      if Check(COMMA) {
        var es := ParseElemList();
        t := CTuple([t] + es);
      } else {
        t := CGroup(t);
      }
      Expect(RPAREN);
    }

    method ParseElemList() returns (es: seq<Cst>)
      requires Valid()
      modifies this
      ensures var l := ParseElems(Oleren(), old(Rest()));
        Valid() && es == l.trees && Rest() == l.rest && hadError == (old(hadError) || !l.ok)
      decreases |Rest()|, 3
    {
      es := [];
      ghost var all, before, ok, start := ParseElems(Oleren(), Rest()), hadError, true, |Rest()|;
      while true
        invariant Valid() && |Rest()| <= start && hadError == (before || !ok)
        invariant var l := ParseElems(Oleren(), Rest());
          all.trees == es + l.trees && all.rest == l.rest && all.ok == (ok && l.ok)
        decreases |Rest()|
      {
        ghost var l := ParseElems(Oleren(), Rest());
        var more := Match(COMMA);
        if !more { break; }
        ghost var q := ParseBp(Oleren(), Rest(), 0);
        var e := ParseExprBp(0);
        ghost var tail := ParseElems(Oleren(), Rest());
        assert l.trees == [e] + tail.trees;
        assert es + l.trees == (es + [e]) + tail.trees;
        es := es + [e];
        ok := ok && q.ok;
      }
    }

    // One turn of the loop: the operator at hand and what belongs to it.
    method ParseTurn(left: Cst) returns (t: Cst)
      requires Valid() && Rest() != [] && InfixBp(Rest()[0]).lbp >= 0
      modifies this
      ensures Did(LedStep(Oleren(), left, old(Rest())), t, old(hadError))
      decreases |Rest()|, 0
    {
      assert !cur.value.NEWLINE? && !cur.value.CAST?;
      if Check(LPAREN) {
        t := TurnCall(left);
      } else if Check(LBRACKET) {
        t := TurnSubscript(left);
      } else if Check(CATCH) {
        t := TurnCatch(left);
      } else if Check(DOT) || Check(ARROW) || Check(DOTDEREF) {
        t := TurnField(left);
      } else {
        t := TurnBinary(left);
      }
    }

    method TurnCall(left: Cst) returns (t: Cst)
      requires Valid() && At(Rest(), LPAREN)
      modifies this
      ensures Did(LedStep(Oleren(), left, old(Rest())), t, old(hadError))
      decreases |Rest()|, -1
    {
      var _ := NextTok();
      var args, trailing := ParseArgList();
      Expect(RPAREN);
      t := CCall(left, args, trailing);
    }

    method TurnCatch(left: Cst) returns (t: Cst)
      requires Valid() && At(Rest(), CATCH)
      modifies this
      ensures Did(LedStep(Oleren(), left, old(Rest())), t, old(hadError))
      decreases |Rest()|, -1
    {
      assert Rest() == [CATCH] + Rest()[1..];
      var _ := NextTok();
      t := ParseCatch(left);
    }

    method TurnSubscript(left: Cst) returns (t: Cst)
      requires Valid() && At(Rest(), LBRACKET)
      modifies this
      ensures Did(LedStep(Oleren(), left, old(Rest())), t, old(hadError))
      decreases |Rest()|, -1
    {
      var _ := NextTok();
      var i := ParseExprBp(0);
      Expect(RBRACKET);
      t := CSub(left, i);
    }

    method TurnField(left: Cst) returns (t: Cst)
      requires Valid() && (At(Rest(), DOT) || At(Rest(), ARROW) || At(Rest(), DOTDEREF))
      modifies this
      ensures Did(LedStep(Oleren(), left, old(Rest())), t, old(hadError))
    {
      if Check(DOT) {
        t := TurnDot(left);
      } else if Check(DOTDEREF) {
        var _ := NextTok();
        t := CDeref(left, OneToken);
      } else {
        var _ := NextTok();
        var f := ExpectIdent();
        t := CPtr(left, f);
      }
    }

    method TurnDot(left: Cst) returns (t: Cst)
      requires Valid() && At(Rest(), DOT)
      modifies this
      ensures Did(LedStep(Oleren(), left, old(Rest())), t, old(hadError))
    {
      var _ := NextTok();
      var star := Match(OP(Star));
      if star { return CDeref(left, DotStar); }
      var caret := Match(OP(BitXor));
      if caret { return CDeref(left, DotCaret); }
      var f := ExpectIdent();
      t := CFld(left, f);
    }

    method TurnBinary(left: Cst) returns (t: Cst)
      requires Valid() && Rest() != [] && InfixBp(Rest()[0]).lbp >= 0 && (Rest()[0].OP? || Rest()[0].ASG?)
      modifies this
      ensures Did(LedStep(Oleren(), left, old(Rest())), t, old(hadError))
      decreases |Rest()|, -1
    {
      var op := cur.value;
      var _ := NextTok();
      var right := ParseExprBp(InfixBp(op).rbp);
      t := BinCst(op, left, right);
    }

    // What follows `catch`: |e| block, block, or a fallback.
    method ParseCatch(left: Cst) returns (t: Cst)
      requires Valid()
      modifies this
      ensures Did(LedStep(Oleren(), left, [CATCH] + old(Rest())), t, old(hadError))
      decreases |Rest()|, 3
    {
      ghost var ts := [CATCH] + Rest();
      assert ts[1..] == Rest();
      if Check(OP(BitOr)) {
        t := ParseHandler(left);
      } else if cur.Some? && cur.value.BLOCK? {
        t := CCatch(left, None, 0, cur.value.body);
        var _ := NextTok();
      } else {
        var f := ParseExprBp(13);
        t := CElse(left, f);
      }
    }

    method ParseHandler(left: Cst) returns (t: Cst)
      requires Valid() && At(Rest(), OP(BitOr))
      modifies this
      ensures Did(LedStep(Oleren(), left, [CATCH] + old(Rest())), t, old(hadError))
    {
      HandlerStep(Oleren(), left, Rest());
      var x := HandlerName();
      var n := SkipNewlineTokens();
      var b := [];
      if cur.Some? && cur.value.BLOCK? { b := cur.value.body; } else { hadError := true; }
      var _ := NextTok();
      t := CCatch(left, Some(x), n, b);
    }

    // |e|
    method HandlerName() returns (x: string)
      requires Valid() && At(Rest(), OP(BitOr))
      modifies this
      ensures Valid() && Rest() == Next(Next(old(Rest())[1..])) && x == NameAt(old(Rest())[1..])
      ensures hadError == (old(hadError) || !(IdAt(old(Rest())[1..]) && At(Next(old(Rest())[1..]), OP(BitOr))))
    {
      var _ := NextTok();
      x := ExpectIdent();
      Expect(OP(BitOr));
    }

    method SkipNewlineTokens() returns (n: nat)
      requires Valid()
      modifies `cur, `peek, `lexer
      ensures Valid() && Rest() == SkipNewlines(old(Rest())) && n == |old(Rest())| - |Rest()|
    {
      n := 0;
      while Check(NEWLINE)
        invariant Valid() && n + |Rest()| == |old(Rest())|
        invariant SkipNewlines(Rest()) == SkipNewlines(old(Rest()))
        decreases |Rest()|
      {
        var _ := NextTok();
        n := n + 1;
      }
    }

    method ParseArgList() returns (es: seq<Cst>, trailing: bool)
      requires Valid()
      modifies this
      ensures var l := ParseArgs(Oleren(), old(Rest()));
        Valid() && es == l.trees && trailing == l.trailing && Rest() == l.rest && hadError == (old(hadError) || !l.ok)
      decreases |Rest()|, 3
    {
      es, trailing := [], false;
      ghost var all, before, ok, start := ParseArgs(Oleren(), Rest()), hadError, true, |Rest()|;
      while cur.Some? && !Check(RPAREN)
        invariant Valid() && |Rest()| <= start && hadError == (before || !ok) && (trailing ==> es != [])
        invariant var l := ParseArgs(Oleren(), Rest());
          && all.trees == es + l.trees && all.rest == l.rest && all.ok == (ok && l.ok)
          && all.trailing == (l.trailing || (l.trees == [] && trailing))
        decreases |Rest()|
      {
        ghost var l := ParseArgs(Oleren(), Rest());
        ghost var q := ParseBp(Oleren(), Rest(), 0);
        var e := ParseExprBp(0);
        ok := ok && q.ok;
        trailing := Match(COMMA);
        if trailing {
          ghost var tail := ParseArgs(Oleren(), Rest());
          assert l.trees == [e] + tail.trees;
          Assoc(es, [e], tail.trees);
          es := es + [e];
        } else {
          es := es + [e];
          return;
        }
      }
      assert ParseArgs(Oleren(), Rest()) == ParsedList([], false, Rest(), true);
    }
  }

  lemma StepIsTree(g: Grammar, left: Cst, ts: seq<Tok>)
    requires ts != [] && !left.CBad?
    ensures !LedStep(g, left, ts).tree.CBad?
  {}

  lemma HandlerStep(g: Grammar, left: Cst, t1: seq<Tok>)
    requires At(t1, OP(BitOr))
    ensures var t2 := t1[1..];
      var t3 := Next(t2);
      var t4 := Next(t3);
      var t5 := SkipNewlines(t4);
      var b := t5 != [] && t5[0].BLOCK?;
      LedStep(g, left, [CATCH] + t1) ==
        Parsed(CCatch(left, Some(NameAt(t2)), |t4| - |t5|, if b then t5[0].body else []), Next(t5),
               IdAt(t2) && At(t3, OP(BitOr)) && b)
  {
    assert ([CATCH] + t1)[1..] == t1;
  }
}
