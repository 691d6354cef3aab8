/** The words that the emitter appends for an expression are the tokens of which the results
    about reading speak. */
module Written {
  import opened Ast
  import opened Options
  import opened Seqs
  import opened Cpp
  import opened Lowering
  import opened Codegen
  import opened Pratt
  import opened Printer
  import opened Emission

  // The C++ tokens of the fixed texts between operands.
  function Punctuation(text: string): seq<Tok> {
    if text == "(" then [LPAREN]
    else if text == ")" then [RPAREN]
    else if text == "[" then [LBRACKET]
    else if text == "]" then [RBRACKET]
    else if text == ", " then [COMMA]
    else if text == "." then [DOT]
    else if text == "->" then [ARROW]
    else if text == "(*" then [LPAREN, OP(Star)]
    else if text == ".size()" then [DOT, ID("size"), LPAREN, RPAREN]
    else if text == ".capacity()" then [DOT, ID("capacity"), LPAREN, RPAREN]
    else if text == "std::make_tuple(" then [ID(MAKE_TUPLE), LPAREN]
    else []
  }

  function WordToks(w: Word): seq<Tok> {
    match w
    case W(text) => Punctuation(text)
    case N(_, _) => []
    case Id(x) => [ID(x)]
    case Op2(op) => [OP(op)]
    case Op1(pre) => [PrefixTok(Pre(CppPrefix(pre)))]
    case OpSet(asg) => [ASG(asg)]
    case X(e) => EmitToks(e)
  }

  function Toks(ws: seq<Word>): seq<Tok> {
    if ws == [] then [] else WordToks(ws[0]) + Toks(ws[1..])
  }

  lemma {:induction false} ToksAppend(a: seq<Word>, b: seq<Word>)
    ensures Toks(a + b) == Toks(a) + Toks(b)
  {
    if a == [] {
      AppNil(b);
      AppNil(Toks(b));
    } else {
      AppTail(a, b);
      ToksAppend(a[1..], b);
      Assoc(WordToks(a[0]), Toks(a[1..]), Toks(b));
    }
  }

  lemma ToksOne(w: Word)
    ensures Toks([w]) == WordToks(w)
  {
    assert [w][1..] == [];
    AppNil(WordToks(w));
  }

  lemma ToksTwo(v: Word, w: Word)
    ensures Toks([v, w]) == WordToks(v) + WordToks(w)
  {
    assert [v, w] == [v] + [w];
    ToksAppend([v], [w]);
    ToksOne(v);
    ToksOne(w);
  }

  lemma ToksThree(a: seq<Word>, b: seq<Word>, c: seq<Word>)
    ensures Toks(a + b + c) == Toks(a) + Toks(b) + Toks(c)
  {
    ToksAppend(a + b, c);
    ToksAppend(a, b);
  }

  lemma ToksFive(a: seq<Word>, b: seq<Word>, c: seq<Word>, d: seq<Word>, e: seq<Word>)
    ensures Toks(a + b + c + d + e) == Toks(a) + Toks(b) + Toks(c) + Toks(d) + Toks(e)
  {
    ToksThree(a + b + c, d, e);
    ToksThree(a, b, c);
  }

  // The text of an expression and the tokens written for it.
  ghost predicate Same(g: Cfg, e: Expr, c: Cnt) { Toks(TextX(LowerExpr(g, e, c).0)) == EmitToks(e) }

  /** What the emitter appends for an expression without try and catch are its tokens. */
  lemma {:induction false} TextIsEmitted(g: Cfg, e: Expr, c: Cnt)
    requires Flat(e) && ShapeX(e)
    ensures Toks(TextX(LowerExpr(g, e, c).0)) == EmitToks(e)
    decreases e, 1
  {
    if IsAtom(e) {
      ToksOne(X(e));
    } else if e.Binary? {
      assert Operands(e)[0] == e.left && Operands(e)[1] == e.right;
      TextIsEmitted(g, e.left, c);
      TextIsEmitted(g, e.right, LowerExpr(g, e.left, c).1);
      BinaryText(g, e, c);
    } else if e.Unary? || e.FieldPtr? || e.Deref? || e.Field? {
      var x := if e.Unary? then e.operand else e.target;
      assert Operands(e)[0] == x;
      TextIsEmitted(g, x, c);
      SingleText(g, e, c);
    } else if e.Subscript? {
      assert Operands(e)[0] == e.target && Operands(e)[1] == e.index;
      TextIsEmitted(g, e.target, c);
      TextIsEmitted(g, e.index, LowerExpr(g, e.target, c).1);
      SubscriptText(g, e, c);
    } else if e.Assign? {
      AssignTokens(g, e, c);
    } else if e.Tuple? {
      ListIsEmitted(g, e, 0, e.elems, c);
      TupleText(g, e, c);
    } else {
      CallTokens(g, e, c);
    }
  }

  lemma BinaryText(g: Cfg, e: Expr, c: Cnt)
    requires e.Binary? && Same(g, e.left, c) && Same(g, e.right, LowerExpr(g, e.left, c).1)
    ensures Same(g, e, c)
  {
    assert Operands(e)[0] == e.left && Operands(e)[1] == e.right;
    var (l, c1) := LowerExpr(g, e.left, c);
    var r := LowerExpr(g, e.right, c1).0;
    if IsOp(e) { LowerPair(g, e, c); }
    ToksFive([W("(")], TextX(l), [Op2(e.op)], TextX(r), [W(")")]);
    ToksOne(W("("));
    ToksOne(Op2(e.op));
    ToksOne(W(")"));
  }

  lemma SingleText(g: Cfg, e: Expr, c: Cnt)
    requires IsOp(e) && (e.Unary? || e.FieldPtr? || e.Deref? || e.Field?)
    requires Same(g, if e.Unary? then e.operand else e.target, c)
    ensures Same(g, e, c)
  {
    var x := if e.Unary? then e.operand else e.target;
    assert Operands(e)[0] == x;
    LowerSingle(g, e, c);
    SingleToks(e, LowerExpr(g, x, c).0);
  }

  lemma SingleToks(e: Expr, t: TExpr)
    requires IsOp(e) && (e.Unary? || e.FieldPtr? || e.Deref? || e.Field?)
    requires Toks(TextX(t)) == EmitToks(if e.Unary? then e.operand else e.target)
    ensures Toks(TextOp(TOp(OperOf(e), [t]))) == EmitToks(e)
  {
    if e.Unary? {
      UnaryToks(e.pre, t);
    } else if e.FieldPtr? {
      ToksAppend(TextX(t), [W("->"), Id(e.field)]);
      ToksTwo(W("->"), Id(e.field));
    } else if e.Deref? {
      StarToks(t);
    } else {
      ToksAppend(TextX(t), FieldText(e.field));
      FieldIsEmitted(e.field);
    }
  }

  lemma UnaryToks(pre: PreOp, t: TExpr)
    ensures Toks(TextOp(TOp(OUn(pre), [t]))) == [PrefixTok(Pre(CppPrefix(pre)))] + Toks(TextX(t))
  {
    ToksAppend([Op1(pre)], TextX(t));
    ToksOne(Op1(pre));
  }

  lemma StarToks(t: TExpr)
    ensures Toks(TextOp(TOp(ODeref, [t]))) == [LPAREN, OP(Star)] + Toks(TextX(t)) + [RPAREN]
  {
    ToksThree([W("(*")], TextX(t), [W(")")]);
    ToksOne(W("(*"));
    ToksOne(W(")"));
  }

  lemma FieldIsEmitted(f: string)
    ensures Toks(FieldText(f)) == FieldToks(f)
  {
    ToksOne(W(".size()"));
    ToksOne(W(".capacity()"));
    ToksTwo(W("."), Id(f));
  }

  lemma SubscriptText(g: Cfg, e: Expr, c: Cnt)
    requires e.Subscript? && Same(g, e.target, c) && Same(g, e.index, LowerExpr(g, e.target, c).1)
    ensures Same(g, e, c)
  {
    assert Operands(e)[0] == e.target && Operands(e)[1] == e.index;
    LowerPair(g, e, c);
    var (l, c1) := LowerExpr(g, e.target, c);
    var r := LowerExpr(g, e.index, c1).0;
    ToksAppend(TextX(l) + [W("[")] + TextX(r), [W("]")]);
    ToksThree(TextX(l), [W("[")], TextX(r));
    ToksOne(W("["));
    ToksOne(W("]"));
  }

  lemma {:induction false} AssignTokens(g: Cfg, e: Expr, c: Cnt)
    requires e.Assign? && Flat(e) && ShapeX(e)
    ensures Same(g, e, c)
    decreases e, 0
  {
    if e.lhs.Ident? {
      TextIsEmitted(g, e.rhs, c);
      SetText(g, e, c);
    } else {
      assert Operands(e)[0] == e.lhs && Operands(e)[1] == e.rhs;
      TextIsEmitted(g, e.lhs, c);
      TextIsEmitted(g, e.rhs, LowerExpr(g, e.lhs, c).1);
      StoreText(g, e, c);
    }
  }

  lemma SetText(g: Cfg, e: Expr, c: Cnt)
    requires IsSet(e) && Same(g, e.rhs, c)
    ensures Same(g, e, c)
  {
    ToksAppend([Id(e.lhs.name), OpSet(e.asg)], TextX(LowerExpr(g, e.rhs, c).0));
    ToksTwo(Id(e.lhs.name), OpSet(e.asg));
  }

  lemma StoreText(g: Cfg, e: Expr, c: Cnt)
    requires e.Assign? && !e.lhs.Ident? && Same(g, e.lhs, c) && Same(g, e.rhs, LowerExpr(g, e.lhs, c).1)
    ensures Same(g, e, c)
  {
    assert Operands(e)[0] == e.lhs && Operands(e)[1] == e.rhs;
    var (l, c1) := LowerExpr(g, e.lhs, c);
    LowerPair(g, e, c);
    ToksThree(TextX(l), [OpSet(e.asg)], TextX(LowerExpr(g, e.rhs, c1).0));
    ToksOne(OpSet(e.asg));
  }

  // The operands from the i-th on, which are the expressions es.
  lemma {:induction false} ListIsEmitted(g: Cfg, e: Expr, i: nat, es: seq<Expr>, c: Cnt)
    requires IsOp(e) && ShapeX(e) && i <= |Operands(e)| && es == Operands(e)[i..] && FlatAll(es)
    ensures Toks(Commas(LowerOps(g, e, i, c).0)) == EmitList(es)
    decreases e, 0, |Operands(e)| - i
  {
    if i < |Operands(e)| {
      assert es[0] == Operands(e)[i] && es[1..] == Operands(e)[i + 1..];
      TextIsEmitted(g, Operands(e)[i], c);
      var (t, c1) := LowerExpr(g, Operands(e)[i], c);
      ListIsEmitted(g, e, i + 1, es[1..], c1);
      var ts := LowerOps(g, e, i + 1, c1).0;
      ConsTail(t, ts);
      ToksThree(TextX(t), [W(", ")], Commas(ts));
      ToksOne(W(", "));
    }
  }

  lemma TupleText(g: Cfg, e: Expr, c: Cnt)
    requires e.Tuple? && Toks(Commas(LowerOps(g, e, 0, c).0)) == EmitList(e.elems)
    ensures Same(g, e, c)
  {
    ToksThree([W("std::make_tuple(")], Commas(LowerOps(g, e, 0, c).0), [W(")")]);
    ToksOne(W("std::make_tuple("));
    ToksOne(W(")"));
  }

  lemma {:induction false} CallTokens(g: Cfg, e: Expr, c: Cnt)
    requires e.Call? && Flat(e) && ShapeX(e)
    ensures Same(g, e, c)
    decreases e, 0, |Operands(e)| + 1
  {
    ToksOne(W("("));
    ToksOne(W(")"));
    if e.callee.Ident? {
      assert e.args == Operands(e)[0..];
      ListIsEmitted(g, e, 0, e.args, c);
      var args := Commas(LowerOps(g, e, 0, c).0);
      ToksThree([Id(e.callee.name), W("(")], args, [W(")")]);
      ToksTwo(Id(e.callee.name), W("("));
    } else {
      assert Operands(e)[0] == e.callee && e.args == Operands(e)[1..];
      TextIsEmitted(g, e.callee, c);
      var (t, c1) := LowerExpr(g, e.callee, c);
      ListIsEmitted(g, e, 1, e.args, c1);
      var ts := LowerOps(g, e, 1, c1).0;
      ConsTail(t, ts);
      ToksThree(TextX(t) + [W("(")], Commas(ts), [W(")")]);
      ToksAppend(TextX(t), [W("(")]);
    }
  }

  /** The text that is appended for an expression without try and catch is read back to its
      tree if and only if its assignments and prefix operations stand apart. */
  lemma TextReadBack(k: Grammar, g: Cfg, e: Expr, c: Cnt, rest: seq<Tok>)
    requires ReadsCpp(k) && Flat(e) && ShapeX(e) && (rest == [] || Lbp(k, rest) < 0)
    ensures var r := ParseBp(k, Toks(TextX(LowerExpr(g, e, c).0)) + rest, 0);
      r.ok && r.rest == rest && (Erase(r.tree) == CppTree(e) <==> Apart(e))
  {
    TextIsEmitted(g, e, c);
    ReadBackIff(k, e, rest);
  }
}
