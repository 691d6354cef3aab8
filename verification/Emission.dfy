/** Expressions as the emitter writes them: every binary operation in parentheses, no other
    parentheses except around a dereference.  C++ ranks `==` below `<`, unlike Oleren; it
    does not matter.  It does matter where an assignment or a prefix operation stands. */
module Emission {
  import opened Ast
  import opened Options
  import opened Seqs
  import opened Pratt
  import opened PrattComplete
  import opened Printer

  const MAKE_TUPLE := "std::make_tuple"

  function ErrText(variant: string): string { "_OlrnError{-1, \"" + variant + "\"}" }

  // `.len` and `.cap` are properties of strings, arrays and lists.
  function FieldToks(f: string): seq<Tok> {
    if f == "len" then [DOT, ID("size"), LPAREN, RPAREN]
    else if f == "cap" then [DOT, ID("capacity"), LPAREN, RPAREN]
    else [DOT, ID(f)]
  }

  function FieldName(f: string): string { if f == "len" then "size" else if f == "cap" then "capacity" else f }

  // src/codegen/codegen.c, emit_expr: the tokens written for an expression.  The C++
  // spelling of an operator is left as its token; `^p` and `p.*` are both `*`.
  function EmitToks(e: Expr): seq<Tok> {
    match e
    case Int(n) => [CAST, INT(n)]
    case Ident(x) => [ID(x)]
    case ErrLit(v) => [ID(ErrText(v))]
    case Binary(op, l, r) => [LPAREN] + EmitToks(l) + [OP(op)] + EmitToks(r) + [RPAREN]
    case Unary(op, x) => [PrefixTok(Pre(CppPrefix(op)))] + EmitToks(x)
    case Assign(op, l, r) => EmitToks(l) + [ASG(op)] + EmitToks(r)
    case Field(x, f) => EmitToks(x) + FieldToks(f)
    case FieldPtr(x, f) => EmitToks(x) + [ARROW, ID(f)]
    case Subscript(x, i) => EmitToks(x) + [LBRACKET] + EmitToks(i) + [RBRACKET]
    case Deref(x) => [LPAREN, OP(Star)] + EmitToks(x) + [RPAREN]
    case Call(x, es) => EmitToks(x) + [LPAREN] + EmitList(es) + [RPAREN]
    case Tuple(es) => [ID(MAKE_TUPLE), LPAREN] + EmitList(es) + [RPAREN]
    case _ => []
  }

  function EmitList(es: seq<Expr>): seq<Tok> {
    if es == [] then []
    else if |es| == 1 then EmitToks(es[0])
    else EmitToks(es[0]) + [COMMA] + EmitList(es[1..])
  }

  function CppPrefix(op: PreOp): PreOp { if op == SmartDeref then RawDeref else op }

  // The tree that is meant, with the two dereferences identified, and casts, tuples and
  // the two properties made by calls.
  function CppTree(e: Expr): Expr {
    match e
    case Int(n) => Call(Ident(CAST_NAME), [Int(n)])
    case Ident(x) => e
    case ErrLit(v) => Ident(ErrText(v))
    case Binary(op, l, r) => Binary(op, CppTree(l), CppTree(r))
    case Unary(op, x) => Unary(CppPrefix(op), CppTree(x))
    case Assign(op, l, r) => Assign(op, CppTree(l), CppTree(r))
    case Field(x, f) =>
      if f == "len" then Call(Field(CppTree(x), "size"), [])
      else if f == "cap" then Call(Field(CppTree(x), "capacity"), [])
      else Field(CppTree(x), f)
    case FieldPtr(x, f) => FieldPtr(CppTree(x), f)
    case Subscript(x, i) => Subscript(CppTree(x), CppTree(i))
    case Deref(x) => Unary(RawDeref, CppTree(x))
    case Call(x, es) => Call(CppTree(x), CppTrees(es))
    case Tuple(es) => Call(Ident(MAKE_TUPLE), CppTrees(es))
    case _ => e
  }

  function CppTrees(es: seq<Expr>): (r: seq<Expr>)
    ensures |r| == |es|
  {
    if es == [] then [] else [CppTree(es[0])] + CppTrees(es[1..])
  }

  // No try or catch: those have a text of their own, in parentheses.
  predicate Flat(e: Expr) {
    match e
    case Int(_) => true
    case Ident(_) => true
    case ErrLit(_) => true
    case Binary(_, l, r) => Flat(l) && Flat(r)
    case Unary(_, x) => Flat(x)
    case Assign(_, l, r) => Flat(l) && Flat(r)
    case Field(x, _) => Flat(x)
    case FieldPtr(x, _) => Flat(x)
    case Subscript(x, i) => Flat(x) && Flat(i)
    case Deref(x) => Flat(x)
    case Call(x, es) => Flat(x) && FlatAll(es)
    case Tuple(es) => FlatAll(es)
    case _ => false
  }

  predicate FlatAll(es: seq<Expr>) { es == [] || (Flat(es[0]) && FlatAll(es[1..])) }

  // No assignment is an operand or a target, and nothing that C++ reads as binding to a
  // prefix operator or a cast stands before a postfix operator.
  predicate Apart(e: Expr) {
    match e
    case Binary(_, l, r) => !l.Assign? && !r.Assign? && Apart(l) && Apart(r)
    case Unary(_, x) => !x.Assign? && Apart(x)
    case Assign(_, l, r) => !l.Assign? && Apart(l) && Apart(r)
    case Field(x, _) => Target(x) && Apart(x)
    case FieldPtr(x, _) => Target(x) && Apart(x)
    case Subscript(x, i) => Target(x) && Apart(x) && Apart(i)
    case Deref(x) => !x.Assign? && Apart(x)
    case Call(x, es) => Target(x) && Apart(x) && ApartAll(es)
    case Tuple(es) => ApartAll(es)
    case _ => true
  }

  predicate ApartAll(es: seq<Expr>) { es == [] || (Apart(es[0]) && ApartAll(es[1..])) }

  predicate Target(x: Expr) { PostfixTarget(x) && !x.Assign? }

  // A reader of C++ expressions: prefix and postfix operators and assignment as in C++,
  // and any ranking and associativity at all of the binary operators between them.
  ghost predicate ReadsCpp(g: Grammar) {
    && Sensible(g)
    && (forall op :: 5 < g.bp(OP(op)).lbp < PREFIX && 5 < g.bp(OP(op)).rbp <= PREFIX)
    && (forall op :: g.bp(ASG(op)) == Bp(5, 4))
    && (forall op :: op != SmartDeref ==> g.prefix(PrefixTok(Pre(op))) == Some(Pre(op)))
    && g.prefix(CAST) == Some(CastTo)
    && g.bp(DOT).lbp == g.bp(ARROW).lbp == g.bp(LBRACKET).lbp == g.bp(LPAREN).lbp == POSTFIX
  }

  // ---------- how the reader sees the emitted text ----------

  datatype Suffix = SFld(f: string) | SPtr(f: string) | SSub(index: Cst) | SCall(args: seq<Cst>)

  function Put(t: Cst, s: Suffix): Cst {
    match s
    case SFld(f) => CFld(t, f)
    case SPtr(f) => CPtr(t, f)
    case SSub(i) => CSub(t, i)
    case SCall(es) => CCall(t, es, false)
  }

  function SuffixToks(s: Suffix): seq<Tok> {
    match s
    case SFld(f) => [DOT, ID(f)]
    case SPtr(f) => [ARROW, ID(f)]
    case SSub(i) => [LBRACKET] + Yield(i) + [RBRACKET]
    case SCall(es) => [LPAREN] + YieldList(es) + [RPAREN]
  }

  // A postfix operator binds to the end of the text before it.
  function Push(t: Cst, s: Suffix): Cst {
    if t.CAsg? then CAsg(t.asg, t.left, Push(t.right, s))
    else if t.CPre? then CPre(t.prefix, Push(t.inner, s))
    else Put(t, s)
  }

  // A prefix operator binds to the beginning of the text behind it.
  function Prefixed(p: Prefix, t: Cst): Cst {
    if t.CAsg? then CAsg(t.asg, CPre(p, t.left), t.right) else CPre(p, t)
  }

  // Assignment binds most weakly, and to the right.
  function Combine(op: BinOp, x: Cst, y: Cst): Cst {
    if x.CAsg? then CAsg(x.asg, x.left, Combine(op, x.right, y))
    else if y.CAsg? then CAsg(y.asg, CBin(op, x, y.left), y.right)
    else CBin(op, x, y)
  }

  function Assigned(x: Cst, op: AsgOp, y: Cst): Cst {
    if x.CAsg? then CAsg(x.asg, x.left, Assigned(x.right, op, y)) else CAsg(op, x, y)
  }

  function Read(e: Expr): Cst {
    match e
    case Int(n) => CPre(CastTo, CInt(n))
    case Ident(x) => CId(x)
    case ErrLit(v) => CId(ErrText(v))
    case Binary(op, l, r) => CGroup(Combine(op, Read(l), Read(r)))
    case Unary(op, x) => Prefixed(Pre(CppPrefix(op)), Read(x))
    case Assign(op, l, r) => Assigned(Read(l), op, Read(r))
    case Field(x, f) =>
      if f == "len" then Push(Push(Read(x), SFld("size")), SCall([]))
      else if f == "cap" then Push(Push(Read(x), SFld("capacity")), SCall([]))
      else Push(Read(x), SFld(f))
    case FieldPtr(x, f) => Push(Read(x), SPtr(f))
    case Subscript(x, i) => Push(Read(x), SSub(Read(i)))
    case Deref(x) => CGroup(Prefixed(Pre(RawDeref), Read(x)))
    case Call(x, es) => Push(Read(x), SCall(ReadList(es)))
    case Tuple(es) => CCall(CId(MAKE_TUPLE), ReadList(es), false)
    case _ => CBad
  }

  function ReadList(es: seq<Expr>): (r: seq<Cst>)
    ensures |r| == |es|
  {
    if es == [] then [] else [Read(es[0])] + ReadList(es[1..])
  }

  // ---------- it has the tokens of the text ----------

  lemma {:induction false} PushYield(t: Cst, s: Suffix)
    ensures Yield(Push(t, s)) == Yield(t) + SuffixToks(s)
  {
    if t.CAsg? {
      PushYield(t.right, s);
      Assoc(Yield(t.left) + [ASG(t.asg)], Yield(t.right), SuffixToks(s));
    } else if t.CPre? {
      PushYield(t.inner, s);
      Assoc([PrefixTok(t.prefix)], Yield(t.inner), SuffixToks(s));
    } else {
      PutYield(t, s);
    }
  }

  lemma PutYield(t: Cst, s: Suffix)
    ensures Yield(Put(t, s)) == Yield(t) + SuffixToks(s)
  {
    if s.SSub? {
      YieldSub(t, s.index);
      Surround(Yield(t), [LBRACKET], Yield(s.index), [RBRACKET]);
    } else if s.SCall? {
      YieldCall(t, s.args);
      Surround(Yield(t), [LPAREN], YieldList(s.args), [RPAREN]);
    } else {
      YieldName(t, s);
    }
  }

  lemma YieldName(t: Cst, s: Suffix)
    requires s.SFld? || s.SPtr?
    ensures Yield(Put(t, s)) == Yield(t) + SuffixToks(s)
  {}

  lemma YieldSub(t: Cst, i: Cst)
    ensures Yield(CSub(t, i)) == Yield(t) + [LBRACKET] + Yield(i) + [RBRACKET]
  {}

  lemma YieldCall(t: Cst, es: seq<Cst>)
    ensures Yield(CCall(t, es, false)) == Yield(t) + [LPAREN] + YieldList(es) + [RPAREN]
  {
    AppNil(Yield(t) + [LPAREN] + YieldList(es));
  }

  lemma YieldAsg(op: AsgOp, l: Cst, r: Cst)
    ensures Yield(CAsg(op, l, r)) == Yield(l) + [ASG(op)] + Yield(r)
  {}

  lemma YieldBin(op: BinOp, l: Cst, r: Cst)
    ensures Yield(CBin(op, l, r)) == Yield(l) + [OP(op)] + Yield(r)
  {}

  lemma Surround(t: seq<Tok>, a: seq<Tok>, b: seq<Tok>, c: seq<Tok>)
    ensures t + a + b + c == t + (a + b + c)
  {
    Assoc(t, a, b);
    Assoc(t, a + b, c);
  }

  lemma PrefixedYield(p: Prefix, t: Cst)
    ensures Yield(Prefixed(p, t)) == [PrefixTok(p)] + Yield(t)
  {
    if t.CAsg? {
      Assoc([PrefixTok(p)], Yield(t.left), [ASG(t.asg)]);
      Assoc([PrefixTok(p)], Yield(t.left) + [ASG(t.asg)], Yield(t.right));
    }
  }

  lemma {:induction false} CombineYield(op: BinOp, x: Cst, y: Cst)
    ensures Yield(Combine(op, x, y)) == Yield(x) + [OP(op)] + Yield(y)
  {
    if x.CAsg? {
      CombineYield(op, x.right, y);
      YieldAsg(x.asg, x.left, x.right);
      YieldAsg(x.asg, x.left, Combine(op, x.right, y));
      Regroup(Yield(x.left) + [ASG(x.asg)], Yield(x.right), [OP(op)], Yield(y));
    } else if y.CAsg? {
      YieldAsg(y.asg, y.left, y.right);
      YieldBin(op, x, y.left);
      YieldAsg(y.asg, CBin(op, x, y.left), y.right);
      Regroup(Yield(x) + [OP(op)], Yield(y.left), [ASG(y.asg)], Yield(y.right));
    } else {
      YieldBin(op, x, y);
    }
  }

  lemma Regroup(a: seq<Tok>, b: seq<Tok>, c: seq<Tok>, d: seq<Tok>)
    ensures a + (b + c + d) == a + b + c + d
  {
    Assoc(a, b + c, d);
    Assoc(a, b, c);
  }

  lemma {:induction false} AssignedYield(x: Cst, op: AsgOp, y: Cst)
    ensures Yield(Assigned(x, op, y)) == Yield(x) + [ASG(op)] + Yield(y)
  {
    if x.CAsg? {
      AssignedYield(x.right, op, y);
      YieldAsg(x.asg, x.left, x.right);
      YieldAsg(x.asg, x.left, Assigned(x.right, op, y));
      Regroup(Yield(x.left) + [ASG(x.asg)], Yield(x.right), [ASG(op)], Yield(y));
    } else {
      YieldAsg(op, x, y);
    }
  }

  lemma DerefYield(e: Expr)
    requires e.Deref? && Yield(Read(e.target)) == EmitToks(e.target)
    ensures Yield(Read(e)) == EmitToks(e)
  {
    var t := Prefixed(Pre(RawDeref), Read(e.target));
    PrefixedYield(Pre(RawDeref), Read(e.target));
    assert Yield(CGroup(t)) == [LPAREN] + Yield(t) + [RPAREN];
    Assoc([LPAREN], [OP(Star)], EmitToks(e.target));
  }

  lemma BinaryYield(e: Expr)
    requires e.Binary? && Yield(Read(e.left)) == EmitToks(e.left) && Yield(Read(e.right)) == EmitToks(e.right)
    ensures Yield(Read(e)) == EmitToks(e)
  {
    var t := Combine(e.op, Read(e.left), Read(e.right));
    CombineYield(e.op, Read(e.left), Read(e.right));
    assert Yield(CGroup(t)) == [LPAREN] + Yield(t) + [RPAREN];
    Regroup([LPAREN], EmitToks(e.left), [OP(e.op)], EmitToks(e.right));
  }

  lemma {:induction false} ReadYield(e: Expr)
    requires Flat(e)
    ensures Yield(Read(e)) == EmitToks(e)
    decreases e, 1
  {
    if e.Binary? {
      ReadYield(e.left);
      ReadYield(e.right);
      BinaryYield(e);
    } else if e.Unary? {
      ReadYield(e.operand);
      PrefixedYield(Pre(CppPrefix(e.pre)), Read(e.operand));
    } else if e.Assign? {
      ReadYield(e.lhs);
      ReadYield(e.rhs);
      AssignedYield(Read(e.lhs), e.asg, Read(e.rhs));
    } else if e.Deref? {
      ReadYield(e.target);
      DerefYield(e);
    } else if e.Tuple? {
      ReadListYield(e.elems);
      YieldCall(CId(MAKE_TUPLE), ReadList(e.elems));
    } else {
      ReadPostfixYield(e);
    }
  }

  lemma {:induction false} ReadPostfixYield(e: Expr)
    requires Flat(e) && !e.Binary? && !e.Unary? && !e.Assign? && !e.Deref? && !e.Tuple?
    ensures Yield(Read(e)) == EmitToks(e)
    decreases e, 0
  {
    if e.Field? {
      ReadYield(e.target);
      var name := FieldName(e.field);
      PushYield(Read(e.target), SFld(name));
      PushYield(Push(Read(e.target), SFld(name)), SCall([]));
      Assoc(EmitToks(e.target), [DOT, ID(name)], [LPAREN] + [] + [RPAREN]);
    } else if e.FieldPtr? {
      ReadYield(e.target);
      PushYield(Read(e.target), SPtr(e.field));
    } else if e.Subscript? {
      ReadYield(e.target);
      ReadYield(e.index);
      PushYield(Read(e.target), SSub(Read(e.index)));
      Surround(EmitToks(e.target), [LBRACKET], EmitToks(e.index), [RBRACKET]);
    } else if e.Call? {
      ReadYield(e.callee);
      ReadListYield(e.args);
      PushYield(Read(e.callee), SCall(ReadList(e.args)));
      Surround(EmitToks(e.callee), [LPAREN], EmitList(e.args), [RPAREN]);
    }
  }

  lemma {:induction false} ReadListYield(es: seq<Expr>)
    requires FlatAll(es)
    ensures YieldList(ReadList(es)) == EmitList(es)
    decreases es, 0
  {
    if es != [] {
      ReadYield(es[0]);
      ReadListYield(es[1..]);
      assert ReadList(es)[1..] == ReadList(es[1..]);
    }
  }

  // ---------- it is well grouped ----------

  // A closed text, a prefix or a postfix operation; a cast binds like a prefix.
  predicate Tight(g: Grammar, t: Cst) {
    && WellGrouped(g, t) && LeftMin(g, t) >= PREFIX && !t.CAsg?
    && (if t.CPre? then Tight(g, t.inner) else RightMin(g, t) == CLOSED)
  }

  // Assignments whose left sides are tight.
  predicate Chained(g: Grammar, t: Cst) {
    if t.CAsg? then Tight(g, t.left) && Chained(g, t.right) else Tight(g, t)
  }

  lemma {:induction false} TightEnds(g: Grammar, t: Cst)
    requires Tight(g, t)
    ensures RightMin(g, t) >= PREFIX
  {
    if t.CPre? { TightEnds(g, t.inner); }
  }

  lemma {:induction false} ChainedGrouped(g: Grammar, t: Cst)
    requires ReadsCpp(g) && Chained(g, t)
    ensures WellGrouped(g, t) && LeftMin(g, t) >= 5
  {
    if t.CAsg? {
      TightEnds(g, t.left);
      ChainedGrouped(g, t.right);
    }
  }

  predicate SuffixOk(g: Grammar, s: Suffix) {
    match s
    case SSub(i) => Chained(g, i)
    case SCall(es) => forall i | 0 <= i < |es| :: Chained(g, es[i])
    case _ => true
  }

  lemma {:induction false} PushTight(g: Grammar, t: Cst, s: Suffix)
    requires ReadsCpp(g) && Tight(g, t) && SuffixOk(g, s)
    ensures Tight(g, Push(t, s))
  {
    if t.CPre? {
      PushTight(g, t.inner, s);
    } else if s.SSub? {
      ChainedGrouped(g, s.index);
    } else if s.SCall? {
      forall i | 0 <= i < |s.args| ensures WellGrouped(g, s.args[i]) && LeftMin(g, s.args[i]) >= 0 {
        ChainedGrouped(g, s.args[i]);
      }
    }
  }

  lemma {:induction false} PushChained(g: Grammar, t: Cst, s: Suffix)
    requires ReadsCpp(g) && Chained(g, t) && SuffixOk(g, s)
    ensures Chained(g, Push(t, s))
  {
    if t.CAsg? { PushChained(g, t.right, s); } else { PushTight(g, t, s); }
  }

  lemma PrefixedChained(g: Grammar, op: PreOp, t: Cst)
    requires ReadsCpp(g) && Chained(g, t) && op != SmartDeref
    ensures Chained(g, Prefixed(Pre(op), t))
  {
    assert Tight(g, CPre(Pre(op), if t.CAsg? then t.left else t));
  }

  lemma {:induction false} CombineGrouped(g: Grammar, op: BinOp, x: Cst, y: Cst)
    requires ReadsCpp(g) && Chained(g, x) && Chained(g, y)
    ensures WellGrouped(g, Combine(op, x, y)) && LeftMin(g, Combine(op, x, y)) >= 5
  {
    if x.CAsg? {
      TightEnds(g, x.left);
      CombineGrouped(g, op, x.right, y);
    } else {
      TightEnds(g, x);
      if y.CAsg? {
        TightEnds(g, y.left);
        ChainedGrouped(g, y.right);
        assert WellGrouped(g, CBin(op, x, y.left));
      }
    }
  }

  lemma {:induction false} AssignedChained(g: Grammar, x: Cst, op: AsgOp, y: Cst)
    requires ReadsCpp(g) && Chained(g, x) && Chained(g, y)
    ensures Chained(g, Assigned(x, op, y))
  {
    if x.CAsg? { AssignedChained(g, x.right, op, y); }
  }

  lemma {:induction false} ReadChained(g: Grammar, e: Expr)
    requires ReadsCpp(g) && Flat(e)
    ensures Chained(g, Read(e))
    decreases e, 1
  {
    if e.Int? {
      assert Tight(g, CInt(e.n)) && PrefixTok(CastTo) == CAST;
    } else if e.Binary? {
      ReadChained(g, e.left);
      ReadChained(g, e.right);
      CombineGrouped(g, e.op, Read(e.left), Read(e.right));
    } else if e.Unary? {
      ReadChained(g, e.operand);
      PrefixedChained(g, CppPrefix(e.pre), Read(e.operand));
    } else if e.Assign? {
      ReadChained(g, e.lhs);
      ReadChained(g, e.rhs);
      AssignedChained(g, Read(e.lhs), e.asg, Read(e.rhs));
    } else if e.Deref? {
      ReadChained(g, e.target);
      PrefixedChained(g, RawDeref, Read(e.target));
      ChainedGrouped(g, Prefixed(Pre(RawDeref), Read(e.target)));
    } else if e.Tuple? {
      ReadListChained(g, e.elems);
      PushTight(g, CId(MAKE_TUPLE), SCall(ReadList(e.elems)));
    } else {
      ReadPostfixChained(g, e);
    }
  }

  lemma {:induction false} ReadPostfixChained(g: Grammar, e: Expr)
    requires ReadsCpp(g) && Flat(e) && !e.Int? && !e.Binary? && !e.Unary? && !e.Assign? && !e.Deref? && !e.Tuple?
    ensures Chained(g, Read(e))
    decreases e, 0
  {
    if e.Field? {
      ReadChained(g, e.target);
      var name := FieldName(e.field);
      PushChained(g, Read(e.target), SFld(name));
      PushChained(g, Push(Read(e.target), SFld(name)), SCall([]));
    } else if e.FieldPtr? {
      ReadChained(g, e.target);
      PushChained(g, Read(e.target), SPtr(e.field));
    } else if e.Subscript? {
      ReadChained(g, e.target);
      ReadChained(g, e.index);
      PushChained(g, Read(e.target), SSub(Read(e.index)));
    } else if e.Call? {
      ReadChained(g, e.callee);
      ReadListChained(g, e.args);
      PushChained(g, Read(e.callee), SCall(ReadList(e.args)));
    }
  }

  lemma {:induction false} ReadListChained(g: Grammar, es: seq<Expr>)
    requires ReadsCpp(g) && FlatAll(es)
    ensures forall i | 0 <= i < |es| :: Chained(g, ReadList(es)[i])
    decreases es, 0
  {
    if es != [] {
      ReadChained(g, es[0]);
      ReadListChained(g, es[1..]);
      assert forall i | 1 <= i < |es| :: ReadList(es)[i] == ReadList(es[1..])[i - 1];
    }
  }

  /** Whatever the ranking of the binary operators, C++ reads the emitted text as Read says. */
  lemma ReadsAs(g: Grammar, e: Expr, rest: seq<Tok>)
    requires ReadsCpp(g) && Flat(e)
    requires rest == [] || Lbp(g, rest) < 0
    ensures ParseBp(g, EmitToks(e) + rest, 0) == Parsed(Read(e), rest, true)
  {
    ReadYield(e);
    ReadChained(g, e);
    ChainedGrouped(g, Read(e));
    RightOpen(g, Read(e));
    Complete(g, Read(e), rest, 0);
  }

  lemma {:induction false} RightOpen(g: Grammar, t: Cst)
    requires ReadsCpp(g) && Chained(g, t)
    ensures RightMin(g, t) >= 0
  {
    if t.CAsg? { RightOpen(g, t.right); } else { TightEnds(g, t); }
  }

  // ---------- is it the tree that was meant? ----------

  // Nodes of a tree.
  function Size(e: Expr): nat {
    match e
    case Binary(_, l, r) => 1 + Size(l) + Size(r)
    case Unary(_, x) => 1 + Size(x)
    case Assign(_, l, r) => 1 + Size(l) + Size(r)
    case Field(x, _) => 1 + Size(x)
    case FieldPtr(x, _) => 1 + Size(x)
    case Subscript(x, i) => 1 + Size(x) + Size(i)
    case Call(x, es) => 1 + Size(x) + SizeAll(es)
    case _ => 1
  }

  function SizeAll(es: seq<Expr>): nat { if es == [] then 0 else Size(es[0]) + SizeAll(es[1..]) }

  function SuffixSize(s: Suffix): nat {
    match s
    case SSub(i) => 1 + Size(Erase(i))
    case SCall(es) => 1 + SizeAll(EraseList(es))
    case _ => 1
  }

  lemma {:induction false} PushSize(t: Cst, s: Suffix)
    ensures Size(Erase(Push(t, s))) == Size(Erase(t)) + SuffixSize(s)
  {
    if t.CAsg? {
      PushSize(t.right, s);
      AssignSize(t.asg, t.left, t.right);
      AssignSize(t.asg, t.left, Push(t.right, s));
    } else if t.CPre? {
      PushSize(t.inner, s);
      PrefixSize(t.prefix, t.inner);
      PrefixSize(t.prefix, Push(t.inner, s));
    } else {
      PutSize(t, s);
    }
  }

  lemma AssignSize(op: AsgOp, l: Cst, r: Cst)
    ensures Size(Erase(CAsg(op, l, r))) == 1 + Size(Erase(l)) + Size(Erase(r))
  {
    assert Erase(CAsg(op, l, r)) == Assign(op, Erase(l), Erase(r));
  }

  // A cast is a call.
  lemma PrefixSize(p: Prefix, t: Cst)
    ensures Size(Erase(CPre(p, t))) == (if p.CastTo? then 2 else 1) + Size(Erase(t))
  {
    if p.CastTo? {
      OneSize(Erase(t));
      assert Erase(CPre(p, t)) == Call(Ident(CAST_NAME), [Erase(t)]);
    } else {
      assert Erase(CPre(p, t)) == Unary(p.op, Erase(t));
    }
  }

  // A postfix operation on trees.
  function PutTree(x: Expr, s: Suffix): Expr {
    match s
    case SFld(f) => Field(x, f)
    case SPtr(f) => FieldPtr(x, f)
    case SSub(i) => Subscript(x, Erase(i))
    case SCall(es) => Call(x, EraseList(es))
  }

  lemma PutErase(t: Cst, s: Suffix)
    ensures Erase(Put(t, s)) == PutTree(Erase(t), s)
  {}

  lemma PutTreeSize(x: Expr, s: Suffix)
    ensures Size(PutTree(x, s)) == Size(x) + SuffixSize(s)
  {}

  lemma PutSize(t: Cst, s: Suffix)
    ensures Size(Erase(Put(t, s))) == Size(Erase(t)) + SuffixSize(s)
  {
    PutErase(t, s);
    PutTreeSize(Erase(t), s);
  }

  lemma OneSize(e: Expr)
    ensures SizeAll([e]) == Size(e)
  {
    assert [e][1..] == [];
  }

  lemma BinSize(op: BinOp, l: Cst, r: Cst)
    ensures Size(Erase(CBin(op, l, r))) == 1 + Size(Erase(l)) + Size(Erase(r))
  {
    assert Erase(CBin(op, l, r)) == Binary(op, Erase(l), Erase(r));
  }

  lemma {:induction false} CombineSize(op: BinOp, x: Cst, y: Cst)
    ensures Size(Erase(Combine(op, x, y))) == 1 + Size(Erase(x)) + Size(Erase(y))
  {
    if x.CAsg? {
      CombineSize(op, x.right, y);
      AssignSize(x.asg, x.left, x.right);
      AssignSize(x.asg, x.left, Combine(op, x.right, y));
    } else if y.CAsg? {
      BinSize(op, x, y.left);
      AssignSize(y.asg, y.left, y.right);
      AssignSize(y.asg, CBin(op, x, y.left), y.right);
    } else {
      BinSize(op, x, y);
    }
  }

  lemma {:induction false} AssignedSize(x: Cst, op: AsgOp, y: Cst)
    ensures Size(Erase(Assigned(x, op, y))) == 1 + Size(Erase(x)) + Size(Erase(y))
  {
    AssignSize(op, x, y);
    if x.CAsg? {
      AssignedSize(x.right, op, y);
      AssignSize(x.asg, x.left, x.right);
      AssignSize(x.asg, x.left, Assigned(x.right, op, y));
    }
  }

  lemma PrefixedSize(op: PreOp, t: Cst)
    ensures Size(Erase(Prefixed(Pre(op), t))) == 1 + Size(Erase(t))
  {
    PrefixSize(Pre(op), t);
    if t.CAsg? {
      PrefixSize(Pre(op), t.left);
      AssignSize(t.asg, t.left, t.right);
      AssignSize(t.asg, CPre(Pre(op), t.left), t.right);
    }
  }

  lemma {:induction false} ReadSize(e: Expr)
    requires Flat(e)
    ensures Size(Erase(Read(e))) == Size(CppTree(e))
    decreases e, 1
  {
    if e.Int? {
      PrefixSize(CastTo, CInt(e.n));
      OneSize(Int(e.n));
    } else if e.Binary? {
      ReadSize(e.left);
      ReadSize(e.right);
      CombineSize(e.op, Read(e.left), Read(e.right));
    } else if e.Unary? {
      ReadSize(e.operand);
      PrefixedSize(CppPrefix(e.pre), Read(e.operand));
    } else if e.Assign? {
      ReadSize(e.lhs);
      ReadSize(e.rhs);
      AssignedSize(Read(e.lhs), e.asg, Read(e.rhs));
    } else if e.Deref? {
      ReadSize(e.target);
      PrefixedSize(RawDeref, Read(e.target));
    } else if e.Tuple? {
      ReadListSize(e.elems);
      PutSize(CId(MAKE_TUPLE), SCall(ReadList(e.elems)));
    } else {
      ReadPostfixSize(e);
    }
  }

  lemma {:induction false} ReadPostfixSize(e: Expr)
    requires Flat(e) && (e.Ident? || e.ErrLit? || e.Field? || e.FieldPtr? || e.Subscript? || e.Call?)
    ensures Size(Erase(Read(e))) == Size(CppTree(e))
    decreases e, 0
  {
    if e.Field? {
      ReadSize(e.target);
      FieldSize(e);
    } else if e.FieldPtr? {
      ReadSize(e.target);
      PushSize(Read(e.target), SPtr(e.field));
    } else if e.Subscript? {
      ReadSize(e.target);
      ReadSize(e.index);
      PushSize(Read(e.target), SSub(Read(e.index)));
    } else if e.Call? {
      ReadSize(e.callee);
      ReadListSize(e.args);
      PushSize(Read(e.callee), SCall(ReadList(e.args)));
    }
  }

  lemma FieldSize(e: Expr)
    requires e.Field? && Size(Erase(Read(e.target))) == Size(CppTree(e.target))
    ensures Size(Erase(Read(e))) == Size(CppTree(e))
  {
    var t, name := Read(e.target), FieldName(e.field);
    PushSize(t, SFld(name));
    PushSize(Push(t, SFld(name)), SCall([]));
    var x := CppTree(e.target);
    assert Size(Field(x, name)) == 1 + Size(x) && Size(Call(Field(x, name), [])) == 2 + Size(x);
  }

  lemma {:induction false} ReadListSize(es: seq<Expr>)
    requires FlatAll(es)
    ensures SizeAll(EraseList(ReadList(es))) == SizeAll(CppTrees(es))
    decreases es, 0
  {
    if es != [] {
      ReadSize(es[0]);
      ReadListSize(es[1..]);
      assert ReadList(es)[1..] == ReadList(es[1..]);
      ConsTail(Erase(Read(es[0])), EraseList(ReadList(es[1..])));
      ConsTail(CppTree(es[0]), CppTrees(es[1..]));
    }
  }

  // The ends of a text that is read as it was meant.
  lemma {:induction false} Ends(e: Expr)
    requires Flat(e) && Apart(e)
    ensures Read(e).CAsg? <==> e.Assign?
    ensures Read(e).CPre? ==> e.Unary? || e.Int?
  {
    if e.Unary? {
      Ends(e.operand);
    } else if e.Assign? {
      Ends(e.lhs);
    } else if e.Field? || e.FieldPtr? || e.Subscript? {
      Ends(e.target);
    } else if e.Call? {
      Ends(e.callee);
    }
  }

  predicate IsCast(e: Expr) { e.Call? && e.callee == Ident(CAST_NAME) && |e.args| == 1 }

  // What is pushed inside is seen at the root.
  lemma PushedInside(t: Cst, s: Suffix)
    requires t.CAsg? || t.CPre?
    ensures var r := Push(t, s);
      && (t.CAsg? ==> r.CAsg? && Erase(r).Assign?)
      && (t.CPre? ==> r.CPre? && (Erase(r).Unary? || IsCast(Erase(r))))
  {}

  lemma BinaryIff(e: Expr)
    requires Flat(e) && e.Binary?
    requires Erase(Read(e.left)) == CppTree(e.left) <==> Apart(e.left)
    requires Erase(Read(e.right)) == CppTree(e.right) <==> Apart(e.right)
    ensures Erase(Read(e)) == CppTree(e) <==> Apart(e)
  {
    var x, y := Read(e.left), Read(e.right);
    assert Erase(Read(e)) == Erase(Combine(e.op, x, y));
    if Apart(e.left) { Ends(e.left); }
    if Apart(e.right) { Ends(e.right); }
    if x.CAsg? || y.CAsg? {
      assert Erase(Combine(e.op, x, y)).Assign?;
    } else {
      assert Erase(Combine(e.op, x, y)) == Binary(e.op, Erase(x), Erase(y));
    }
  }

  lemma PrefixIff(e: Expr)
    requires Flat(e) && (e.Unary? || e.Deref?)
    requires var x := if e.Unary? then e.operand else e.target; Erase(Read(x)) == CppTree(x) <==> Apart(x)
    ensures Erase(Read(e)) == CppTree(e) <==> Apart(e)
  {
    var x := if e.Unary? then e.operand else e.target;
    var op := if e.Unary? then CppPrefix(e.pre) else RawDeref;
    if Apart(x) { Ends(x); }
    assert Erase(Read(e)) == Erase(Prefixed(Pre(op), Read(x))) && CppTree(e) == Unary(op, CppTree(x));
    if Read(x).CAsg? {
      assert Erase(Read(e)).Assign?;
    } else {
      assert Erase(Read(e)) == Unary(op, Erase(Read(x)));
    }
  }

  lemma AssignIff(e: Expr)
    requires Flat(e) && e.Assign?
    requires Erase(Read(e.lhs)) == CppTree(e.lhs) <==> Apart(e.lhs)
    requires Erase(Read(e.rhs)) == CppTree(e.rhs) <==> Apart(e.rhs)
    ensures Erase(Read(e)) == CppTree(e) <==> Apart(e)
  {
    var x := Read(e.lhs);
    if Apart(e.lhs) { Ends(e.lhs); }
    if x.CAsg? {
      ReadSize(e.lhs);
      AssignSize(x.asg, x.left, x.right);
      var tail := Assigned(x.right, e.asg, Read(e.rhs));
      assert Erase(Read(e)) == Assign(x.asg, Erase(x.left), Erase(tail));
      assert CppTree(e) == Assign(e.asg, CppTree(e.lhs), CppTree(e.rhs));
    } else {
      assert Erase(Read(e)) == Assign(e.asg, Erase(x), Erase(Read(e.rhs)));
    }
  }

  lemma {:induction false} MeantIff(e: Expr)
    requires Flat(e)
    ensures Erase(Read(e)) == CppTree(e) <==> Apart(e)
    decreases e, 1
  {
    if e.Int? {
      assert Erase(CPre(CastTo, CInt(e.n))) == Call(Ident(CAST_NAME), [Int(e.n)]);
    } else if e.Binary? {
      MeantIff(e.left);
      MeantIff(e.right);
      BinaryIff(e);
    } else if e.Unary? || e.Deref? {
      MeantIff(if e.Unary? then e.operand else e.target);
      PrefixIff(e);
    } else if e.Assign? {
      MeantIff(e.lhs);
      MeantIff(e.rhs);
      AssignIff(e);
    } else if e.Tuple? {
      MeantListIff(e.elems);
      assert Erase(Read(e)) == Call(Ident(MAKE_TUPLE), EraseList(ReadList(e.elems)));
    } else {
      MeantPostfixIff(e);
    }
  }

  lemma {:induction false} MeantPostfixIff(e: Expr)
    requires Flat(e) && (e.Ident? || e.ErrLit? || e.Field? || e.FieldPtr? || e.Subscript? || e.Call?)
    ensures Erase(Read(e)) == CppTree(e) <==> Apart(e)
    decreases e, 0
  {
    if e.Ident? || e.ErrLit? {
      return;
    }
    var x := if e.Call? then e.callee else e.target;
    MeantIff(x);
    if e.Subscript? { MeantIff(e.index); }
    if e.Call? { MeantListIff(e.args); }
    if Read(x).CAsg? || Read(x).CPre? {
      Misplaced(e, x);
      if Apart(x) { Ends(x); }
    } else {
      NotTight(x);
      Placed(e, x);
    }
  }

  lemma NotTight(x: Expr)
    requires Flat(x) && !Read(x).CAsg? && !Read(x).CPre?
    ensures Target(x)
  {}

  // A target whose text is closed.
  lemma Placed(e: Expr, x: Expr)
    requires Flat(e) && (e.Field? || e.FieldPtr? || e.Subscript? || e.Call?)
    requires x == (if e.Call? then e.callee else e.target) && !Read(x).CAsg? && !Read(x).CPre?
    ensures Erase(Read(e)) == CppTree(e) <==>
      && Erase(Read(x)) == CppTree(x)
      && (e.Subscript? ==> Erase(Read(e.index)) == CppTree(e.index))
      && (e.Call? ==> EraseList(ReadList(e.args)) == CppTrees(e.args))
  {
    var t := Read(x);
    if e.Field? {
      PlacedField(e);
    } else if e.FieldPtr? {
      PutErase(t, SPtr(e.field));
    } else if e.Subscript? {
      PutErase(t, SSub(Read(e.index)));
    } else {
      PutErase(t, SCall(ReadList(e.args)));
    }
  }

  lemma PlacedField(e: Expr)
    requires e.Field? && !Read(e.target).CAsg? && !Read(e.target).CPre?
    ensures Erase(Read(e)) == CppTree(e) <==> Erase(Read(e.target)) == CppTree(e.target)
  {
    var t, name := Read(e.target), FieldName(e.field);
    PutErase(t, SFld(name));
    PutErase(CFld(t, name), SCall([]));
    assert Push(t, SFld(name)) == CFld(t, name);
    assert Push(CFld(t, name), SCall([])) == CCall(CFld(t, name), [], false);
  }

  // A target whose text ends in something weaker than the postfix operator.
  lemma Misplaced(e: Expr, x: Expr)
    requires Flat(e) && (e.Field? || e.FieldPtr? || e.Subscript? || e.Call?)
    requires x == (if e.Call? then e.callee else e.target) && (Read(x).CAsg? || Read(x).CPre?)
    ensures Erase(Read(e)) != CppTree(e)
  {
    var t := Read(x);
    if e.Field? {
      var name := FieldName(e.field);
      PushedInside(t, SFld(name));
      PushedInside(Push(t, SFld(name)), SCall([]));
    } else if e.FieldPtr? {
      PushedInside(t, SPtr(e.field));
    } else if e.Subscript? {
      PushedInside(t, SSub(Read(e.index)));
    } else {
      PushedInside(t, SCall(ReadList(e.args)));
      if CppTree(x) == Ident(CAST_NAME) {
        NamedTarget(x);
      }
    }
  }

  // Only a name is written as a name.
  lemma NamedTarget(x: Expr)
    requires Flat(x) && CppTree(x).Ident?
    ensures !Read(x).CAsg? && !Read(x).CPre?
  {}

  lemma {:induction false} MeantListIff(es: seq<Expr>)
    requires FlatAll(es)
    ensures EraseList(ReadList(es)) == CppTrees(es) <==> ApartAll(es)
    decreases es, 0
  {
    if es != [] {
      MeantIff(es[0]);
      MeantListIff(es[1..]);
      assert ReadList(es)[1..] == ReadList(es[1..]);
      var a, b := EraseList(ReadList(es)), CppTrees(es);
      ConsTail(Erase(Read(es[0])), EraseList(ReadList(es[1..])));
      ConsTail(CppTree(es[0]), CppTrees(es[1..]));
      assert a == b <==> a[0] == b[0] && a[1..] == b[1..] by {
        HeadTail(a);
        HeadTail(b);
      }
    }
  }

  /** Under every ranking of the binary operators, the emitted text of an expression without
      try and catch is accepted; and it is read back to the tree it was written for if and
      only if no assignment stands as an operand or a target in it, and no prefix operation
      or integer literal in front of a postfix operator. */
  lemma ReadBackIff(g: Grammar, e: Expr, rest: seq<Tok>)
    requires ReadsCpp(g) && Flat(e)
    requires rest == [] || Lbp(g, rest) < 0
    ensures var r := ParseBp(g, EmitToks(e) + rest, 0);
      r.ok && r.rest == rest && (Erase(r.tree) == CppTree(e) <==> Apart(e))
  {
    ReadsAs(g, e, rest);
    MeantIff(e);
  }

  /** The ranking of the binary operators does not matter where assignments and prefix
      operations stand apart. */
  lemma EmissionIgnoresPrecedence(g: Grammar, h: Grammar, e: Expr, rest: seq<Tok>)
    requires ReadsCpp(g) && ReadsCpp(h) && Flat(e)
    requires rest == [] || (Lbp(g, rest) < 0 && Lbp(h, rest) < 0)
    ensures ParseBp(g, EmitToks(e) + rest, 0) == ParseBp(h, EmitToks(e) + rest, 0)
    ensures Apart(e) ==> Erase(ParseBp(g, EmitToks(e) + rest, 0).tree) == CppTree(e)
  {
    ReadsAs(g, e, rest);
    ReadsAs(h, e, rest);
    MeantIff(e);
  }

  /** `x.f` is read back to its tree if and only if x is no prefix operation, no integer
      literal and no assignment: the text of (*p).f is *p.f, which is *(p.f). */
  lemma FieldReadIff(g: Grammar, x: Expr, f: string, rest: seq<Tok>)
    requires ReadsCpp(g) && Flat(x) && Apart(x)
    requires rest == [] || Lbp(g, rest) < 0
    ensures var r := ParseBp(g, EmitToks(Field(x, f)) + rest, 0);
      r.ok && r.rest == rest && (Erase(r.tree) == CppTree(Field(x, f)) <==> Target(x))
  {
    ReadBackIff(g, Field(x, f), rest);
  }

  /** x = a as the left operand of any operator is read as x = a op r. */
  lemma AssignedOperand(g: Grammar, x: string, a: string, op: BinOp, r: string)
    requires ReadsCpp(g)
    ensures EmitToks(Binary(op, Assign(SetTo, Ident(x), Ident(a)), Ident(r))) ==
      [LPAREN, ID(x), ASG(SetTo), ID(a), OP(op), ID(r), RPAREN]
    ensures ParseBp(g, [LPAREN, ID(x), ASG(SetTo), ID(a), OP(op), ID(r), RPAREN], 0) ==
      Parsed(CGroup(CAsg(SetTo, CId(x), CBin(op, CId(a), CId(r)))), [], true)
  {
    var e := Binary(op, Assign(SetTo, Ident(x), Ident(a)), Ident(r));
    var ts := [LPAREN, ID(x), ASG(SetTo), ID(a), OP(op), ID(r), RPAREN];
    assert EmitToks(Assign(SetTo, Ident(x), Ident(a))) == [ID(x), ASG(SetTo), ID(a)];
    assert EmitToks(e) == ts;
    AppNil(ts);
    ReadsAs(g, e, []);
    assert Read(e.left) == CAsg(SetTo, CId(x), CId(a)) && Read(e.right) == CId(r);
    assert Combine(op, CAsg(SetTo, CId(x), CId(a)), CId(r)) == CAsg(SetTo, CId(x), Combine(op, CId(a), CId(r)));
  }

  /** (*p).f is read as *(p.f). */
  lemma PrefixedTarget(g: Grammar, p: string, f: string)
    requires ReadsCpp(g) && f != "len" && f != "cap"
    ensures ParseBp(g, EmitToks(Field(Unary(RawDeref, Ident(p)), f)), 0) ==
      Parsed(CPre(Pre(RawDeref), CFld(CId(p), f)), [], true)
  {
    var e := Field(Unary(RawDeref, Ident(p)), f);
    AppNil(EmitToks(e));
    ReadsAs(g, e, []);
    assert Read(e.target) == CPre(Pre(RawDeref), CId(p));
    assert Push(CPre(Pre(RawDeref), CId(p)), SFld(f)) == CPre(Pre(RawDeref), Push(CId(p), SFld(f)));
  }

  // ---------- C++ itself ----------

  function CppBp(t: Tok): Bp {
    if t.OP? then CppOperatorBp(t.op)
    else if t.ASG? then Bp(5, 4)
    else if t.DOT? || t.ARROW? || t.LBRACKET? || t.LPAREN? then Bp(110, 111)
    else Bp(-1, -1)
  }

  // Sections 8.6 to 8.15 of ISO/IEC 14882:2017.
  function CppOperatorBp(op: BinOp): Bp {
    if op == Or then Bp(10, 11)
    else if op == And then Bp(20, 21)
    else if op == BitOr then Bp(30, 31)
    else if op == BitXor then Bp(40, 41)
    else if op == BitAnd then Bp(50, 51)
    else if op == EqEq || op == Neq then Bp(55, 56)
    else if op == Lt || op == Gt || op == Leq || op == Geq then Bp(60, 61)
    else if op == Shl || op == Shr then Bp(70, 71)
    else if op == Plus || op == Minus then Bp(80, 81)
    else Bp(90, 91)
  }

  function CppPrefixOp(t: Tok): Option<Prefix> {
    if t.CAST? then Some(CastTo) else if t == OP(BitXor) then None else PrefixOp(t)
  }

  function Cpp(): Grammar { Grammar(CppBp, CppPrefixOp) }

  /** The table of C++ is one of those the results above speak of. */
  lemma CppReads()
    ensures ReadsCpp(Cpp())
  {
    forall t ensures SaneTok(Cpp(), t) { CppSane(t); }
    forall op ensures 5 < Cpp().bp(OP(op)).lbp < PREFIX && 5 < Cpp().bp(OP(op)).rbp <= PREFIX { CppLevels(op); }
    forall op | op != SmartDeref ensures Cpp().prefix(PrefixTok(Pre(op))) == Some(Pre(op)) { CppPrefixes(op); }
  }

  lemma CppSane(t: Tok)
    ensures SaneTok(Cpp(), t)
  {}

  lemma CppLevels(op: BinOp)
    ensures 5 < Cpp().bp(OP(op)).lbp < PREFIX && 5 < Cpp().bp(OP(op)).rbp <= PREFIX
  {}

  lemma CppPrefixes(op: PreOp)
    requires op != SmartDeref
    ensures Cpp().prefix(PrefixTok(Pre(op))) == Some(Pre(op))
  {}

  /** a == b < c is (a == b) < c in Oleren and a == (b < c) in C++, so the parentheses
      around binary operations are needed. */
  lemma RankingsDiffer(a: string, b: string, c: string)
    ensures var ts := [ID(a), OP(EqEq), ID(b), OP(Lt), ID(c)];
      && ParseBp(Oleren(), ts, 0) == Parsed(CBin(Lt, CBin(EqEq, CId(a), CId(b)), CId(c)), [], true)
      && ParseBp(Cpp(), ts, 0) == Parsed(CBin(EqEq, CId(a), CBin(Lt, CId(b), CId(c))), [], true)
  {
    LeftFirst(CId(a), CId(b), CId(c));
    RightFirst(CId(a), CId(b), CId(c));
    var ts := [ID(a), OP(EqEq), ID(b), OP(Lt), ID(c)];
    assert ts == [ID(a)] + [OP(EqEq)] + [ID(b)] + [OP(Lt)] + [ID(c)];
    assert ts == [ID(a)] + [OP(EqEq)] + ([ID(b)] + [OP(Lt)] + [ID(c)]);
  }

  lemma LeftFirst(x: Cst, y: Cst, z: Cst)
    requires x.CId? && y.CId? && z.CId?
    ensures ParseBp(Oleren(), Yield(x) + [OP(EqEq)] + Yield(y) + [OP(Lt)] + Yield(z), 0) ==
      Parsed(CBin(Lt, CBin(EqEq, x, y), z), [], true)
  {
    OlerenSensible();
    assert LeftMin(Oleren(), CBin(EqEq, x, y)) == 60;
    TwoOperators(Oleren(), CBin(EqEq, x, y), Lt, z);
  }

  lemma RightFirst(x: Cst, y: Cst, z: Cst)
    requires x.CId? && y.CId? && z.CId?
    ensures ParseBp(Cpp(), Yield(x) + [OP(EqEq)] + (Yield(y) + [OP(Lt)] + Yield(z)), 0) ==
      Parsed(CBin(EqEq, x, CBin(Lt, y, z)), [], true)
  {
    CppReads();
    assert Cpp().bp(OP(EqEq)) == Bp(55, 56) && LeftMin(Cpp(), x) == CLOSED;
    TwoOperators(Cpp(), x, EqEq, CBin(Lt, y, z));
  }

  lemma TwoOperators(g: Grammar, l: Cst, op: BinOp, r: Cst)
    requires Sensible(g) && WellGrouped(g, CBin(op, l, r)) && LeftMin(g, CBin(op, l, r)) >= 0
    ensures ParseBp(g, Yield(l) + [OP(op)] + Yield(r), 0) == Parsed(CBin(op, l, r), [], true)
  {
    Complete(g, CBin(op, l, r), [], 0);
    AppNil(Yield(CBin(op, l, r)));
  }

  // Two minus signs or two ampersands with nothing between them are one C++ token.
  predicate Merges(a: Tok, b: Tok) { a == b && (a == OP(Minus) || a == OP(BitAnd)) }

  /** A prefix operator runs into the text of its operand if and only if that begins with
      the same `-` or `&`. */
  lemma PrefixesStayApart(op: PreOp, x: Expr)
    requires Flat(Unary(op, x)) && Apart(Unary(op, x))
    ensures EmitToks(x) != [] && (Merges(PrefixTok(Pre(CppPrefix(op))), EmitToks(x)[0]) <==> Doubled(op, x))
  {
    FirstEmitted(x);
  }

  lemma {:induction false} FirstEmitted(x: Expr)
    requires Flat(x) && Apart(x) && !x.Assign?
    ensures EmitToks(x) != []
    ensures EmitToks(x)[0].OP? ==> x.Unary? && EmitToks(x)[0] == PrefixTok(Pre(CppPrefix(x.pre)))
  {
    match x
    case Field(y, _) => FirstEmitted(y);
    case FieldPtr(y, _) => FirstEmitted(y);
    case Subscript(y, _) => FirstEmitted(y);
    case Call(y, _) => FirstEmitted(y);
    case _ =>
  }
}
