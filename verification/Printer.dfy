/** The infix table of the language, and printing with the fewest parentheses it allows. */
module Printer {
  import opened Ast
  import opened Options
  import opened Pratt
  import opened PrattComplete

  // ---------- the table ----------

  function InfixBp(t: Tok): Bp {
    if t.OP? then OperatorBp(t.op)
    else if t.ASG? then Bp(5, 4)
    else if t.CATCH? then Bp(12, 13)
    else if t.DOT? || t.ARROW? || t.LBRACKET? || t.LPAREN? || t.DOTDEREF? then Bp(110, 111)
    else Bp(-1, -1)
  }

  function OperatorBp(op: BinOp): Bp {
    match op
    case Or => Bp(10, 11)
    case And => Bp(20, 21)
    case BitOr => Bp(30, 31)
    case BitXor => Bp(40, 41)
    case BitAnd => Bp(50, 51)
    case EqEq => Bp(60, 61)
    case Neq => Bp(60, 61)
    case Lt => Bp(60, 61)
    case Gt => Bp(60, 61)
    case Leq => Bp(60, 61)
    case Geq => Bp(60, 61)
    case Shl => Bp(70, 71)
    case Shr => Bp(70, 71)
    case Plus => Bp(80, 81)
    case Minus => Bp(80, 81)
    case Star => Bp(90, 91)
    case Slash => Bp(90, 91)
    case Percent => Bp(90, 91)
  }

  function PrefixOp(t: Tok): Option<Prefix> {
    if t.BANG? then Some(Pre(Not))
    else if !t.OP? then None
    else if t.op.Minus? then Some(Pre(Neg))
    else if t.op.BitAnd? then Some(Pre(Addr))
    else if t.op.Star? then Some(Pre(RawDeref))
    else if t.op.BitXor? then Some(Pre(SmartDeref))
    else None
  }

  function Oleren(): Grammar { Grammar(InfixBp, PrefixOp) }

  lemma OlerenSensible()
    ensures Sensible(Oleren())
  {
    forall t ensures SaneTok(Oleren(), t) {}
  }

  // ---------- syntax trees without parentheses ----------

  // A cast of C++ as a call; there is none in Oleren.
  const CAST_NAME := "(int64_t)"

  function Erase(t: Cst): Expr {
    match t
    case CBad => Ident("?")
    case CInt(n) => Int(n)
    case CId(x) => Ident(x)
    case CErr(v) => ErrLit(v)
    case CGroup(c) => Erase(c)
    case CTuple(es) => Tuple(EraseList(es))
    case CPre(Pre(op), c) => Unary(op, Erase(c))
    case CPre(CastTo, c) => Call(Ident(CAST_NAME), [Erase(c)])
    case CTry(c) => Try(Erase(c))
    case CBin(op, l, r) => Binary(op, Erase(l), Erase(r))
    case CAsg(op, l, r) => Assign(op, Erase(l), Erase(r))
    case CFld(c, f) => Field(Erase(c), f)
    case CPtr(c, f) => FieldPtr(Erase(c), f)
    case CSub(c, i) => Subscript(Erase(c), Erase(i))
    case CDeref(c, _) => Deref(Erase(c))
    case CCall(c, es, _) => Call(Erase(c), EraseList(es))
    case CElse(c, f) => CatchElse(Erase(c), Erase(f))
    case CCatch(c, x, _, b) => CatchBlock(Erase(c), x, b)
  }

  function EraseList(es: seq<Cst>): (r: seq<Expr>)
    ensures |r| == |es|
  {
    if es == [] then [] else [Erase(es[0])] + EraseList(es[1..])
  }

  // What can be written down: tuples have two elements or more.  `blocks` allows
  // `catch` with a handler block.
  predicate Printable(e: Expr, blocks: bool) {
    match e
    case Binary(_, l, r) => Printable(l, blocks) && Printable(r, blocks)
    case Unary(_, x) => Printable(x, blocks)
    case Assign(_, l, r) => Printable(l, blocks) && Printable(r, blocks)
    case Field(x, _) => Printable(x, blocks)
    case FieldPtr(x, _) => Printable(x, blocks)
    case Subscript(x, i) => Printable(x, blocks) && Printable(i, blocks)
    case Deref(x) => Printable(x, blocks)
    case Call(x, es) => Printable(x, blocks) && forall i | 0 <= i < |es| :: Printable(es[i], blocks)
    case Tuple(es) => |es| >= 2 && forall i | 0 <= i < |es| :: Printable(es[i], blocks)
    case Try(x) => Printable(x, blocks)
    case CatchElse(x, f) => Printable(x, blocks) && Printable(f, blocks)
    case CatchBlock(x, _, _) => blocks && Printable(x, blocks)
    case _ => true
  }

  // ---------- printing ----------

  // A left operand, or the target of a postfix operator, before an operator of strength b.
  function GroupLeft(t: Cst, b: int): Cst {
    if b < RightMin(Oleren(), t) then t else CGroup(t)
  }

  // A right or prefix operand where strength b is demanded.
  function GroupRight(t: Cst, b: int): Cst {
    if LeftMin(Oleren(), t) >= b then t else CGroup(t)
  }

  function MinGroup(e: Expr): Cst {
    match e
    case Int(n) => CInt(n)
    case Ident(x) => CId(x)
    case ErrLit(v) => CErr(v)
    case Binary(op, l, r) =>
      CBin(op, GroupLeft(MinGroup(l), InfixBp(OP(op)).lbp), GroupRight(MinGroup(r), InfixBp(OP(op)).rbp))
    case Unary(op, x) => CPre(Pre(op), GroupRight(MinGroup(x), PREFIX))
    case Assign(op, l, r) => CAsg(op, GroupLeft(MinGroup(l), 5), GroupRight(MinGroup(r), 4))
    case Field(x, f) => CFld(GroupLeft(MinGroup(x), POSTFIX), f)
    case FieldPtr(x, f) => CPtr(GroupLeft(MinGroup(x), POSTFIX), f)
    case Subscript(x, i) => CSub(GroupLeft(MinGroup(x), POSTFIX), MinGroup(i))
    case Deref(x) => CDeref(GroupLeft(MinGroup(x), POSTFIX), OneToken)
    case Call(x, es) => CCall(GroupLeft(MinGroup(x), POSTFIX), MinGroups(es), false)
    case Tuple(es) => CTuple(MinGroups(es))
    case Try(x) => CTry(GroupRight(MinGroup(x), PREFIX))
    case CatchElse(x, f) => CElse(GroupLeft(MinGroup(x), 12), GroupRight(MinGroup(f), 13))
    case CatchBlock(x, v, b) => CCatch(GroupLeft(MinGroup(x), 12), v, 0, b)
  }

  function MinGroups(es: seq<Expr>): (r: seq<Cst>)
    ensures |r| == |es|
  {
    if es == [] then [] else [MinGroup(es[0])] + MinGroups(es[1..])
  }

  lemma LeftOk(t: Cst, b: int)
    requires WellGrouped(Oleren(), t) && LeftMin(Oleren(), t) >= 0 && b < CLOSED
    ensures var c := GroupLeft(t, b);
      WellGrouped(Oleren(), c) && b < RightMin(Oleren(), c) && LeftMin(Oleren(), c) >= 0 && Erase(c) == Erase(t)
  {}

  lemma RightOk(t: Cst, b: int)
    requires WellGrouped(Oleren(), t) && LeftMin(Oleren(), t) >= 0 && b < CLOSED
    ensures var c := GroupRight(t, b);
      WellGrouped(Oleren(), c) && LeftMin(Oleren(), c) >= b && Erase(c) == Erase(t)
  {}

  ghost predicate Prints(e: Expr) {
    WellGrouped(Oleren(), MinGroup(e)) && LeftMin(Oleren(), MinGroup(e)) >= 0 && Erase(MinGroup(e)) == e
  }

  lemma {:induction false} MinGroupOk(e: Expr, blocks: bool)
    requires Printable(e, blocks)
    ensures Prints(e)
    decreases e, 1
  {
    match e
    case Binary(op, l, r) => MinGroupOk(l, blocks); MinGroupOk(r, blocks); BinaryOk(op, l, r);
    case Unary(op, x) => MinGroupOk(x, blocks); UnaryOk(e);
    case Try(x) => MinGroupOk(x, blocks); TryOk(e);
    case Assign(_, l, r) => MinGroupOk(l, blocks); MinGroupOk(r, blocks); AssignOk(e);
    case Field(x, _) => MinGroupOk(x, blocks); FieldOk(e);
    case FieldPtr(x, _) => MinGroupOk(x, blocks); FieldPtrOk(e);
    case Deref(x) => MinGroupOk(x, blocks); DerefOk(e);
    case Subscript(x, i) => MinGroupOk(x, blocks); MinGroupOk(i, blocks); SubscriptOk(e);
    case Call(x, es) => MinGroupOk(x, blocks); MinGroupsOk(es, blocks); CallOk(e);
    case Tuple(es) => MinGroupsOk(es, blocks);
    case CatchElse(x, f) => MinGroupOk(x, blocks); MinGroupOk(f, blocks); ElseOk(e);
    case CatchBlock(x, _, _) => MinGroupOk(x, blocks); BlockOk(e);
    case _ =>
  }

  lemma UnaryOk(e: Expr)
    requires e.Unary? && Prints(e.operand)
    ensures Prints(e)
  {
    RightOk(MinGroup(e.operand), PREFIX);
    assert PrefixOp(PrefixTok(Pre(e.pre))) == Some(Pre(e.pre));
  }

  lemma TryOk(e: Expr)
    requires e.Try? && Prints(e.tried)
    ensures Prints(e)
  {
    RightOk(MinGroup(e.tried), PREFIX);
  }

  lemma AssignOk(e: Expr)
    requires e.Assign? && Prints(e.lhs) && Prints(e.rhs)
    ensures Prints(e)
  {
    LeftOk(MinGroup(e.lhs), 5);
    RightOk(MinGroup(e.rhs), 4);
  }

  lemma FieldOk(e: Expr)
    requires e.Field? && Prints(e.target)
    ensures Prints(e)
  {
    LeftOk(MinGroup(e.target), POSTFIX);
  }

  lemma FieldPtrOk(e: Expr)
    requires e.FieldPtr? && Prints(e.target)
    ensures Prints(e)
  {
    LeftOk(MinGroup(e.target), POSTFIX);
  }

  lemma DerefOk(e: Expr)
    requires e.Deref? && Prints(e.target)
    ensures Prints(e)
  {
    LeftOk(MinGroup(e.target), POSTFIX);
  }

  lemma SubscriptOk(e: Expr)
    requires e.Subscript? && Prints(e.target) && Prints(e.index)
    ensures Prints(e)
  {
    LeftOk(MinGroup(e.target), POSTFIX);
  }

  lemma CallOk(e: Expr)
    requires e.Call? && Prints(e.callee)
    requires WellGroupedList(Oleren(), MinGroups(e.args)) && EraseList(MinGroups(e.args)) == e.args
    ensures Prints(e)
  {
    LeftOk(MinGroup(e.callee), POSTFIX);
  }

  lemma ElseOk(e: Expr)
    requires e.CatchElse? && Prints(e.tried) && Prints(e.fallback)
    ensures Prints(e)
  {
    LeftOk(MinGroup(e.tried), 12);
    RightOk(MinGroup(e.fallback), 13);
  }

  lemma BlockOk(e: Expr)
    requires e.CatchBlock? && Prints(e.tried)
    ensures Prints(e)
  {
    LeftOk(MinGroup(e.tried), 12);
  }

  lemma BinaryOk(op: BinOp, l: Expr, r: Expr)
    requires Prints(l) && Prints(r)
    ensures Prints(Binary(op, l, r))
  {
    LeftOk(MinGroup(l), InfixBp(OP(op)).lbp);
    RightOk(MinGroup(r), InfixBp(OP(op)).rbp);
    BinWell(op, GroupLeft(MinGroup(l), InfixBp(OP(op)).lbp), GroupRight(MinGroup(r), InfixBp(OP(op)).rbp));
  }

  lemma BinWell(op: BinOp, l: Cst, r: Cst)
    requires WellGrouped(Oleren(), l) && InfixBp(OP(op)).lbp < RightMin(Oleren(), l) && LeftMin(Oleren(), l) >= 0
    requires WellGrouped(Oleren(), r) && LeftMin(Oleren(), r) >= InfixBp(OP(op)).rbp
    ensures WellGrouped(Oleren(), CBin(op, l, r)) && LeftMin(Oleren(), CBin(op, l, r)) >= 0
  {}

  lemma {:induction false} MinGroupsOk(es: seq<Expr>, blocks: bool)
    requires forall i | 0 <= i < |es| :: Printable(es[i], blocks)
    ensures WellGroupedList(Oleren(), MinGroups(es)) && EraseList(MinGroups(es)) == es
    decreases es, 0
  {
    if es != [] {
      MinGroupOk(es[0], blocks);
      MinGroupsOk(es[1..], blocks);
      assert MinGroups(es)[1..] == MinGroups(es[1..]);
    }
  }

  /** Parsing what was printed gives the same tree back, in front of anything that ends an
      expression: the end of the input or a token that is no operator. */
  lemma PrintParse(e: Expr, blocks: bool, rest: seq<Tok>)
    requires Printable(e, blocks) && (rest == [] || InfixBp(rest[0]).lbp < 0)
    ensures var r := ParseBp(Oleren(), Yield(MinGroup(e)) + rest, 0);
      r.ok && r.rest == rest && Erase(r.tree) == e
  {
    OlerenSensible();
    MinGroupOk(e, blocks);
    EdgeOpen(Oleren(), MinGroup(e));
    Complete(Oleren(), MinGroup(e), rest, 0);
  }

  // ---------- no other text has fewer parentheses ----------

  function Groups(t: Cst): nat {
    match t
    case CGroup(c) => 1 + Groups(c)
    case CTuple(es) => GroupsList(es)
    case CPre(_, c) => Groups(c)
    case CTry(c) => Groups(c)
    case CBin(_, l, r) => Groups(l) + Groups(r)
    case CAsg(_, l, r) => Groups(l) + Groups(r)
    case CFld(c, _) => Groups(c)
    case CPtr(c, _) => Groups(c)
    case CSub(c, i) => Groups(c) + Groups(i)
    case CDeref(c, _) => Groups(c)
    case CCall(c, es, _) => Groups(c) + GroupsList(es)
    case CElse(c, f) => Groups(c) + Groups(f)
    case CCatch(c, _, _, _) => Groups(c)
    case _ => 0
  }

  function GroupsList(es: seq<Cst>): nat {
    if es == [] then 0 else Groups(es[0]) + GroupsList(es[1..])
  }

  // The strength of a tree's own operator, on either side.
  function TopLeft(e: Expr): int {
    if e.Binary? then OperatorBp(e.op).lbp
    else if e.Assign? then 5
    else if e.CatchElse? || e.CatchBlock? then 12
    else if e.Field? || e.FieldPtr? || e.Subscript? || e.Deref? || e.Call? then POSTFIX
    else CLOSED
  }

  function TopRight(e: Expr): int {
    if e.Binary? then OperatorBp(e.op).rbp
    else if e.Assign? then 4
    else if e.CatchElse? then 13
    else if e.Unary? || e.Try? then PREFIX
    else CLOSED
  }

  // No operator binds more tightly to its right than to its left by more than one.
  lemma TopLeftBound(e: Expr, b: int)
    requires b < TopRight(e) && !e.CatchBlock? && b <= POSTFIX
    ensures b <= TopLeft(e)
  {}

  lemma TopRightBound(e: Expr, b: int)
    requires b <= TopLeft(e) && b != 5 && b <= PREFIX
    ensures b <= TopRight(e)
  {}

  // In a well-grouped tree the edges never bind more weakly than the operator on top.
  lemma {:induction false} Edges(t: Cst)
    requires WellGrouped(Oleren(), t) && !t.CGroup? && !(t.CPre? && t.prefix.CastTo?) && Printable(Erase(t), false)
    ensures LeftMin(Oleren(), t) == TopLeft(Erase(t))
    ensures RightMin(Oleren(), t) == TopRight(Erase(t))
    decreases t, 0
  {
    if t.CBin? {
      BinEdges(t);
    } else if t.CAsg? {
      AsgEdges(t);
    } else if t.CElse? {
      ElseEdges(t);
    } else if t.CPre? || t.CTry? {
      RightEdge(t.inner, PREFIX);
    } else if t.CFld? || t.CPtr? || t.CSub? || t.CDeref? || t.CCall? {
      PostEdges(t);
    }
  }

  lemma {:induction false} BinEdges(t: Cst)
    requires t.CBin? && WellGrouped(Oleren(), t) && Printable(Erase(t), false)
    ensures LeftMin(Oleren(), t) == TopLeft(Erase(t)) && RightMin(Oleren(), t) == TopRight(Erase(t))
    decreases t, -1
  {
    LeftEdge(t.left, InfixBp(OP(t.op)).lbp);
    RightEdge(t.right, InfixBp(OP(t.op)).rbp);
  }

  lemma {:induction false} AsgEdges(t: Cst)
    requires t.CAsg? && WellGrouped(Oleren(), t) && Printable(Erase(t), false)
    ensures LeftMin(Oleren(), t) == TopLeft(Erase(t)) && RightMin(Oleren(), t) == TopRight(Erase(t))
    decreases t, -1
  {
    LeftEdge(t.left, 5);
    RightEdge(t.right, 4);
  }

  lemma {:induction false} ElseEdges(t: Cst)
    requires t.CElse? && WellGrouped(Oleren(), t) && Printable(Erase(t), false)
    ensures LeftMin(Oleren(), t) == TopLeft(Erase(t)) && RightMin(Oleren(), t) == TopRight(Erase(t))
    decreases t, -1
  {
    LeftEdge(t.target, 12);
    RightEdge(t.fallback, 13);
  }

  lemma {:induction false} PostEdges(t: Cst)
    requires (t.CFld? || t.CPtr? || t.CSub? || t.CDeref? || t.CCall?)
    requires WellGrouped(Oleren(), t) && Printable(Erase(t), false)
    ensures LeftMin(Oleren(), t) == TopLeft(Erase(t)) && RightMin(Oleren(), t) == TopRight(Erase(t))
    decreases t, -1
  {
    PostTarget(t);
    LeftEdge(t.target, POSTFIX);
    PostTop(t);
  }

  lemma PostTarget(t: Cst)
    requires (t.CFld? || t.CPtr? || t.CSub? || t.CDeref? || t.CCall?)
    requires WellGrouped(Oleren(), t) && Printable(Erase(t), false)
    ensures WellGrouped(Oleren(), t.target) && POSTFIX < RightMin(Oleren(), t.target)
    ensures Printable(Erase(t.target), false)
  {
    PostGrouped(t);
    PostPrintable(t);
  }

  lemma PostGrouped(t: Cst)
    requires (t.CFld? || t.CPtr? || t.CSub? || t.CDeref? || t.CCall?) && WellGrouped(Oleren(), t)
    ensures WellGrouped(Oleren(), t.target) && POSTFIX < RightMin(Oleren(), t.target)
  {
    TargetGrouped(Oleren(), t);
    assert InfixBp(PostTok(t)).lbp == POSTFIX;
  }

  function PostTok(t: Cst): Tok
    requires (t.CFld? || t.CPtr? || t.CSub? || t.CDeref? || t.CCall?)
  {
    match t
    case CFld(_, _) => DOT
    case CPtr(_, _) => ARROW
    case CSub(_, _) => LBRACKET
    case CDeref(_, f) => DerefToks(f)[0]
    case CCall(_, _, _) => LPAREN
  }

  lemma TargetGrouped(g: Grammar, t: Cst)
    requires (t.CFld? || t.CPtr? || t.CSub? || t.CDeref? || t.CCall?) && WellGrouped(g, t)
    ensures WellGrouped(g, t.target) && g.bp(PostTok(t)).lbp < RightMin(g, t.target)
  {}

  lemma PostPrintable(t: Cst)
    requires (t.CFld? || t.CPtr? || t.CSub? || t.CDeref? || t.CCall?) && Printable(Erase(t), false)
    ensures Printable(Erase(t.target), false)
  {}

  lemma PostTop(t: Cst)
    requires (t.CFld? || t.CPtr? || t.CSub? || t.CDeref? || t.CCall?)
    requires LeftMin(Oleren(), t.target) >= POSTFIX
    ensures LeftMin(Oleren(), t) == TopLeft(Erase(t)) && RightMin(Oleren(), t) == TopRight(Erase(t))
  {}

  lemma {:induction false} Edge(t: Cst)
    requires WellGrouped(Oleren(), t) && Printable(Erase(t), false)
    ensures t.CGroup? || (LeftMin(Oleren(), t) == TopLeft(Erase(t)) && RightMin(Oleren(), t) == TopRight(Erase(t)))
    ensures t.CGroup? ==> LeftMin(Oleren(), t) == CLOSED && RightMin(Oleren(), t) == CLOSED
    decreases t, 1
  {
    if !t.CGroup? {
      assert !(t.CPre? && t.prefix.CastTo?);
      Edges(t);
    }
  }

  lemma {:induction false} LeftEdge(t: Cst, b: int)
    requires WellGrouped(Oleren(), t) && Printable(Erase(t), false) && b < RightMin(Oleren(), t) && b <= POSTFIX
    ensures LeftMin(Oleren(), t) >= b
    decreases t, 2
  {
    Edge(t);
    if !t.CGroup? { TopLeftBound(Erase(t), b); }
  }

  lemma {:induction false} RightEdge(t: Cst, b: int)
    requires WellGrouped(Oleren(), t) && Printable(Erase(t), false)
    requires LeftMin(Oleren(), t) >= b && b != 5 && b <= PREFIX
    ensures RightMin(Oleren(), t) >= b
    decreases t, 2
  {
    Edge(t);
    if !t.CGroup? { TopRightBound(Erase(t), b); }
  }

  lemma MinGroupIsNoGroup(e: Expr)
    ensures !MinGroup(e).CGroup? && !(MinGroup(e).CPre? && MinGroup(e).prefix.CastTo?)
  {}

  lemma MinEdges(e: Expr)
    requires Printable(e, false)
    ensures Prints(e) && LeftMin(Oleren(), MinGroup(e)) == TopLeft(e) && RightMin(Oleren(), MinGroup(e)) == TopRight(e)
  {
    MinGroupOk(e, false);
    MinGroupIsNoGroup(e);
    Edges(MinGroup(e));
  }

  lemma {:induction false} LeftFewest(t: Cst, b: int)
    requires WellGrouped(Oleren(), t) && b < RightMin(Oleren(), t) && Printable(Erase(t), false)
    ensures Groups(GroupLeft(MinGroup(Erase(t)), b)) <= Groups(t)
    decreases t, 2
  {
    Fewest(t);
    MinEdges(Erase(t));
    Edge(t);
    if t.CGroup? { Fewest(t.inner); }
  }

  lemma {:induction false} RightFewest(t: Cst, b: int)
    requires WellGrouped(Oleren(), t) && LeftMin(Oleren(), t) >= b && Printable(Erase(t), false)
    ensures Groups(GroupRight(MinGroup(Erase(t)), b)) <= Groups(t)
    decreases t, 2
  {
    Fewest(t);
    MinEdges(Erase(t));
    Edge(t);
    if t.CGroup? { Fewest(t.inner); }
  }

  /** Any text that parses to the same tree has at least as many parentheses. */
  lemma {:induction false} Fewest(t: Cst)
    requires WellGrouped(Oleren(), t) && Printable(Erase(t), false)
    ensures Groups(MinGroup(Erase(t))) <= Groups(t)
    decreases t, 1
  {
    match t
    case CGroup(c) => Fewest(c);
    case CBin(_, _, _) => FewestBin(t);
    case CAsg(_, _, _) => FewestAsg(t);
    case CElse(_, _) => FewestElse(t);
    case CFld(_, _) => FewestPost(t);
    case CPtr(_, _) => FewestPost(t);
    case CSub(_, _) => FewestPost(t);
    case CDeref(_, _) => FewestPost(t);
    case CCall(_, _, _) => FewestCall(t);
    case CTuple(es) => FewestList(es);
    case CPre(_, _) => FewestPre(t);
    case CTry(_) => FewestPre(t);
    case _ =>
  }

  lemma {:induction false} FewestAsg(t: Cst)
    requires t.CAsg? && WellGrouped(Oleren(), t) && Printable(Erase(t), false)
    ensures Groups(MinGroup(Erase(t))) <= Groups(t)
    decreases t, 0
  {
    LeftFewest(t.left, 5);
    RightFewest(t.right, 4);
    var l, r := Erase(t.left), Erase(t.right);
    assert MinGroup(Erase(t)) == CAsg(t.asg, GroupLeft(MinGroup(l), 5), GroupRight(MinGroup(r), 4));
  }

  lemma {:induction false} FewestElse(t: Cst)
    requires t.CElse? && WellGrouped(Oleren(), t) && Printable(Erase(t), false)
    ensures Groups(MinGroup(Erase(t))) <= Groups(t)
    decreases t, 0
  {
    LeftFewest(t.target, 12);
    RightFewest(t.fallback, 13);
    var l, r := Erase(t.target), Erase(t.fallback);
    assert MinGroup(Erase(t)) == CElse(GroupLeft(MinGroup(l), 12), GroupRight(MinGroup(r), 13));
  }

  // Postfix forms differ only in what follows the target.
  lemma {:induction false} FewestPost(t: Cst)
    requires (t.CFld? || t.CPtr? || t.CSub? || t.CDeref?) && WellGrouped(Oleren(), t) && Printable(Erase(t), false)
    ensures Groups(MinGroup(Erase(t))) <= Groups(t)
    decreases t, 0
  {
    PostTarget(t);
    LeftFewest(t.target, POSTFIX);
    var c := GroupLeft(MinGroup(Erase(t.target)), POSTFIX);
    if t.CSub? {
      SubIndex(t);
      Fewest(t.index);
      assert MinGroup(Erase(t)) == CSub(c, MinGroup(Erase(t.index)));
    } else if t.CFld? {
      assert MinGroup(Erase(t)) == CFld(c, t.field);
    } else if t.CPtr? {
      assert MinGroup(Erase(t)) == CPtr(c, t.field);
    } else {
      assert MinGroup(Erase(t)) == CDeref(c, OneToken);
    }
  }

  lemma SubIndex(t: Cst)
    requires t.CSub? && WellGrouped(Oleren(), t) && Printable(Erase(t), false)
    ensures WellGrouped(Oleren(), t.index) && Printable(Erase(t.index), false)
  {}

  lemma {:induction false} FewestCall(t: Cst)
    requires t.CCall? && WellGrouped(Oleren(), t) && Printable(Erase(t), false)
    ensures Groups(MinGroup(Erase(t))) <= Groups(t)
    decreases t, 0
  {
    PostTarget(t);
    LeftFewest(t.target, POSTFIX);
    CallArgs(t);
    FewestList(t.args);
    var c := GroupLeft(MinGroup(Erase(t.target)), POSTFIX);
    assert MinGroup(Erase(t)) == CCall(c, MinGroups(EraseList(t.args)), false);
  }

  lemma CallArgs(t: Cst)
    requires t.CCall? && WellGrouped(Oleren(), t) && Printable(Erase(t), false)
    ensures WellGroupedList(Oleren(), t.args)
    ensures forall i | 0 <= i < |t.args| :: Printable(EraseList(t.args)[i], false)
  {}

  lemma {:induction false} FewestPre(t: Cst)
    requires (t.CPre? || t.CTry?) && WellGrouped(Oleren(), t) && Printable(Erase(t), false)
    ensures Groups(MinGroup(Erase(t))) <= Groups(t)
    decreases t, 0
  {
    assert !(t.CPre? && t.prefix.CastTo?);
    RightFewest(t.inner, PREFIX);
  }

  lemma {:induction false} FewestBin(t: Cst)
    requires t.CBin? && WellGrouped(Oleren(), t) && Printable(Erase(t), false)
    ensures Groups(MinGroup(Erase(t))) <= Groups(t)
    decreases t, 0
  {
    LeftFewest(t.left, InfixBp(OP(t.op)).lbp);
    RightFewest(t.right, InfixBp(OP(t.op)).rbp);
  }

  lemma {:induction false} FewestList(es: seq<Cst>)
    requires WellGroupedList(Oleren(), es)
    requires forall i | 0 <= i < |es| :: Printable(EraseList(es)[i], false)
    ensures GroupsList(MinGroups(EraseList(es))) <= GroupsList(es)
    decreases es, 0
  {
    if es != [] {
      var xs := EraseList(es);
      assert xs[0] == Erase(es[0]) && xs[1..] == EraseList(es[1..]);
      Fewest(es[0]);
      FewestList(es[1..]);
      assert MinGroups(xs)[1..] == MinGroups(xs[1..]);
    }
  }

  // ---------- associativity ----------

  /** a op1 b op2 c with two operators of one arithmetic level is (a op1 b) op2 c, whatever
      operands of a higher level stand for a, b and c. */
  lemma ArithmeticAssociatesLeft(op1: BinOp, op2: BinOp, a: Expr, b: Expr, c: Expr)
    requires Printable(a, false) && Printable(b, false) && Printable(c, false)
    requires InfixBp(OP(op1)) == InfixBp(OP(op2))
    requires var k := InfixBp(OP(op1)).rbp;
      TopLeft(a) >= k && TopLeft(b) >= k && TopLeft(c) >= k && TopRight(a) >= k && TopRight(b) >= k
    ensures var ts := Yield(MinGroup(a)) + [OP(op1)] + Yield(MinGroup(b)) + [OP(op2)] + Yield(MinGroup(c));
      var r := ParseBp(Oleren(), ts, 0);
      r.ok && r.rest == [] && Erase(r.tree) == Binary(op2, Binary(op1, a, b), c)
  {
    var e := Binary(op2, Binary(op1, a, b), c);
    NoGroupsLeft(op1, op2, a, b, c);
    PrintParse(e, false, []);
    Tokens5(Yield(MinGroup(a)), [OP(op1)], Yield(MinGroup(b)), [OP(op2)], Yield(MinGroup(c)));
  }

  lemma NoGroupsLeft(op1: BinOp, op2: BinOp, a: Expr, b: Expr, c: Expr)
    requires Printable(a, false) && Printable(b, false) && Printable(c, false)
    requires InfixBp(OP(op1)) == InfixBp(OP(op2))
    requires var k := InfixBp(OP(op1)).rbp;
      TopLeft(a) >= k && TopLeft(b) >= k && TopLeft(c) >= k && TopRight(a) >= k && TopRight(b) >= k
    ensures MinGroup(Binary(op2, Binary(op1, a, b), c)) ==
      CBin(op2, CBin(op1, MinGroup(a), MinGroup(b)), MinGroup(c))
  {
    MinEdges(a);
    MinEdges(b);
    MinEdges(c);
    MinEdges(Binary(op1, a, b));
    assert MinGroup(Binary(op1, a, b)) == CBin(op1, MinGroup(a), MinGroup(b));
  }

  lemma Tokens5(a: seq<Tok>, b: seq<Tok>, c: seq<Tok>, d: seq<Tok>, e: seq<Tok>)
    ensures (a + b + c) + d + e + [] == a + b + c + d + e
  {}

  /** x = y = e assigns to y first. */
  lemma AssignmentAssociatesRight(op1: AsgOp, op2: AsgOp, x: string, y: string, e: Expr)
    requires Printable(e, false)
    ensures var ts := [ID(x), ASG(op1), ID(y), ASG(op2)] + Yield(MinGroup(e));
      var r := ParseBp(Oleren(), ts, 0);
      r.ok && r.rest == [] && Erase(r.tree) == Assign(op1, Ident(x), Assign(op2, Ident(y), e))
  {
    var inner := Assign(op2, Ident(y), e);
    var outer := Assign(op1, Ident(x), inner);
    MinEdges(e);
    MinEdges(inner);
    assert TopLeft(e) >= 5;
    assert MinGroup(inner) == CAsg(op2, CId(y), MinGroup(e));
    assert MinGroup(outer) == CAsg(op1, CId(x), MinGroup(inner));
    PrintParse(outer, false, []);
    ChainToks(op1, op2, x, y, MinGroup(e));
  }

  lemma ChainToks(op1: AsgOp, op2: AsgOp, x: string, y: string, t: Cst)
    ensures Yield(CAsg(op1, CId(x), CAsg(op2, CId(y), t))) + [] == [ID(x), ASG(op1), ID(y), ASG(op2)] + Yield(t)
  {
    assert Yield(CAsg(op2, CId(y), t)) == [ID(y)] + [ASG(op2)] + Yield(t);
  }
}
