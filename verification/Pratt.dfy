/** The operator-precedence parser of src/parser/parser.c as a function on token lists,
    with an independent definition of the trees it can build. */
module Pratt {
  import opened Ast
  import opened Options
  import opened Seqs

  // A block in braces after `catch` is one token here: its parser is another one.  NEWLINE
  // is a line break or a semicolon, between which expressions make no difference.
  datatype Tok =
    | INT(n: int) | ID(name: string) | OP(op: BinOp) | BANG | ASG(asg: AsgOp)
    | LPAREN | RPAREN | LBRACKET | RBRACKET | COMMA | DOT | ARROW | DOTDEREF
    | TRY | CATCH | ERR | BLOCK(body: Block) | NEWLINE | CAST

  datatype Bp = Bp(lbp: int, rbp: int)

  datatype Prefix = Pre(op: PreOp) | CastTo

  // The infix table, and the tokens that are prefix operators.
  datatype Grammar = Grammar(bp: Tok -> Bp, prefix: Tok -> Option<Prefix>)

  // Trees with the parentheses that were written.  CBad stands for a missing expression.
  datatype Cst =
    | CBad
    | CInt(n: int)
    | CId(name: string)
    | CErr(variant: string)
    | CGroup(inner: Cst)
    | CTuple(elems: seq<Cst>)
    | CPre(prefix: Prefix, inner: Cst)
    | CTry(inner: Cst)
    | CBin(op: BinOp, left: Cst, right: Cst)
    | CAsg(asg: AsgOp, left: Cst, right: Cst)
    | CFld(target: Cst, field: string)
    | CPtr(target: Cst, field: string)
    | CSub(target: Cst, index: Cst)
    | CDeref(target: Cst, form: DerefForm)
    | CCall(target: Cst, args: seq<Cst>, trailing: bool)
    | CElse(target: Cst, fallback: Cst)
    | CCatch(target: Cst, errVar: Option<string>, newlines: nat, body: Block)

  // .*   . *   . ^
  datatype DerefForm = OneToken | DotStar | DotCaret

  const PREFIX := 100
  const POSTFIX := 110
  const CLOSED := 1000

  // ---------- the parser ----------

  datatype Parsed = Parsed(tree: Cst, rest: seq<Tok>, ok: bool)

  datatype ParsedList = ParsedList(trees: seq<Cst>, trailing: bool, rest: seq<Tok>, ok: bool)

  function Next(ts: seq<Tok>): (r: seq<Tok>)
    ensures |r| <= |ts| && (ts != [] ==> |r| < |ts|)
  {
    if ts == [] then [] else ts[1..]
  }

  predicate At(ts: seq<Tok>, t: Tok) { ts != [] && ts[0] == t }

  function NameAt(ts: seq<Tok>): string { if ts != [] && ts[0].ID? then ts[0].name else "?" }

  predicate IdAt(ts: seq<Tok>) { ts != [] && ts[0].ID? }

  function Lbp(g: Grammar, ts: seq<Tok>): int { if ts == [] then -1 else g.bp(ts[0]).lbp }

  function SkipNewlines(ts: seq<Tok>): (r: seq<Tok>)
    ensures |r| <= |ts|
  {
    if At(ts, NEWLINE) then SkipNewlines(ts[1..]) else ts
  }

  function ParseBp(g: Grammar, ts: seq<Tok>, m: int): (r: Parsed)
    ensures |r.rest| <= |ts| && (ts != [] ==> |r.rest| < |ts|)
    decreases |ts|, 2
  {
    var n := ParseNud(g, ts);
    if n.tree.CBad? then n else ParseLed(g, n.tree, n.rest, m, n.ok)
  }

  function ParseNud(g: Grammar, ts: seq<Tok>): (r: Parsed)
    ensures |r.rest| <= |ts| && (ts != [] ==> |r.rest| < |ts|)
    decreases |ts|, 1
  {
    if ts == [] then Parsed(CBad, ts, false)
    else if g.prefix(ts[0]).Some? then
      var r := ParseBp(g, ts[1..], PREFIX);
      Parsed(CPre(g.prefix(ts[0]).value, r.tree), r.rest, r.ok)
    else
      match ts[0]
      case INT(n) => Parsed(CInt(n), ts[1..], true)
      case ID(x) => Parsed(CId(x), ts[1..], true)
      case LPAREN =>
        var r := ParseBp(g, ts[1..], 0);
        if At(r.rest, COMMA) then
          var l := ParseElems(g, r.rest);
          Parsed(CTuple([r.tree] + l.trees), Next(l.rest), r.ok && l.ok && At(l.rest, RPAREN))
        else Parsed(CGroup(r.tree), Next(r.rest), r.ok && At(r.rest, RPAREN))
      case TRY =>
        var r := ParseBp(g, ts[1..], PREFIX);
        Parsed(CTry(r.tree), r.rest, r.ok)
      case ERR =>
        var t1 := ts[1..];
        var t2 := Next(t1);
        Parsed(CErr(NameAt(t2)), Next(t2), At(t1, DOT) && IdAt(t2))
      case _ => Parsed(CBad, ts[1..], false)
  }

  // , e , e ...
  function ParseElems(g: Grammar, ts: seq<Tok>): (r: ParsedList)
    ensures |r.rest| <= |ts|
    decreases |ts|, 3
  {
    if !At(ts, COMMA) then ParsedList([], false, ts, true)
    else
      var r := ParseBp(g, ts[1..], 0);
      var l := ParseElems(g, r.rest);
      ParsedList([r.tree] + l.trees, false, l.rest, r.ok && l.ok)
  }

  // Arguments up to the closing parenthesis; a comma may precede it.
  function ParseArgs(g: Grammar, ts: seq<Tok>): (r: ParsedList)
    ensures |r.rest| <= |ts|
    decreases |ts|, 3
  {
    if ts == [] || ts[0] == RPAREN then ParsedList([], false, ts, true)
    else
      var r := ParseBp(g, ts, 0);
      if At(r.rest, COMMA) then
        var l := ParseArgs(g, r.rest[1..]);
        ParsedList([r.tree] + l.trees, l.trees == [] || l.trailing, l.rest, r.ok && l.ok)
      else ParsedList([r.tree], false, r.rest, r.ok)
  }

  // One turn of the loop over infix and postfix operators.
  function LedStep(g: Grammar, left: Cst, ts: seq<Tok>): (r: Parsed)
    requires ts != []
    ensures |r.rest| < |ts|
    decreases |ts|, 0
  {
    var t1 := ts[1..];
    match ts[0]
    case LPAREN =>
      var l := ParseArgs(g, t1);
      Parsed(CCall(left, l.trees, l.trailing), Next(l.rest), l.ok && At(l.rest, RPAREN))
    case LBRACKET =>
      var r := ParseBp(g, t1, 0);
      Parsed(CSub(left, r.tree), Next(r.rest), r.ok && At(r.rest, RBRACKET))
    case DOTDEREF => Parsed(CDeref(left, OneToken), t1, true)
    case DOT =>
      if At(t1, OP(Star)) then Parsed(CDeref(left, DotStar), t1[1..], true)
      else if At(t1, OP(BitXor)) then Parsed(CDeref(left, DotCaret), t1[1..], true)
      else Parsed(CFld(left, NameAt(t1)), Next(t1), IdAt(t1))
    case ARROW => Parsed(CPtr(left, NameAt(t1)), Next(t1), IdAt(t1))
    case CATCH =>
      if At(t1, OP(BitOr)) then
        var t2 := t1[1..];
        var t3 := Next(t2);
        var t4 := Next(t3);
        var t5 := SkipNewlines(t4);
        var b := t5 != [] && t5[0].BLOCK?;
        Parsed(CCatch(left, Some(NameAt(t2)), |t4| - |t5|, if b then t5[0].body else []), Next(t5),
               IdAt(t2) && At(t3, OP(BitOr)) && b)
      else if t1 != [] && t1[0].BLOCK? then Parsed(CCatch(left, None, 0, t1[0].body), t1[1..], true)
      else
        var r := ParseBp(g, t1, 13);
        Parsed(CElse(left, r.tree), r.rest, r.ok)
    case ASG(op) =>
      var r := ParseBp(g, t1, g.bp(ts[0]).rbp);
      Parsed(CAsg(op, left, r.tree), r.rest, r.ok)
    case OP(op) =>
      var r := ParseBp(g, t1, g.bp(ts[0]).rbp);
      Parsed(CBin(op, left, r.tree), r.rest, r.ok)
    case _ => Parsed(left, t1, false)  // not an infix token of any table
  }

  function ParseLed(g: Grammar, left: Cst, ts: seq<Tok>, m: int, ok: bool): (r: Parsed)
    ensures |r.rest| <= |ts|
    decreases |ts|, 1
  {
    if ts == [] || Lbp(g, ts) < m then Parsed(left, ts, ok)
    else
      var s := LedStep(g, left, ts);
      ParseLed(g, s.tree, s.rest, m, ok && s.ok)
  }

  // ---------- trees and their tokens ----------

  function DerefToks(f: DerefForm): seq<Tok> {
    match f
    case OneToken => [DOTDEREF]
    case DotStar => [DOT, OP(Star)]
    case DotCaret => [DOT, OP(BitXor)]
  }

  function PrefixTok(p: Prefix): Tok {
    match p
    case Pre(Neg) => OP(Minus)
    case Pre(Not) => BANG
    case Pre(Addr) => OP(BitAnd)
    case Pre(RawDeref) => OP(Star)
    case Pre(SmartDeref) => OP(BitXor)
    case CastTo => CAST
  }

  function Newlines(n: nat): seq<Tok> { seq(n, _ => NEWLINE) }

  function Yield(t: Cst): seq<Tok> {
    match t
    case CBad => []
    case CInt(n) => [INT(n)]
    case CId(x) => [ID(x)]
    case CErr(v) => [ERR, DOT, ID(v)]
    case CGroup(c) => [LPAREN] + Yield(c) + [RPAREN]
    case CTuple(es) => [LPAREN] + YieldList(es) + [RPAREN]
    case CPre(p, c) => [PrefixTok(p)] + Yield(c)
    case CTry(c) => [TRY] + Yield(c)
    case CBin(op, l, r) => Yield(l) + [OP(op)] + Yield(r)
    case CAsg(op, l, r) => Yield(l) + [ASG(op)] + Yield(r)
    case CFld(c, f) => Yield(c) + [DOT, ID(f)]
    case CPtr(c, f) => Yield(c) + [ARROW, ID(f)]
    case CSub(c, i) => Yield(c) + [LBRACKET] + Yield(i) + [RBRACKET]
    case CDeref(c, f) => Yield(c) + DerefToks(f)
    case CCall(c, es, trailing) =>
      Yield(c) + [LPAREN] + YieldList(es) + (if trailing then [COMMA] else []) + [RPAREN]
    case CElse(c, f) => Yield(c) + [CATCH] + Yield(f)
    case CCatch(c, None, _, b) => Yield(c) + [CATCH, BLOCK(b)]
    case CCatch(c, Some(x), n, b) =>
      Yield(c) + [CATCH, OP(BitOr), ID(x), OP(BitOr)] + Newlines(n) + [BLOCK(b)]
  }

  function YieldList(es: seq<Cst>): seq<Tok> {
    if es == [] then []
    else if |es| == 1 then Yield(es[0])
    else Yield(es[0]) + [COMMA] + YieldList(es[1..])
  }

  function Min(a: int, b: int): int { if a < b then a else b }

  // The weakest operator along the left edge, outside parentheses.
  function LeftMin(g: Grammar, t: Cst): int {
    match t
    case CBin(op, l, _) => Min(g.bp(OP(op)).lbp, LeftMin(g, l))
    case CAsg(op, l, _) => Min(g.bp(ASG(op)).lbp, LeftMin(g, l))
    case CElse(l, _) => Min(g.bp(CATCH).lbp, LeftMin(g, l))
    case CCatch(l, _, _, _) => Min(g.bp(CATCH).lbp, LeftMin(g, l))
    case CFld(l, _) => Min(g.bp(DOT).lbp, LeftMin(g, l))
    case CPtr(l, _) => Min(g.bp(ARROW).lbp, LeftMin(g, l))
    case CSub(l, _) => Min(g.bp(LBRACKET).lbp, LeftMin(g, l))
    case CDeref(l, OneToken) => Min(g.bp(DOTDEREF).lbp, LeftMin(g, l))
    case CDeref(l, _) => Min(g.bp(DOT).lbp, LeftMin(g, l))
    case CCall(l, _, _) => Min(g.bp(LPAREN).lbp, LeftMin(g, l))
    case _ => CLOSED
  }

  // The weakest operand level left open along the right edge.
  function RightMin(g: Grammar, t: Cst): int {
    match t
    case CBin(op, _, r) => Min(g.bp(OP(op)).rbp, RightMin(g, r))
    case CAsg(op, _, r) => Min(g.bp(ASG(op)).rbp, RightMin(g, r))
    case CElse(_, r) => Min(13, RightMin(g, r))
    case CPre(_, r) => Min(PREFIX, RightMin(g, r))
    case CTry(r) => Min(PREFIX, RightMin(g, r))
    case _ => CLOSED
  }

  // Every operand that is not in parentheses binds as tightly as its place demands.
  predicate WellGrouped(g: Grammar, t: Cst) {
    match t
    case CBad => false
    case CInt(_) => true
    case CId(_) => true
    case CErr(_) => true
    case CGroup(c) => WellGrouped(g, c) && LeftMin(g, c) >= 0
    case CTuple(es) => |es| >= 2 && WellGroupedList(g, es)
    case CPre(p, c) => g.prefix(PrefixTok(p)) == Some(p) && WellGrouped(g, c) && LeftMin(g, c) >= PREFIX
    case CTry(c) => WellGrouped(g, c) && LeftMin(g, c) >= PREFIX
    case CBin(op, l, r) =>
      WellGrouped(g, l) && g.bp(OP(op)).lbp < RightMin(g, l) && WellGrouped(g, r) && LeftMin(g, r) >= g.bp(OP(op)).rbp
    case CAsg(op, l, r) =>
      WellGrouped(g, l) && g.bp(ASG(op)).lbp < RightMin(g, l) && WellGrouped(g, r) && LeftMin(g, r) >= g.bp(ASG(op)).rbp
    case CElse(l, r) =>
      WellGrouped(g, l) && g.bp(CATCH).lbp < RightMin(g, l) && WellGrouped(g, r) && LeftMin(g, r) >= 13
    case CCatch(l, x, n, _) => WellGrouped(g, l) && g.bp(CATCH).lbp < RightMin(g, l) && (x.None? ==> n == 0)
    case CFld(l, _) => WellGrouped(g, l) && g.bp(DOT).lbp < RightMin(g, l)
    case CPtr(l, _) => WellGrouped(g, l) && g.bp(ARROW).lbp < RightMin(g, l)
    case CSub(l, i) =>
      WellGrouped(g, l) && g.bp(LBRACKET).lbp < RightMin(g, l) && WellGrouped(g, i) && LeftMin(g, i) >= 0
    case CDeref(l, f) => WellGrouped(g, l) && g.bp(DerefToks(f)[0]).lbp < RightMin(g, l)
    case CCall(l, es, trailing) =>
      WellGrouped(g, l) && g.bp(LPAREN).lbp < RightMin(g, l) && WellGroupedList(g, es) && (trailing ==> es != [])
  }

  predicate WellGroupedList(g: Grammar, es: seq<Cst>) {
    forall i | 0 <= i < |es| :: WellGrouped(g, es[i]) && LeftMin(g, es[i]) >= 0
  }

  // Prefix operators and infix operators are what they are in the language; the table
  // only decides how tightly they bind.
  predicate SaneTok(g: Grammar, t: Tok) {
    && (g.prefix(t).Some? ==> t == PrefixTok(g.prefix(t).value))
    && (g.bp(t).lbp >= 0 ==>
         && (t.OP? || t.ASG? || t.CATCH? || t.LPAREN? || t.LBRACKET? || t.DOT? || t.ARROW? || t.DOTDEREF?)
         && g.bp(t).lbp <= POSTFIX && 0 <= g.bp(t).rbp <= CLOSED)
  }

  ghost predicate Sensible(g: Grammar) {
    forall t :: SaneTok(g, t)
  }

  lemma Weak(g: Grammar, ts: seq<Tok>)
    requires Sensible(g)
    ensures Lbp(g, ts) <= POSTFIX
    ensures Lbp(g, ts) >= 0 ==> 0 <= g.bp(ts[0]).rbp <= CLOSED
  {
    if ts != [] { assert SaneTok(g, ts[0]); }
  }

  // The parser stops here: the next token binds more weakly than the level and than
  // everything still open on the right edge of the tree.
  predicate Stops(g: Grammar, t: Cst, rest: seq<Tok>, m: int) {
    rest == [] || (Lbp(g, rest) < m && Lbp(g, rest) < RightMin(g, t))
  }

  predicate Open(g: Grammar, t: Cst, rest: seq<Tok>) {
    rest == [] || Lbp(g, rest) < RightMin(g, t)
  }

  // ---------- soundness ----------

  /** Whatever the parser accepts is a well-grouped tree whose tokens are exactly those
      consumed, and the parser stops at the first token too weak for its level. */
  lemma {:induction false} ParseSound(g: Grammar, ts: seq<Tok>, m: int)
    requires Sensible(g) && 0 <= m <= CLOSED
    ensures var r := ParseBp(g, ts, m);
      r.ok ==>
        && ts == Yield(r.tree) + r.rest
        && WellGrouped(g, r.tree) && LeftMin(g, r.tree) >= m && Stops(g, r.tree, r.rest, m)
    decreases |ts|, 2
  {
    var n := ParseNud(g, ts);
    NudSound(g, ts);
    Weak(g, n.rest);
    if !n.tree.CBad? && ParseBp(g, ts, m).ok {
      LedKeepsOk(g, n.tree, n.rest, m, n.ok);
      LedSound(g, n.tree, n.rest, m);
    }
  }

  lemma {:induction false} LedKeepsOk(g: Grammar, left: Cst, ts: seq<Tok>, m: int, ok: bool)
    ensures var r := ParseLed(g, left, ts, m, ok);
      r == ParseLed(g, left, ts, m, true).(ok := ok && ParseLed(g, left, ts, m, true).ok)
    decreases |ts|
  {
    if ts != [] && Lbp(g, ts) >= m {
      var s := LedStep(g, left, ts);
      LedKeepsOk(g, s.tree, s.rest, m, ok && s.ok);
      LedKeepsOk(g, s.tree, s.rest, m, s.ok);
    }
  }

  // A tree that can stand where level m is demanded and before `rest`.
  predicate Fits(g: Grammar, t: Cst, rest: seq<Tok>, m: int) {
    WellGrouped(g, t) && LeftMin(g, t) >= m && Open(g, t, rest)
  }

  lemma {:induction false} NudSound(g: Grammar, ts: seq<Tok>)
    requires Sensible(g)
    ensures var r := ParseNud(g, ts);
      r.ok ==> ts == Yield(r.tree) + r.rest && Fits(g, r.tree, r.rest, CLOSED)
    decreases |ts|, 1
  {
    var r := ParseNud(g, ts);
    if r.ok {
      Weak(g, r.rest);
      assert SaneTok(g, ts[0]);
      assert ts == [ts[0]] + ts[1..];
      if g.prefix(ts[0]).Some? || ts[0].TRY? {
        ParseSound(g, ts[1..], PREFIX);
      } else if ts[0].LPAREN? {
        ParenSound(g, ts);
      } else if ts[0].ERR? {
        assert ts == [ts[0], ts[1], ts[2]] + ts[3..];
      }
    }
  }

  lemma {:induction false} ParenSound(g: Grammar, ts: seq<Tok>)
    requires Sensible(g) && At(ts, LPAREN) && g.prefix(LPAREN).None? && ParseNud(g, ts).ok
    ensures var r := ParseNud(g, ts);
      ts == Yield(r.tree) + r.rest && Fits(g, r.tree, r.rest, CLOSED)
    decreases |ts|, 0
  {
    var t1 := ts[1..];
    var r := ParseBp(g, t1, 0);
    ParseSound(g, t1, 0);
    HeadTail(ts);
    if At(r.rest, COMMA) {
      var l := ParseElems(g, r.rest);
      ElemsSound(g, r.rest);
      TupleYield(r.tree, l.trees);
      Weak(g, l.rest[1..]);
      HeadTail(l.rest);
      TupleTree(g, r.tree, l.trees, l.rest[1..]);
    } else {
      Weak(g, r.rest[1..]);
      HeadTail(r.rest);
      GroupTree(g, r.tree, r.rest[1..]);
    }
  }

  lemma GroupTree(g: Grammar, e: Cst, rest: seq<Tok>)
    requires WellGrouped(g, e) && LeftMin(g, e) >= 0 && Lbp(g, rest) <= POSTFIX
    ensures [LPAREN] + (Yield(e) + ([RPAREN] + rest)) == Yield(CGroup(e)) + rest && Fits(g, CGroup(e), rest, CLOSED)
  {}

  lemma TupleTree(g: Grammar, e: Cst, es: seq<Cst>, rest: seq<Tok>)
    requires es != [] && WellGrouped(g, e) && LeftMin(g, e) >= 0 && WellGroupedList(g, es) && Lbp(g, rest) <= POSTFIX
    ensures var t := CTuple([e] + es);
      Yield(t) + rest == [LPAREN] + (Yield(e) + (ElemsYield(es) + ([RPAREN] + rest))) && Fits(g, t, rest, CLOSED)
  {
    TupleYield(e, es);
    var l := [e] + es;
    assert WellGroupedList(g, l) && |l| >= 2;
    Join4([LPAREN], Yield(e), ElemsYield(es), [RPAREN], rest);
  }

  lemma Join4(a: seq<Tok>, b: seq<Tok>, c: seq<Tok>, d: seq<Tok>, e: seq<Tok>)
    ensures a + (b + (c + (d + e))) == a + (b + c) + d + e
  {}

  function ElemsYield(es: seq<Cst>): seq<Tok> {
    if es == [] then [] else [COMMA] + Yield(es[0]) + ElemsYield(es[1..])
  }

  lemma {:induction false} TupleYield(e: Cst, es: seq<Cst>)
    ensures YieldList([e] + es) == Yield(e) + ElemsYield(es)
    decreases |es|
  {
    assert ([e] + es)[1..] == es;
    if es != [] {
      TupleYield(es[0], es[1..]);
      assert [es[0]] + es[1..] == es;
    }
  }

  lemma {:induction false} ElemsSound(g: Grammar, ts: seq<Tok>)
    requires Sensible(g)
    ensures var l := ParseElems(g, ts);
      l.ok ==> ts == ElemsYield(l.trees) + l.rest && WellGroupedList(g, l.trees) && (At(ts, COMMA) ==> l.trees != [])
    decreases |ts|, 3
  {
    if At(ts, COMMA) && ParseElems(g, ts).ok {
      ParseSound(g, ts[1..], 0);
      var r := ParseBp(g, ts[1..], 0);
      ElemsSound(g, r.rest);
      var l := ParseElems(g, r.rest);
      ElemsJoin(r.tree, l.trees, l.rest);
      assert ts == [COMMA] + ts[1..];
    }
  }

  lemma ElemsJoin(e: Cst, es: seq<Cst>, rest: seq<Tok>)
    ensures [COMMA] + (Yield(e) + (ElemsYield(es) + rest)) == ElemsYield([e] + es) + rest
  {
    assert ([e] + es)[1..] == es;
  }

  function ArgsYield(es: seq<Cst>, trailing: bool): seq<Tok> {
    YieldList(es) + if trailing then [COMMA] else []
  }

  lemma {:induction false} ArgsSound(g: Grammar, ts: seq<Tok>)
    requires Sensible(g)
    ensures var l := ParseArgs(g, ts);
      l.ok ==>
        && ts == ArgsYield(l.trees, l.trailing) + l.rest
        && WellGroupedList(g, l.trees) && (l.trailing ==> l.trees != [])
    decreases |ts|, 3
  {
    if ts != [] && ts[0] != RPAREN && ParseArgs(g, ts).ok {
      ParseSound(g, ts, 0);
      var r := ParseBp(g, ts, 0);
      if At(r.rest, COMMA) {
        ArgsSound(g, r.rest[1..]);
        var l := ParseArgs(g, r.rest[1..]);
        HeadTail(r.rest);
        ArgsJoin(r.tree, l.trees, l.trailing, l.rest);
      }
    }
  }

  lemma ArgsJoin(e: Cst, es: seq<Cst>, trailing: bool, rest: seq<Tok>)
    requires trailing ==> es != []
    ensures Yield(e) + ([COMMA] + (ArgsYield(es, trailing) + rest)) ==
      ArgsYield([e] + es, es == [] || trailing) + rest
  {
    ConsTail(e, es);
    if es == [] {
      AppNil(Yield(e));
      AppNil(rest);
      Assoc(Yield(e), [COMMA], rest);
    } else {
      ArgsGlue(Yield(e), YieldList(es), if trailing then [COMMA] else [], rest);
    }
  }

  lemma ArgsGlue(y: seq<Tok>, l: seq<Tok>, t: seq<Tok>, rest: seq<Tok>)
    ensures y + ([COMMA] + (l + t + rest)) == y + [COMMA] + l + t + rest
  {
  }

  lemma {:induction false} LedSound(g: Grammar, left: Cst, ts: seq<Tok>, m: int)
    requires Sensible(g) && m >= 0 && Fits(g, left, ts, m)
    ensures var r := ParseLed(g, left, ts, m, true);
      r.ok ==>
        && Yield(left) + ts == Yield(r.tree) + r.rest
        && WellGrouped(g, r.tree) && LeftMin(g, r.tree) >= m && Stops(g, r.tree, r.rest, m)
    decreases |ts|, 1
  {
    if ts != [] && Lbp(g, ts) >= m && ParseLed(g, left, ts, m, true).ok {
      var s := LedStep(g, left, ts);
      LedKeepsOk(g, s.tree, s.rest, m, s.ok);
      StepSound(g, left, ts, m);
      LedSound(g, s.tree, s.rest, m);
    }
  }

  ghost predicate StepOk(g: Grammar, left: Cst, ts: seq<Tok>, m: int, s: Parsed) {
    Yield(left) + ts == Yield(s.tree) + s.rest && Fits(g, s.tree, s.rest, m)
  }

  lemma {:induction false} StepSound(g: Grammar, left: Cst, ts: seq<Tok>, m: int)
    requires Sensible(g) && ts != [] && Lbp(g, ts) >= m >= 0 && Fits(g, left, ts, m)
    requires LedStep(g, left, ts).ok
    ensures StepOk(g, left, ts, m, LedStep(g, left, ts))
    decreases |ts|, 0
  {
    Weak(g, ts);
    HeadTail(ts);
    if ts[0].LPAREN? {
      CallSound(g, left, ts, m);
    } else if ts[0].LBRACKET? {
      SubSound(g, left, ts, m);
    } else if ts[0].CATCH? {
      CatchSound(g, left, ts, m);
    } else if ts[0].OP? || ts[0].ASG? {
      var rbp := g.bp(ts[0]).rbp;
      ParseSound(g, ts[1..], rbp);
      var r := ParseBp(g, ts[1..], rbp);
      BinTree(g, left, ts[0], r.tree, r.rest, m);
    } else {
      FieldSound(g, left, ts, m);
    }
  }

  lemma {:induction false} CallSound(g: Grammar, left: Cst, ts: seq<Tok>, m: int)
    requires Sensible(g) && ts != [] && Lbp(g, ts) >= m >= 0 && ts[0].LPAREN? && Fits(g, left, ts, m)
    requires LedStep(g, left, ts).ok
    ensures StepOk(g, left, ts, m, LedStep(g, left, ts))
    decreases |ts|, -1
  {
    ArgsSound(g, ts[1..]);
    var l := ParseArgs(g, ts[1..]);
    Weak(g, l.rest[1..]);
    HeadTail(ts);
    HeadTail(l.rest);
    CallTree(g, left, l.trees, l.trailing, l.rest[1..], m);
  }

  lemma {:induction false} SubSound(g: Grammar, left: Cst, ts: seq<Tok>, m: int)
    requires Sensible(g) && ts != [] && Lbp(g, ts) >= m >= 0 && ts[0].LBRACKET? && Fits(g, left, ts, m)
    requires LedStep(g, left, ts).ok
    ensures StepOk(g, left, ts, m, LedStep(g, left, ts))
    decreases |ts|, -1
  {
    ParseSound(g, ts[1..], 0);
    var r := ParseBp(g, ts[1..], 0);
    Weak(g, r.rest[1..]);
    HeadTail(ts);
    HeadTail(r.rest);
    SubTree(g, left, r.tree, r.rest[1..], m);
  }

  lemma CallTree(g: Grammar, left: Cst, es: seq<Cst>, trailing: bool, rest: seq<Tok>, m: int)
    requires Fits(g, left, [LPAREN], m) && m <= g.bp(LPAREN).lbp
    requires WellGroupedList(g, es) && (trailing ==> es != []) && Lbp(g, rest) <= POSTFIX
    ensures StepOk(g, left, [LPAREN] + (ArgsYield(es, trailing) + ([RPAREN] + rest)), m,
                   Parsed(CCall(left, es, trailing), rest, true))
  {}

  lemma SubTree(g: Grammar, left: Cst, i: Cst, rest: seq<Tok>, m: int)
    requires Fits(g, left, [LBRACKET], m) && m <= g.bp(LBRACKET).lbp
    requires WellGrouped(g, i) && LeftMin(g, i) >= 0 && Lbp(g, rest) <= POSTFIX
    ensures StepOk(g, left, [LBRACKET] + (Yield(i) + ([RBRACKET] + rest)), m, Parsed(CSub(left, i), rest, true))
  {}

  function BinCst(t: Tok, l: Cst, r: Cst): Cst
    requires t.OP? || t.ASG?
  {
    if t.OP? then CBin(t.op, l, r) else CAsg(t.asg, l, r)
  }

  lemma BinTree(g: Grammar, left: Cst, t: Tok, right: Cst, rest: seq<Tok>, m: int)
    requires (t.OP? || t.ASG?) && Fits(g, left, [t], m) && m <= g.bp(t).lbp
    requires WellGrouped(g, right) && LeftMin(g, right) >= g.bp(t).rbp && Stops(g, right, rest, g.bp(t).rbp)
    ensures StepOk(g, left, [t] + (Yield(right) + rest), m, Parsed(BinCst(t, left, right), rest, true))
  {
    Between(Yield(left), t, Yield(right), rest);
  }

  lemma Between(a: seq<Tok>, t: Tok, b: seq<Tok>, rest: seq<Tok>)
    ensures a + ([t] + (b + rest)) == a + [t] + b + rest
  {}

  lemma ElseTree(g: Grammar, left: Cst, right: Cst, rest: seq<Tok>, m: int)
    requires Fits(g, left, [CATCH], m) && m <= g.bp(CATCH).lbp
    requires WellGrouped(g, right) && LeftMin(g, right) >= 13 && Stops(g, right, rest, 13)
    ensures StepOk(g, left, [CATCH] + (Yield(right) + rest), m, Parsed(CElse(left, right), rest, true))
  {
    Between(Yield(left), CATCH, Yield(right), rest);
  }

  // Postfix operators of one or two tokens.
  lemma PostTree(g: Grammar, left: Cst, ts: seq<Tok>, t: Cst, rest: seq<Tok>, m: int)
    requires ts != [] && Fits(g, left, ts, m) && m <= g.bp(ts[0]).lbp && Lbp(g, rest) <= POSTFIX
    requires || (t.CFld? && t.target == left && ts == [DOT, ID(t.field)])
             || (t.CPtr? && t.target == left && ts == [ARROW, ID(t.field)])
             || (t.CDeref? && t.target == left && ts == DerefToks(t.form))
             || (t.CCatch? && t.target == left && t.errVar.None? && t.newlines == 0 && ts == [CATCH, BLOCK(t.body)])
    ensures StepOk(g, left, ts + rest, m, Parsed(t, rest, true))
  {}

  lemma FieldSound(g: Grammar, left: Cst, ts: seq<Tok>, m: int)
    requires Sensible(g) && ts != [] && Lbp(g, ts) >= m >= 0 && Fits(g, left, ts, m)
    requires LedStep(g, left, ts).ok && (ts[0].DOT? || ts[0].ARROW? || ts[0].DOTDEREF?)
    ensures StepOk(g, left, ts, m, LedStep(g, left, ts))
  {
    var s := LedStep(g, left, ts);
    Weak(g, s.rest);
    if ts[0].DOTDEREF? {
      assert ts == [DOTDEREF] + s.rest;
      PostTree(g, left, [DOTDEREF], s.tree, s.rest, m);
    } else {
      assert ts == [ts[0], ts[1]] + s.rest;
      PostTree(g, left, [ts[0], ts[1]], s.tree, s.rest, m);
    }
  }

  lemma {:induction false} CatchSound(g: Grammar, left: Cst, ts: seq<Tok>, m: int)
    requires Sensible(g) && ts != [] && Lbp(g, ts) >= m >= 0 && ts[0].CATCH? && Fits(g, left, ts, m)
    requires LedStep(g, left, ts).ok
    ensures StepOk(g, left, ts, m, LedStep(g, left, ts))
    decreases |ts|, -1
  {
    var t1 := ts[1..];
    assert ts == [CATCH] + t1;
    if At(t1, OP(BitOr)) {
      CatchVarSound(g, left, ts, m);
    } else if t1 != [] && t1[0].BLOCK? {
      var s := LedStep(g, left, ts);
      Weak(g, s.rest);
      assert ts == [CATCH, t1[0]] + s.rest;
      PostTree(g, left, [CATCH, t1[0]], s.tree, s.rest, m);
    } else {
      ParseSound(g, t1, 13);
      var r := ParseBp(g, t1, 13);
      ElseTree(g, left, r.tree, r.rest, m);
    }
  }

  lemma CatchVarSound(g: Grammar, left: Cst, ts: seq<Tok>, m: int)
    requires Sensible(g) && Fits(g, left, ts, m) && Lbp(g, ts) >= m
    requires |ts| >= 2 && ts[0].CATCH? && ts[1] == OP(BitOr) && LedStep(g, left, ts).ok
    ensures StepOk(g, left, ts, m, LedStep(g, left, ts))
  {
    CatchVarParts(g, left, ts);
    var t5 := SkipNewlines(ts[4..]);
    SkipYield(ts[4..]);
    Weak(g, t5[1..]);
    var n := |ts| - 4 - |t5|;
    FourFirst(ts);
    CatchTree(g, left, ts[2].name, n, t5[0].body, t5[1..], m);
    HeadTail(t5);
  }

  lemma FourFirst(ts: seq<Tok>)
    requires |ts| >= 4
    ensures ts == [ts[0], ts[1], ts[2], ts[3]] + ts[4..]
  {}

  lemma CatchVarParts(g: Grammar, left: Cst, ts: seq<Tok>)
    requires |ts| >= 2 && ts[0].CATCH? && ts[1] == OP(BitOr) && LedStep(g, left, ts).ok
    ensures |ts| >= 4 && ts[2].ID? && ts[3] == OP(BitOr)
    ensures var t5 := SkipNewlines(ts[4..]);
      && t5 != [] && t5[0].BLOCK?
      && LedStep(g, left, ts) == Parsed(CCatch(left, Some(ts[2].name), |ts| - 4 - |t5|, t5[0].body), t5[1..], true)
  {
    var t1 := ts[1..];
    var t2 := t1[1..];
    assert t2 != [] && t2[0] == ts[2];
    var t3 := t2[1..];
    assert t3 != [] && t3[0] == ts[3];
    assert t3[1..] == ts[4..];
  }

  lemma CatchTree(g: Grammar, left: Cst, x: string, n: nat, b: Block, rest: seq<Tok>, m: int)
    requires Fits(g, left, [CATCH], m) && m <= g.bp(CATCH).lbp && Lbp(g, rest) <= POSTFIX
    ensures StepOk(g, left, [CATCH, OP(BitOr), ID(x), OP(BitOr)] + (Newlines(n) + ([BLOCK(b)] + rest)), m,
                   Parsed(CCatch(left, Some(x), n, b), rest, true))
  {
    CatchJoin(Yield(left), [CATCH, OP(BitOr), ID(x), OP(BitOr)], Newlines(n), [BLOCK(b)], rest);
  }

  lemma CatchJoin(l: seq<Tok>, head: seq<Tok>, ns: seq<Tok>, b: seq<Tok>, rest: seq<Tok>)
    ensures l + (head + (ns + (b + rest))) == l + head + ns + b + rest
  {}

  lemma {:induction false} SkipYield(ts: seq<Tok>)
    ensures var r := SkipNewlines(ts);
      ts == Newlines(|ts| - |r|) + r && !At(r, NEWLINE)
  {
    if At(ts, NEWLINE) {
      SkipYield(ts[1..]);
      assert ts == [NEWLINE] + ts[1..];
    }
  }
}
