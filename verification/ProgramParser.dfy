/** The whole recursive-descent parser of src/parser/parser.c, without the trees it builds:
    which tokens each function takes, in which order, and when an error is recorded.  On
    every token list it terminates, a program is read to its end, and what is read without
    an error has its brackets in order. */
module ProgramParser {
  import Ast
  import opened Options
  import Pratt
  import Printer

  datatype Tk =
    | Fn | Ret | If | Elif | Else | For | While | Loop | When | Struct | Enum | Unn | Defer | Pub | Void | Undef
    | Mut | Imu | Import | Extern | TypeKw | Err | Try | Catch | ErrDefer | OpKw
    | IntLit | StrLit | Literal                // Literal: the other literals, true, false, null
    | Ident(name: string) | Builtin(name: string)
    | LParen | RParen | LBrace | RBrace | LBracket | RBracket
    | Comma | Dot | Colon | Semicolon | Arrow | FatArrow | Bang | Infix(op: Ast.BinOp) | Asg(asg: Ast.AsgOp)
    | Walrus | ColCol | DotDot | DotDotEq | Ellipsis | DotDeref | Newline | Other

  // The binding powers are those of the expression parser.
  function Lbp(t: Tk): int { Bp(t).lbp }
  function Rbp(t: Tk): int { Bp(t).rbp }

  function Bp(t: Tk): Pratt.Bp {
    if t.Infix? then Printer.InfixBp(Pratt.OP(t.op))
    else if t.Asg? then Printer.InfixBp(Pratt.ASG(t.asg))
    else if t.LParen? then Printer.InfixBp(Pratt.LPAREN)
    else if t.LBracket? then Printer.InfixBp(Pratt.LBRACKET)
    else if t.Dot? then Printer.InfixBp(Pratt.DOT)
    else if t.Arrow? then Printer.InfixBp(Pratt.ARROW)
    else if t.DotDeref? then Printer.InfixBp(Pratt.DOTDEREF)
    else if t.Catch? then Printer.InfixBp(Pratt.CATCH)
    else Pratt.Bp(-1, -1)
  }

  predicate IsPrefix(t: Tk) {
    t == Bang || t == Infix(Ast.Minus) || t == Infix(Ast.BitAnd) || t == Infix(Ast.Star) || t == Infix(Ast.BitXor)
  }

  // ---------- brackets ----------

  predicate IsOpener(t: Tk) { t.LParen? || t.LBrace? || t.LBracket? }

  predicate IsCloser(t: Tk) { t.RParen? || t.RBrace? || t.RBracket? }

  predicate IsBracket(t: Tk) { IsOpener(t) || IsCloser(t) }

  function Closer(t: Tk): Tk
    requires IsOpener(t)
  {
    if t.LParen? then RParen else if t.LBrace? then RBrace else RBracket
  }

  // The closing brackets still due, innermost first, or brackets out of order.
  datatype Due = Broken | Settled | Above(closer: Tk, below: Due)

  function Track(due: Due, t: Tk): Due {
    if due.Broken? then Broken
    else if IsOpener(t) then Above(Closer(t), due)
    else if !IsCloser(t) then due
    else if due.Above? && due.closer == t then due.below
    else Broken
  }

  // What the first n tokens leave due.
  function DueAfter(ts: seq<Tk>, n: nat): Due
    requires n <= |ts|
  {
    if n == 0 then Settled else Track(DueAfter(ts, n - 1), ts[n - 1])
  }

  predicate Balanced(ts: seq<Tk>) { DueAfter(ts, |ts|).Settled? }

  // ---------- the parser ----------

  class Parser {
    const input: seq<Tk>       // what the lexer hands out, token by token
    var pos: nat
    var cur: Option<Tk>        // None is the end of the input
    var peek: Option<Tk>
    var hadError: bool
    ghost var due: Due         // the closing brackets due after the tokens taken so far
    ghost var left: nat        // and how many tokens follow
    ghost var slack: bool      // a bracket was taken where any token is

    // The lexer returns the end of the input again and again once it is reached.
    function Lexed(i: nat): Option<Tk> { if i < |input| then Some(input[i]) else None }

    ghost predicate Valid()
      reads `pos, `cur, `peek, `due, `left
    {
      && pos <= |input| && cur == Lexed(pos) && peek == Lexed(pos + 1)
      && left == |input| - pos && due == DueAfter(input, pos)
    }

    // Nothing is given back, errors stay, and without one the brackets are as they were.
    twostate predicate Kept()
      reads this
    {
      && Valid() && left <= old(left) && (old(hadError) ==> hadError) && (old(slack) ==> slack)
      && (hadError || slack || due == old(due))
    }

    // In front of a token at least that token is taken.
    twostate predicate Moved()
      reads this
    {
      Kept() && (old(left) > 0 ==> left < old(left))
    }

    constructor (tokens: seq<Tk>)
      ensures Valid() && input == tokens && pos == 0 && !hadError && !slack
    {
      input, pos, hadError := tokens, 0, false;
      cur := if |tokens| > 0 then Some(tokens[0]) else None;
      peek := if |tokens| > 1 then Some(tokens[1]) else None;
      due, left, slack := Settled, |tokens|, false;
    }

    method NextTok()
      requires Valid()
      modifies `pos, `cur, `peek, `due, `left
      ensures Valid() && cur == old(peek)
      ensures old(cur).None? ==> left == 0 && due == old(due)
      ensures old(cur).Some? ==> left == old(left) - 1 && due == Track(old(due), old(cur).value)
    {
      if cur.Some? {
        due, left := Track(due, cur.value), left - 1;
        pos := pos + 1;
      }
      cur := peek;
      peek := Lexed(pos + 1);
    }

    predicate Check(t: Tk)
      reads `cur
    {
      cur == Some(t)
    }

    predicate At(a: Tk, b: Tk)
      reads `cur, `peek
    {
      cur == Some(a) && peek == Some(b)
    }

    method Match(t: Tk) returns (b: bool)
      requires Valid()
      modifies `pos, `cur, `peek, `due, `left
      ensures Valid() && b == (old(cur) == Some(t))
      ensures if b then left == old(left) - 1 && due == Track(old(due), t) && cur == old(peek)
              else left == old(left) && due == old(due) && cur == old(cur) && peek == old(peek)
    {
      b := Check(t);
      if b { NextTok(); }
    }

    method ParseErr()
      modifies `hadError
      ensures hadError
    {
      hadError := true;
    }

    method Expect(t: Tk)
      requires Valid()
      modifies `pos, `cur, `peek, `due, `left, `hadError
      ensures Valid() && (old(hadError) ==> hadError) && left <= old(left) && (old(left) > 0 ==> left == old(left) - 1)
      ensures !hadError ==> due == Track(old(due), t)
    {
      if !Check(t) { ParseErr(); }
      NextTok();
    }

    method ExpectIdent()
      requires Valid()
      modifies `pos, `cur, `peek, `due, `left, `hadError
      ensures Moved()
    {
      if cur.None? || !cur.value.Ident? { ParseErr(); }
      NextTok();
    }

    method SkipNewlines()
      requires Valid()
      modifies `pos, `cur, `peek, `due, `left
      ensures Kept() && cur != Some(Newline) && cur != Some(Semicolon)
    {
      while cur == Some(Newline) || cur == Some(Semicolon)
        invariant Kept() && hadError == old(hadError)
        decreases left
      {
        NextTok();
      }
    }

    // ---------- types ----------

    method ParseType()
      requires Valid()
      modifies this
      ensures Kept() && (left == old(left) ==> hadError)
      decreases left, 1
    {
      ErrorPrefix();
      if Check(LBracket) { ArrayPrefix(); }
      PointerPrefix();
      ParseTypeName();
    }

    // !T or Set!T
    method ErrorPrefix()
      requires Valid()
      modifies this
      ensures Kept()
    {
      if Check(Bang) {
        NextTok();
      } else if cur.Some? && cur.value.Ident? && peek == Some(Bang) {
        NextTok();
        NextTok();
      }
    }

    method PointerPrefix()
      requires Valid()
      modifies this
      ensures Kept()
    {
      var _ := Match(Imu);
      var stars := Stars();
      if !stars { var _ := Match(Infix(Ast.BitXor)); }
    }

    method ArrayPrefix()
      requires Valid() && Check(LBracket)
      modifies this
      ensures Kept()
    {
      NextTok();
      if Check(IntLit) { NextTok(); }
      Expect(RBracket);
    }

    method Stars() returns (some: bool)
      requires Valid()
      modifies `pos, `cur, `peek, `due, `left
      ensures Kept()
    {
      some := false;
      while Check(Infix(Ast.Star))
        invariant Kept()
        decreases left
      {
        NextTok();
        some := true;
      }
    }

    method ParseTypeName()
      requires Valid()
      modifies this
      ensures Kept() && (left == old(left) ==> hadError)
      decreases left, 0, 1
    {
      if Check(LParen) {
        ParseTupleType();
      } else if Check(Void) {
        NextTok();
      } else if Check(Builtin("ls")) || Check(Builtin("set")) {
        NextTok();
        NamesInParens(false);
      } else if Check(Builtin("map")) {
        NextTok();
        NamesInParens(true);
      } else if cur.Some? && (cur.value.Builtin? || cur.value.Ident?) {
        if cur.value == Ident("chr") { ParseErr(); }
        NextTok();
      } else {
        ParseErr();
      }
    }

    method NamesInParens(two: bool)
      requires Valid()
      modifies this
      ensures Kept()
    {
      Expect(LParen);
      ExpectIdent();
      if two {
        Expect(Comma);
        ExpectIdent();
      }
      Expect(RParen);
    }

    // At least two elements, or it is an error.
    method ParseTupleType()
      requires Valid() && Check(LParen)
      modifies this
      ensures Moved()
      decreases left, 0, 0
    {
      NextTok();
      label Inside:
      var count, more := 0, true;
      while more && cur.Some? && !Check(RParen)
        invariant Kept@Inside()
        decreases more, left
      {
        ParseType();
        count := count + 1;
        more := Match(Comma);
      }
      Expect(RParen);
      if count < 2 { ParseErr(); }
    }

    // ---------- expressions ----------

    method ParseExprBp(minBp: int)
      requires Valid() && minBp >= 0
      modifies this
      ensures Moved()
      decreases left, 1
    {
      var found := ParseAtom();
      if !found { return; }
      while true
        invariant Moved()
        decreases left
      {
        if cur.None? || Lbp(cur.value) < minBp { break; }
        ParseTurn();
      }
    }

    // What an expression starts with; false if it is no expression.
    method ParseAtom() returns (found: bool)
      requires Valid()
      modifies this
      ensures Moved()
      decreases left, 0, 1
    {
      found := true;
      if Check(LParen) {
        ParseParen();
      } else if cur.Some? && IsPrefix(cur.value) {
        NextTok();
        ParseExprBp(100);
      } else if cur == Some(StrLit) || cur == Some(IntLit) || cur == Some(Literal) {
        NextTok();
      } else if cur.Some? && cur.value.Builtin? {
        ParseBuiltin();
      } else if Check(If) {
        ParseIfChain();
      } else if Check(When) {
        ParseWhen();
      } else if Check(LBrace) {
        ParseBraceLiteral();
      } else if At(Dot, LBrace) {
        NextTok();
        ParseBraceLiteral();
      } else if cur.Some? && cur.value.Ident? {
        NextTok();
        if At(LBrace, Dot) { ParseNamedStruct(); }
      } else if Check(Try) {
        NextTok();
        ParseExprBp(100);
      } else if Check(Err) {
        NextTok();
        Expect(Dot);
        ExpectIdent();
      } else {
        ParseErr();
        NextTok();
        found := false;
      }
    }

    method ParseParen()
      requires Valid() && Check(LParen)
      modifies this
      ensures Moved()
      decreases left, 0, 0
    {
      NextTok();
      label Inside:
      ParseExprBp(0);
      while Check(Comma)
        invariant Kept@Inside()
        decreases left
      {
        NextTok();
        ParseExprBp(0);
      }
      Expect(RParen);
    }

    method ParseBuiltin()
      requires Valid() && cur.Some? && cur.value.Builtin?
      modifies this
      ensures Moved()
      decreases left, 0, 0
    {
      var name := cur.value.name;
      NextTok();
      if name == "ls" || name == "map" || name == "set" {
        Expect(Dot);
        ExpectIdent();
        ParseArgList();
      } else if Check(LParen) {
        ParseArgList();
      }
    }

    method ParseArgList()
      requires Valid()
      modifies this
      ensures Moved()
      decreases left, 0, 0
    {
      Expect(LParen);
      label Inside:
      SkipNewlines();
      var more := true;
      while more && cur.Some? && !Check(RParen)
        invariant Kept@Inside()
        decreases more, left
      {
        ParseExprBp(0);
        SkipNewlines();
        more := Match(Comma);
        if more { SkipNewlines(); }
      }
      Expect(RParen);
    }

    // One turn of the loop over infix and postfix operators.
    method ParseTurn()
      requires Valid() && cur.Some? && Lbp(cur.value) >= 0
      modifies this
      ensures Moved()
      decreases left, 0, 1
    {
      if Check(LParen) {
        TurnCall();
      } else if Check(LBracket) {
        TurnSubscript();
      } else if Check(DotDeref) {
        NextTok();
      } else if Check(Dot) {
        NextTok();
        if Check(Infix(Ast.Star)) || Check(Infix(Ast.BitXor)) { NextTok(); } else { ExpectIdent(); }
      } else if Check(Arrow) {
        NextTok();
        ExpectIdent();
      } else if Check(Catch) {
        TurnCatch();
      } else {
        var rbp := Rbp(cur.value);
        NextTok();
        ParseExprBp(rbp);
      }
    }

    method TurnCall()
      requires Valid() && Check(LParen)
      modifies this
      ensures Moved()
      decreases left, 0, 0
    {
      NextTok();
      label Inside:
      var more := true;
      while more && cur.Some? && !Check(RParen)
        invariant Kept@Inside()
        decreases more, left
      {
        ParseExprBp(0);
        more := Match(Comma);
      }
      Expect(RParen);
    }

    method TurnSubscript()
      requires Valid() && Check(LBracket)
      modifies this
      ensures Moved()
      decreases left, 0, 0
    {
      NextTok();
      ParseExprBp(0);
      Expect(RBracket);
    }

    method TurnCatch()
      requires Valid() && Check(Catch)
      modifies this
      ensures Moved()
      decreases left, 0, 0
    {
      NextTok();
      if Check(Infix(Ast.BitOr)) {
        NextTok();
        ExpectIdent();
        Expect(Infix(Ast.BitOr));
        ParseBlock();
      } else if Check(LBrace) {
        ParseBlock();
      } else {
        ParseExprBp(13);
      }
    }

    // { .f = v, ... }  or  { e, ... }
    method ParseBraceLiteral()
      requires Valid() && Check(LBrace)
      modifies this
      ensures Moved()
      decreases left, 0, 0
    {
      NextTok();
      if Check(Dot) { ParseFieldInits(); } else { ParseElems(); }
      Expect(RBrace);
    }

    method ParseFieldInits()
      requires Valid()
      modifies this
      ensures Kept()
      decreases left, 3
    {
      while cur.Some? && !Check(RBrace)
        invariant Kept()
        decreases left
      {
        SkipNewlines();
        if Check(RBrace) { break; }
        ParseFieldInit();
      }
    }

    method ParseElems()
      requires Valid()
      modifies this
      ensures Kept()
      decreases left, 3
    {
      SkipNewlines();
      var more := true;
      while more && cur.Some? && !Check(RBrace)
        invariant Kept()
        decreases more, left
      {
        ParseExprBp(0);
        SkipNewlines();
        more := Match(Comma);
        if more { SkipNewlines(); }
      }
    }

    method ParseFieldInit()
      requires Valid()
      modifies this
      ensures Moved()
      decreases left, 2
    {
      FieldName();
      ParseExprBp(0);
      EntryEnd();
    }

    method FieldName()
      requires Valid()
      modifies this
      ensures Moved()
    {
      Expect(Dot);
      ExpectIdent();
      Expect(Asg(Ast.SetTo));
    }

    // The end of one entry of a list in braces: an optional comma, on this line or the next.
    method EntryEnd()
      requires Valid()
      modifies this
      ensures Kept()
    {
      SkipNewlines();
      var _ := Match(Comma);
      SkipNewlines();
    }

    // The braces of Name{.f = v, ...}.
    method ParseNamedStruct()
      requires Valid() && Check(LBrace)
      modifies this
      ensures Moved()
      decreases left, 0, 0
    {
      NextTok();
      label Inside:
      SkipNewlines();
      while cur.Some? && !Check(RBrace)
        invariant Kept@Inside()
        decreases left
      {
        ParseFieldInit();
      }
      Expect(RBrace);
    }

    // ---------- statements ----------

    method ParseIfChain()
      requires Valid() && cur.Some? && !IsBracket(cur.value)
      modifies this
      ensures Moved()
      decreases left, 0, 0
    {
      NextTok();
      ParseExprBp(0);
      ParseBlock();
      SkipNewlines();
      if Check(Elif) {
        ParseIfChain();
      } else if Check(Else) {
        NextTok();
        ParseBlock();
      }
    }

    method ParseWhen()
      requires Valid() && Check(When)
      modifies this
      ensures Moved()
      decreases left, 0, 0
    {
      NextTok();
      ParseExprBp(0);
      ParseArms();
    }

    method ParseArms()
      requires Valid()
      modifies this
      ensures Kept()
      decreases left, 4
    {
      Expect(LBrace);
      label Inside:
      SkipNewlines();
      while cur.Some? && !Check(RBrace)
        invariant Kept@Inside()
        decreases left
      {
        ParseWhenArm();
        SkipNewlines();
      }
      Expect(RBrace);
    }

    method ParseWhenArm()
      requires Valid()
      modifies this
      ensures Moved()
      decreases left, 3
    {
      SkipNewlines();
      if Check(Ident("_")) { NextTok(); } else { ParseExprBp(0); }
      Expect(FatArrow);
      ParseArmBody();
      var _ := Match(Comma);
    }

    method ParseArmBody()
      requires Valid()
      modifies this
      ensures Kept()
      decreases left, 2
    {
      if Check(LBrace) {
        ParseBlock();
      } else {
        ParseExprBp(0);
        if cur.Some? && cur.value.Asg? {
          NextTok();
          ParseExprBp(0);
        }
      }
    }

    method ParseBlock()
      requires Valid()
      modifies this
      ensures Moved()
      decreases left, 0, 0
    {
      SkipNewlines();
      Expect(LBrace);
      label Inside:
      SkipNewlines();
      while cur.Some? && !Check(RBrace)
        invariant Kept@Inside()
        decreases left
      {
        ParseStmt();
        SkipNewlines();
      }
      Expect(RBrace);
    }

    method ParseStmt()
      requires Valid()
      modifies this
      ensures Moved()
      decreases left, 4
    {
      if Check(Ret) {
        NextTok();
        if cur.Some? && !Check(RBrace) { ParseExprBp(0); }
        var _ := Match(Semicolon);
      } else if Check(If) {
        ParseIfChain();
      } else if Check(When) {
        ParseWhen();
      } else if Check(While) {
        NextTok();
        ParseExprBp(0);
        ParseBlock();
      } else if Check(Loop) {
        ParseLoop();
      } else if Check(For) {
        ParseFor();
      } else if Check(Defer) || Check(ErrDefer) {
        NextTok();
        if Check(LBrace) { ParseBlock(); } else { ParseExprBp(0); }
      } else if Check(Mut) || Check(Imu) {
        ParseMultiVarDecl();
      } else if cur.Some? && cur.value.Ident? && (peek == Some(Walrus) || peek == Some(ColCol)) {
        ParseImplicitDecl();
      } else if cur.Some? && cur.value.Ident? && peek == Some(Colon) {
        ParseExplicitDecl();
      } else if cur.Some? && cur.value.Ident? && peek == Some(Comma) {
        ParseMultiBind();
      } else {
        ParseExprBp(0);
        SkipNewlines();
      }
    }

    method ParseLoop()
      requires Valid() && Check(Loop)
      modifies this
      ensures Moved()
      decreases left, 2
    {
      NextTok();
      if cur.Some? && cur.value.Ident? && peek == Some(Walrus) {
        ParseImplicitDecl();
      } else if cur.Some? && cur.value.Ident? && peek == Some(Colon) {
        ParseExplicitDecl();
      } else {
        ParseExprBp(0);
      }
      Expect(Comma);
      ParseExprBp(0);
      Expect(Comma);
      ParseExprBp(0);
      ParseBlock();
    }

    method ParseFor()
      requires Valid() && Check(For)
      modifies this
      ensures Moved()
      decreases left, 2
    {
      NextTok();
      if cur.Some? && cur.value.Ident? && peek == Some(FatArrow) {
        NextTok();
        NextTok();
        ParseExprBp(0);
      } else if cur.Some? && cur.value.Ident? && peek == Some(Comma) {
        ForNames();
        ParseExprBp(0);
      } else {
        ParseRange();
      }
      ParseBlock();
    }

    // e, i =>
    method ForNames()
      requires Valid() && cur.Some? && cur.value.Ident? && peek == Some(Comma)
      modifies this
      ensures Moved()
    {
      NextTok();
      NextTok();
      ExpectIdent();
      Expect(FatArrow);
    }

    method ParseRange()
      requires Valid()
      modifies this
      ensures Moved()
      decreases left, 2
    {
      ParseExprBp(0);
      if Check(DotDotEq) { NextTok(); } else { Expect(DotDot); }
      ParseExprBp(0);
    }

    // x := e  or  x :: e
    method ParseImplicitDecl()
      requires Valid() && cur.Some? && cur.value.Ident? && (peek == Some(Walrus) || peek == Some(ColCol))
      modifies this
      ensures Moved()
      decreases left, 2
    {
      NextTok();
      NextTok();
      ParseExprBp(0);
    }

    // x :T = e  or  x :T: e
    method ParseExplicitDecl()
      requires Valid() && cur.Some? && cur.value.Ident? && peek == Some(Colon)
      modifies this
      ensures Moved()
      decreases left, 2
    {
      NextTok();
      NextTok();
      ParseType();
      if Check(Asg(Ast.SetTo)) || Check(Colon) { NextTok(); } else { ParseErr(); }
      if Check(Undef) { NextTok(); } else { ParseExprBp(0); }
    }

    // mut T: a = e, b = e
    method ParseMultiVarDecl()
      requires Valid() && (Check(Mut) || Check(Imu))
      modifies this
      ensures Moved()
      decreases left, 2
    {
      NextTok();
      ParseType();
      Expect(Colon);
      var more := true;
      while more
        invariant Moved()
        decreases more, left
      {
        ParseVarEntry();
        more := Match(Comma);
      }
    }

    method ParseVarEntry()
      requires Valid()
      modifies this
      ensures Moved()
      decreases left, 2
    {
      ExpectIdent();
      Expect(Asg(Ast.SetTo));
      ParseExprBp(0);
    }

    // a, b := e  or  a, b :: e
    method ParseMultiBind()
      requires Valid() && cur.Some?
      modifies this
      ensures Moved()
      decreases left, 3
    {
      ExpectIdent();
      while Check(Comma)
        invariant Moved()
        decreases left
      {
        NextTok();
        ExpectIdent();
      }
      if Check(Walrus) || Check(ColCol) { NextTok(); } else { ParseErr(); }
      ParseExprBp(0);
    }

    // ---------- declarations ----------

    // name : type
    method ParseNameAndType()
      requires Valid()
      modifies this
      ensures Moved()
    {
      ExpectIdent();
      Expect(Colon);
      ParseType();
    }

    method ParseParams()
      requires Valid()
      modifies this
      ensures Moved()
    {
      Expect(LParen);
      ParseParamList();
      Expect(RParen);
    }

    method ParseParamList()
      requires Valid()
      modifies this
      ensures Kept()
    {
      SkipNewlines();
      var more := true;
      while more && cur.Some? && !Check(RParen)
        invariant Kept()
        decreases more, left
      {
        ParseNameAndType();
        SkipNewlines();
        more := Match(Comma);
        if more { SkipNewlines(); }
      }
    }

    method ParseResultType()
      requires Valid()
      modifies this
      ensures Kept()
    {
      if Check(Arrow) {
        NextTok();
        if Check(Void) { NextTok(); } else { ParseType(); }
      }
    }

    // A token is taken whatever it is, and no error is recorded.
    method TakeAny()
      requires Valid()
      modifies `pos, `cur, `peek, `due, `left, `slack
      ensures Moved() && hadError == old(hadError)
      ensures slack == (old(slack) || (old(cur).Some? && IsBracket(old(cur).value)))
    {
      if cur.Some? && IsBracket(cur.value) { slack := true; }
      NextTok();
    }

    // op fn [] or op fn + ...; a wrong symbol is complained about but not recorded.
    method ParseOpName()
      requires Valid()
      modifies this
      ensures Moved()
    {
      if Check(LBracket) {
        NextTok();
        Expect(RBracket);
      } else {
        TakeAny();
      }
    }

    method ParseFnDecl()
      requires Valid()
      modifies this
      ensures Moved()
    {
      var isOp := Match(OpKw);
      Expect(Fn);
      if isOp { ParseOpName(); } else { ExpectIdent(); }
      ParseParams();
      SkipNewlines();
      ParseResultType();
      SkipNewlines();
      ParseBlock();
    }

    method ParseExternFn()
      requires Valid()
      modifies this
      ensures Moved()
    {
      Expect(Extern);
      Expect(Fn);
      ExpectIdent();
      ParseExternParams();
      ParseResultType();
    }

    method ParseExternParams()
      requires Valid()
      modifies this
      ensures Kept()
    {
      Expect(LParen);
      label Inside:
      var more := true;
      while more && cur.Some? && !Check(RParen)
        invariant Kept@Inside()
        decreases more, left
      {
        if Check(Ellipsis) {
          NextTok();
          more := false;
        } else {
          ParseNameAndType();
          more := Match(Comma);
        }
      }
      Expect(RParen);
    }

    method ParseStructMember()
      requires Valid()
      modifies this
      ensures Moved()
    {
      if Check(Fn) {
        ParseFnDecl();
      } else if Check(Pub) {
        NextTok();
        if Check(Fn) {
          ParseFnDecl();
        } else {
          ParseNameAndType();
          if Check(Colon) { NextTok(); } else { Expect(Asg(Ast.SetTo)); }
          ParseExprBp(0);
        }
      } else {
        ParseNameAndType();
      }
    }

    method ParseEnumVariant()
      requires Valid()
      modifies this
      ensures Moved()
    {
      ExpectIdent();
      var valued := Match(Asg(Ast.SetTo));
      if valued { ParseExprBp(0); }
    }

    // struct, enum, unn and err: a head and a list of entries in braces.
    method ParseStructDecl()
      requires Valid() && Check(Struct)
      modifies this
      ensures Moved()
    {
      NextTok();
      ExpectIdent();
      Expect(LBrace);
      label Inside:
      SkipNewlines();
      while cur.Some? && !Check(RBrace)
        invariant Kept@Inside()
        decreases left
      {
        ParseStructMember();
        EntryEnd();
      }
      Expect(RBrace);
    }

    method ParseEnumDecl()
      requires Valid() && Check(Enum)
      modifies this
      ensures Moved()
    {
      NextTok();
      ExpectIdent();
      if Check(FatArrow) {
        NextTok();
        ParseType();
      }
      ParseVariants();
    }

    method ParseVariants()
      requires Valid()
      modifies this
      ensures Kept()
    {
      Expect(LBrace);
      label Inside:
      SkipNewlines();
      while cur.Some? && !Check(RBrace)
        invariant Kept@Inside()
        decreases left
      {
        ParseEnumVariant();
        EntryEnd();
      }
      Expect(RBrace);
    }

    method ParseUnnDecl()
      requires Valid() && Check(Unn)
      modifies this
      ensures Moved()
    {
      NextTok();
      if Check(LParen) { ParseUnnTag(); }
      ExpectIdent();
      ParseUnnFields();
    }

    method ParseUnnFields()
      requires Valid()
      modifies this
      ensures Kept()
    {
      Expect(LBrace);
      label Inside:
      SkipNewlines();
      while cur.Some? && !Check(RBrace)
        invariant Kept@Inside()
        decreases left
      {
        ParseNameAndType();
        EntryEnd();
      }
      Expect(RBrace);
    }

    // (enum); what stands between the parentheses is not looked at.
    method ParseUnnTag()
      requires Valid() && Check(LParen)
      modifies this
      ensures Moved()
    {
      NextTok();
      TakeAny();
      Expect(RParen);
    }

    method ParseErrDecl()
      requires Valid() && Check(Err)
      modifies this
      ensures Moved()
    {
      NextTok();
      ExpectIdent();
      Expect(LBrace);
      label Inside:
      SkipNewlines();
      while cur.Some? && !Check(RBrace)
        invariant Kept@Inside()
        decreases left
      {
        ExpectIdent();
        EntryEnd();
      }
      Expect(RBrace);
    }

    method ParseTypeAlias()
      requires Valid() && Check(TypeKw)
      modifies this
      ensures Moved()
    {
      NextTok();
      ExpectIdent();
      Expect(Asg(Ast.SetTo));
      ParseType();
    }

    // ---------- programs ----------

    method SkipToParen()
      requires Valid()
      modifies this
      ensures Valid() && left <= old(left) && hadError == old(hadError) && slack == old(slack)
    {
      while cur.Some? && !Check(RParen)
        invariant Valid() && left <= old(left) && hadError == old(hadError) && slack == old(slack)
        decreases left
      {
        NextTok();
      }
    }

    // One entry of the import block; false if the block is given up.
    method ParseImport() returns (going: bool)
      requires Valid()
      modifies this
      ensures Moved()
    {
      ExpectIdent();
      Expect(Asg(Ast.SetTo));
      going := true;
      if Check(StrLit) {
        NextTok();
      } else if Check(Builtin("std")) {
        NextTok();
        if Check(Dot) {
          NextTok();
          ExpectIdent();
        }
      } else {
        ParseErr();
        SkipToParen();
        return false;
      }
      EntryEnd();
    }

    method ParseImportBlock()
      requires Valid() && (Check(Import) || Check(Builtin("import")))
      modifies this
      ensures Moved()
    {
      NextTok();
      Expect(LParen);
      label Inside:
      SkipNewlines();
      var going := true;
      while going && cur.Some? && !Check(RParen)
        invariant Kept@Inside()
        decreases left
      {
        going := ParseImport();
      }
      Expect(RParen);
    }

    method ParseDecl()
      requires Valid() && cur.Some?
      modifies this
      ensures Moved()
    {
      if Check(Extern) {
        ParseExternFn();
      } else if Check(Fn) || Check(Pub) || Check(OpKw) {
        var _ := Match(Pub);
        ParseFnDecl();
      } else if Check(Struct) {
        ParseStructDecl();
      } else if Check(Enum) {
        ParseEnumDecl();
      } else if Check(Unn) {
        ParseUnnDecl();
      } else if Check(TypeKw) {
        ParseTypeAlias();
      } else if Check(Err) {
        ParseErrDecl();
      } else if Check(Mut) || Check(Imu) {
        ParseMultiVarDecl();
      } else if cur.value.Ident? && (peek == Some(Walrus) || peek == Some(ColCol) || peek == Some(Colon)) {
        ParseStmt();
      } else {
        ParseErr();
        NextTok();
      }
    }

    /** On every token list the parser comes to the end of it; if it has recorded no error,
        and took no bracket where any token is taken, the brackets of the program match. */
    method ParseProgram()
      requires Valid() && pos == 0
      modifies this
      ensures Valid() && pos == |input|
      ensures !hadError && !slack ==> Balanced(input)
    {
      if Check(Import) || Check(Builtin("import")) { ParseImportBlock(); }
      SkipNewlines();
      while cur.Some?
        invariant Kept()
        decreases left
      {
        SkipNewlines();
        if cur.None? { break; }
        ParseDecl();
      }
    }
  }
}
