/** The text of the supported fragment is read as it was meant. */
module Readable {
  import opened Ast
  import opened Kinding
  import opened Support
  import opened Pratt
  import opened Printer
  import opened Emission

  lemma {:induction false} SupportedIsApart(x: Place, e: Expr)
    requires KRes(x.rule, e) && SExpr(x, e) && Flat(e)
    ensures Apart(e)
    decreases e, 1
  {
    if e.Assign? && e.lhs.Ident? {
      SupportedIsApart(x, e.rhs);
    } else if !IsAtom(e) {
      assert Grouped(e) && SOps(x, e) && KOps(x.rule, e) && KForm(e);
      OperandsFlat(e);
      forall i | 0 <= i < |Operands(e)| ensures Apart(Operands(e)[i]) { SupportedIsApart(x, Operands(e)[i]); }
      OperandsApart(e);
    }
  }

  lemma {:induction false} AllFlat(es: seq<Expr>)
    ensures FlatAll(es) <==> forall i | 0 <= i < |es| :: Flat(es[i])
    ensures ApartAll(es) <==> forall i | 0 <= i < |es| :: Apart(es[i])
  {
    if es != [] {
      AllFlat(es[1..]);
      assert forall i | 1 <= i < |es| :: es[i] == es[1..][i - 1];
    }
  }

  lemma OperandsFlat(e: Expr)
    requires (IsLogic(e) || IsOp(e)) && Flat(e) && KForm(e)
    ensures forall i | 0 <= i < |Operands(e)| :: Flat(Operands(e)[i])
  {
    if e.Tuple? { AllFlat(e.elems); }
    if e.Call? { AllFlat(e.args); }
  }

  lemma OperandsApart(e: Expr)
    requires (IsLogic(e) || IsOp(e)) && Grouped(e) && KForm(e)
    requires forall i | 0 <= i < |Operands(e)| :: Apart(Operands(e)[i])
    ensures Apart(e)
  {
    if e.Binary? {
      assert Operands(e)[0] == e.left && Operands(e)[1] == e.right;
    } else if e.Unary? {
      assert Operands(e)[0] == e.operand;
    } else if e.Subscript? {
      assert Operands(e)[0] == e.target && Operands(e)[1] == e.index;
    } else if e.Field? || e.FieldPtr? || e.Deref? {
      assert Operands(e)[0] == e.target;
    } else if e.Tuple? {
      assert Operands(e) == e.elems;
      AllFlat(e.elems);
    } else {
      assert Operands(e) == e.args;
      AllFlat(e.args);
    }
  }

  /** A supported expression without `try` and `catch` is read back to its tree from the
      emitted text, under every ranking of the C++ operators. */
  lemma SupportedIsRead(g: Grammar, x: Place, e: Expr, rest: seq<Tok>)
    requires ReadsCpp(g) && KRes(x.rule, e) && SExpr(x, e) && Flat(e)
    requires rest == [] || Lbp(g, rest) < 0
    ensures var r := ParseBp(g, EmitToks(e) + rest, 0);
      r.ok && r.rest == rest && Erase(r.tree) == CppTree(e)
  {
    SupportedIsApart(x, e);
    ReadBackIff(g, e, rest);
  }
}
