/** What the stream of tokens says about the text, and texts that are read back. */
module TokenStream {
  import opened Options
  import opened Lexer
  import opened Seqs

  // ---------- shape of the stream ----------

  function WithoutBreaks(ts: seq<Token>): seq<Token> {
    if ts == [] then [] else (if ts[0].kind == Newline then [] else [ts[0]]) + WithoutBreaks(ts[1..])
  }

  predicate Ordinary(items: seq<Item>) { forall i | 0 <= i < |items| :: items[i].tok.kind != Newline }

  lemma {:induction false} ItemsOrdinary(src: string, p: nat)
    requires p <= |src| && Readable(src, p)
    ensures Ordinary(Items(src, p))
    decreases |src| - p
  {
    var it := ItemAt(src, p);
    if it.tok.kind != Eof { ItemsOrdinary(src, it.next); }
  }

  lemma {:induction false} WeaveErases(src: string, items: seq<Item>, last: Kind)
    requires Placed(src, items) && Ordinary(items)
    ensures WithoutBreaks(Weave(src, items, last)) == Plain(items)
  {
    if items != [] {
      var it := items[0];
      var tail := Weave(src, items[1..], it.tok.kind);
      WeaveErases(src, items[1..], it.tok.kind);
      assert ([it.tok] + tail)[1..] == tail;
      if Breaks(src, it, last) { assert ([Break(src, it)] + [it.tok] + tail)[1..] == [it.tok] + tail; }
    }
  }

  /** Leaving out the NEWLINEs gives the plain tokens. */
  lemma StreamErases(src: string)
    requires Readable(src, 0)
    ensures WithoutBreaks(Stream(src, 0, Eof)) == Plain(Items(src, 0))
  {
    ItemsPlaced(src, 0);
    ItemsOrdinary(src, 0);
    WeaveErases(src, Items(src, 0), Eof);
  }

  // Where the token of item i stands in the woven stream.
  function PlaceOf(src: string, items: seq<Item>, last: Kind, i: nat): nat
    requires Placed(src, items) && i < |items|
    decreases i
  {
    var here := if Breaks(src, items[0], last) then 1 else 0;
    if i == 0 then here else here + 1 + PlaceOf(src, items[1..], items[0].tok.kind, i - 1)
  }

  lemma {:induction false} WeaveAt(src: string, items: seq<Item>, last: Kind, i: nat)
    requires Placed(src, items) && i < |items|
    ensures var ts, k := Weave(src, items, last), PlaceOf(src, items, last, i);
      k < |ts| && ts[k] == items[i].tok
    ensures var ts, k := Weave(src, items, last), PlaceOf(src, items, last, i);
      Breaks(src, items[i], if i == 0 then last else items[i - 1].tok.kind) ==>
        k > 0 && ts[k - 1] == Break(src, items[i])
    decreases i
  {
    var it := items[0];
    var front := if Breaks(src, it, last) then [Break(src, it)] else [];
    var tail := Weave(src, items[1..], it.tok.kind);
    if i > 0 {
      WeaveAt(src, items[1..], it.tok.kind, i - 1);
      var k := PlaceOf(src, items[1..], it.tok.kind, i - 1);
      BehindOne(front, it.tok, tail, k);
      if k > 0 { BehindOne(front, it.tok, tail, k - 1); }
    }
  }

  lemma {:induction false} PlaceNext(src: string, items: seq<Item>, last: Kind, i: nat)
    requires Placed(src, items) && i + 1 < |items|
    ensures PlaceOf(src, items, last, i + 1) ==
      PlaceOf(src, items, last, i) + if Breaks(src, items[i + 1], items[i].tok.kind) then 2 else 1
    decreases i
  {
    if i > 0 { PlaceNext(src, items[1..], items[0].tok.kind, i - 1); }
  }

  /** Two neighbouring tokens have exactly one NEWLINE between them if the earlier one can end
      a statement and a line break lies in the gap, and nothing between them otherwise. */
  lemma NewlineBetween(src: string, i: nat)
    requires Readable(src, 0) && i + 1 < |Items(src, 0)|
    ensures Placed(src, Items(src, 0))
    ensures var items, ts := Items(src, 0), Stream(src, 0, Eof);
      var k, l := PlaceOf(src, items, Eof, i), PlaceOf(src, items, Eof, i + 1);
      && k < l < |ts| && ts[k] == items[i].tok && ts[l] == items[i + 1].tok
      && if CanEnd(items[i].tok.kind) && Broken(src, items[i + 1].gap, items[i + 1].start)
         then l == k + 2 && ts[k + 1].kind == Newline else l == k + 1
  {
    ItemsPlaced(src, 0);
    var items := Items(src, 0);
    WeaveAt(src, items, Eof, i);
    WeaveAt(src, items, Eof, i + 1);
    PlaceNext(src, items, Eof, i);
  }

  lemma {:induction false} NoTwoBreaks(src: string, items: seq<Item>, last: Kind, k: nat)
    requires Placed(src, items) && Ordinary(items)
    requires k < |Weave(src, items, last)| && Weave(src, items, last)[k].kind == Newline
    ensures k + 1 < |Weave(src, items, last)| && Weave(src, items, last)[k + 1].kind != Newline
    ensures k > 0 ==> CanEnd(Weave(src, items, last)[k - 1].kind)
    ensures k == 0 ==> CanEnd(last)
    decreases |items|
  {
    var it := items[0];
    var front := if Breaks(src, it, last) then [Break(src, it)] else [];
    var tail := Weave(src, items[1..], it.tok.kind);
    var ts := Weave(src, items, last);
    assert ts == front + [it.tok] + tail;
    if k > |front| {
      var j := k - |front| - 1;
      assert ts[k] == tail[j];
      NoTwoBreaks(src, items[1..], it.tok.kind, j);
      assert ts[k + 1] == tail[j + 1];
      if j > 0 { assert ts[k - 1] == tail[j - 1]; }
    }
  }

  /** A NEWLINE stands neither first nor last nor next to another: before it is a token that
      can end a statement. */
  lemma NewlinesApart(src: string, k: nat)
    requires Readable(src, 0) && k < |Stream(src, 0, Eof)| && Stream(src, 0, Eof)[k].kind == Newline
    ensures 0 < k < |Stream(src, 0, Eof)| - 1
    ensures CanEnd(Stream(src, 0, Eof)[k - 1].kind) && Stream(src, 0, Eof)[k + 1].kind != Newline
  {
    ItemsPlaced(src, 0);
    ItemsOrdinary(src, 0);
    NoTwoBreaks(src, Items(src, 0), Eof, k);
  }

  // ---------- gaps ----------

  // White space, or part of a comment that starts in the gap and has not met a line break.
  ghost predicate BlankAt(src: string, a: nat, i: nat)
    requires a <= i < |src|
  {
    IsSpace(src[i]) || exists j | a <= j <= i :: src[j] == '#' && forall m | j <= m <= i :: src[m] != '\n'
  }

  ghost predicate Blank(src: string, a: nat, b: nat)
    requires a <= b <= |src|
  {
    forall i | a <= i < b :: BlankAt(src, a, i)
  }

  lemma {:induction false} SkipBlank(src: string, p: nat)
    requires p <= |src|
    ensures Blank(src, p, Skip(src, p))
    ensures Skip(src, p) < |src| ==> !IsSpace(src[Skip(src, p)]) && src[Skip(src, p)] != '#'
    decreases |src| - p
  {
    var s := Span(src, p, Space);
    SpanStays(src, p, Space);
    if s < |src| && src[s] == '#' {
      var e := Span(src, s, InComment);
      SpanStays(src, s, InComment);
      SkipBlank(src, e);
      forall i | p <= i < Skip(src, p) ensures BlankAt(src, p, i) {
        if s <= i < e { assert src[s] == '#'; }
        if e <= i { assert BlankAt(src, e, i); }
      }
    }
  }

  ghost predicate Tiled(src: string, items: seq<Item>, p: nat) {
    && items != [] && items[0].gap == p && items[|items| - 1].next == |src|
    && items[|items| - 1].tok.kind == Eof
    && (forall i | 0 <= i < |items| - 1 :: items[i].next == items[i + 1].gap && items[i].tok.kind != Eof)
    && (forall i | 0 <= i < |items| :: items[i].gap <= items[i].start <= items[i].next <= |src|
          && Blank(src, items[i].gap, items[i].start))
    && (forall i | 0 <= i < |items| - 1 :: items[i].start < items[i].next
          && !IsSpace(src[items[i].start]) && src[items[i].start] != '#')
  }

  /** Gaps and tokens tile the text: nothing is read twice or left out, gaps hold white space
      and comments only, and no token starts with either. */
  lemma {:induction false} ItemsTile(src: string, p: nat)
    requires p <= |src| && Readable(src, p)
    ensures Tiled(src, Items(src, p), p)
    decreases |src| - p
  {
    var it := ItemAt(src, p);
    SkipBlank(src, p);
    if it.tok.kind != Eof {
      ItemsTile(src, it.next);
      TileCons(src, it, Items(src, it.next), p);
    }
  }

  lemma TileCons(src: string, it: Item, items: seq<Item>, p: nat)
    requires Tiled(src, items, it.next) && it.gap == p && it.tok.kind != Eof
    requires it.gap <= it.start < it.next <= |src| && Blank(src, it.gap, it.start)
    requires !IsSpace(src[it.start]) && src[it.start] != '#'
    ensures Tiled(src, [it] + items, p)
  {
    var all := [it] + items;
    assert all[|all| - 1] == items[|items| - 1];
    forall i | 0 <= i < |all| - 1
      ensures all[i].next == all[i + 1].gap && all[i].tok.kind != Eof && all[i].start < all[i].next
      ensures all[i].gap <= all[i].start < |src| && !IsSpace(src[all[i].start]) && src[all[i].start] != '#'
    {
      assert all[i + 1] == items[i];
      if i > 0 { assert all[i] == items[i - 1] && items[i - 1 + 1] == items[i]; }
    }
    forall i | 0 <= i < |all|
      ensures all[i].gap <= all[i].start <= all[i].next <= |src| && Blank(src, all[i].gap, all[i].start)
    {
      if i > 0 { assert all[i] == items[i - 1]; }
    }
  }

  // ---------- places ----------

  /** Line and column name a place: two places never share both. */
  lemma {:induction false} PlacesDiffer(src: string, p: nat, q: nat)
    requires p < q <= |src|
    ensures Line(src, p) < Line(src, q) || (Line(src, p) == Line(src, q) && Col(src, p) < Col(src, q))
    decreases q
  {
    if p < q - 1 { PlacesDiffer(src, p, q - 1); }
  }
}
