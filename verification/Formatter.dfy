/** The two formatters behind @pf: the scanner that takes a literal format apart while the
    program is compiled (src/codegen/codegen.c) and the loop that reads a format at run time
    (src/codegen/stdlib_impl.h). */
module Formatter {
  import opened Seqs

  // What the scanner streams: a literal, an argument, a comment standing where an argument
  // is missing, or the value of the expression written between braces.
  datatype Piece = Lit(text: string) | Arg(k: nat) | NoArg | Interp(text: string)

  // The next closing brace at or after p, or the end.
  function CloseFrom(s: string, p: nat): (e: nat)
    requires p <= |s|
    ensures p <= e <= |s|
    decreases |s| - p
  {
    if p == |s| || s[p] == '}' then p else CloseFrom(s, p + 1)
  }

  // A doubled brace.
  predicate Pair(s: string, p: nat) {
    p + 1 < |s| && s[p] == s[p + 1] && (s[p] == '{' || s[p] == '}')
  }

  // How a format is read while compiling, from p on; k of n arguments have been used.
  function Scan(s: string, p: nat, k: nat, n: nat): (r: seq<Piece>)
    requires p <= |s|
    ensures p < |s| ==> r != []
    decreases |s| - p
  {
    if p == |s| then []
    else if Pair(s, p) then [Lit([s[p]])] + Scan(s, p + 2, k, n)
    else if s[p] == '{' && CloseFrom(s, p + 1) < |s| then Braced(s, p, CloseFrom(s, p + 1), k, n)
    else [Lit([s[p]])] + Scan(s, p + 1, k, n)
  }

  function Braced(s: string, p: nat, e: nat, k: nat, n: nat): (r: seq<Piece>)
    requires p < e < |s|
    ensures r != []
    decreases |s| - p, 0
  {
    if e > p + 1 then [Interp(s[p + 1..e])] + Scan(s, e + 1, k, n)
    else if k < n then [Arg(k)] + Scan(s, e + 1, k + 1, n)
    else [NoArg] + Scan(s, e + 1, k, n)
  }

  // What the emitted stream prints; `show` gives the text of interpolated expressions.
  function Streamed(pieces: seq<Piece>, args: seq<string>, show: string -> string): string {
    if pieces == [] then ""
    else Shown(pieces[0], args, show) + Streamed(pieces[1..], args, show)
  }

  // How a format is read while running, from i on; the next argument to be printed is ai.
  function Printed(s: string, i: nat, args: seq<string>, ai: nat): string
    requires i <= |s| && ai <= |args|
    decreases |s| - i
  {
    if i == |s| then ""
    else if Pair(s, i) then [s[i]] + Printed(s, i + 2, args, ai)
    else if s[i] == '{' && i + 1 < |s| && s[i + 1] == '}' then
      if ai == |args| then Printed(s, i + 2, args, ai) else args[ai] + Printed(s, i + 2, args, ai + 1)
    else [s[i]] + Printed(s, i + 1, args, ai)
  }

  // ---------- the loops ----------

  function Chars(text: string): seq<Piece> { if text == "" then [] else [Lit([text[0]])] + Chars(text[1..]) }

  function Flat(pieces: seq<Piece>): seq<Piece> {
    if pieces == [] then []
    else FlatOf(pieces[0]) + Flat(pieces[1..])
  }

  // An empty literal is not emitted.
  function WithLiteral(pieces: seq<Piece>, text: string): seq<Piece> {
    if text == "" then pieces else pieces + [Lit(text)]
  }

  // What has been emitted, what waits in the segment, and what is still to be read.
  function Whole(pieces: seq<Piece>, segment: string, tail: seq<Piece>): seq<Piece> {
    Flat(pieces) + (Chars(segment) + tail)
  }

  // How far the scanner has come: nothing read so far is lost or changed.
  ghost predicate ScannedTo(fmt: string, pieces: seq<Piece>, seg: nat, p: nat, k: nat, n: nat) {
    && seg <= p <= |fmt| && Lit("") !in pieces
    && Whole(pieces, fmt[seg..p], Scan(fmt, p, k, n)) == Scan(fmt, 0, 0, n)
  }

  /** Literals are collected in a segment and emitted as one; up to that the scanner's pieces
      are those of the character-by-character reading. */
  method ScanLoop(fmt: string, n: nat) returns (pieces: seq<Piece>)
    ensures Flat(pieces) == Scan(fmt, 0, 0, n) && Lit("") !in pieces
  {
    pieces := [];
    var seg: nat, p: nat, k: nat := 0, 0, 0;
    ScanStart(fmt, n);
    while p < |fmt|
      invariant ScannedTo(fmt, pieces, seg, p, k, n)
    {
      if fmt[p] == '{' {
        if p + 1 < |fmt| && fmt[p + 1] == '{' {
          TakePair(fmt, pieces, seg, p, k, n);
          pieces := WithLiteral(pieces, fmt[seg..p]) + [Lit([fmt[p]])];
          p := p + 2;
          seg := p;
          continue;
        }
        var e := FindClose(fmt, p + 1);
        if e < |fmt| {
          var piece := if e > p + 1 then Interp(fmt[p + 1..e]) else if k < n then Arg(k) else NoArg;
          TakeBraced(fmt, pieces, seg, p, e, k, n, piece);
          pieces := WithLiteral(pieces, fmt[seg..p]) + [piece];
          if piece.Arg? { k := k + 1; }
          p := e + 1;
          seg := p;
          continue;
        }
      } else if fmt[p] == '}' && p + 1 < |fmt| && fmt[p + 1] == '}' {
        TakePair(fmt, pieces, seg, p, k, n);
        pieces := WithLiteral(pieces, fmt[seg..p]) + [Lit([fmt[p]])];
        p := p + 2;
        seg := p;
        continue;
      }
      TakeChar(fmt, pieces, seg, p, k, n);
      p := p + 1;
    }
    ScanEnd(fmt, pieces, seg, k, n);
    pieces := WithLiteral(pieces, fmt[seg..p]);
  }

  method FindClose(fmt: string, from: nat) returns (e: nat)
    requires from <= |fmt|
    ensures e == CloseFrom(fmt, from)
  {
    e := from;
    while e < |fmt| && fmt[e] != '}'
      invariant from <= e <= |fmt| && CloseFrom(fmt, e) == CloseFrom(fmt, from)
    {
      e := e + 1;
    }
  }

  lemma ScanStart(fmt: string, n: nat)
    ensures ScannedTo(fmt, [], 0, 0, 0, n)
  {
    assert fmt[0..0] == "";
    AppNil(Scan(fmt, 0, 0, n));
  }

  lemma ScanEnd(fmt: string, pieces: seq<Piece>, seg: nat, k: nat, n: nat)
    requires ScannedTo(fmt, pieces, seg, |fmt|, k, n)
    ensures var all := WithLiteral(pieces, fmt[seg..|fmt|]); Flat(all) == Scan(fmt, 0, 0, n) && Lit("") !in all
  {
    FlushLast(pieces, fmt[seg..|fmt|]);
  }

  lemma TakePair(fmt: string, pieces: seq<Piece>, seg: nat, p: nat, k: nat, n: nat)
    requires ScannedTo(fmt, pieces, seg, p, k, n) && p < |fmt| && Pair(fmt, p)
    ensures ScannedTo(fmt, WithLiteral(pieces, fmt[seg..p]) + [Lit([fmt[p]])], p + 2, p + 2, k, n)
  {
    PairIs(fmt, p, k, n);
    Flush(pieces, fmt, seg, p, p + 2, Lit([fmt[p]]), Scan(fmt, p + 2, k, n));
  }

  lemma TakeBraced(fmt: string, pieces: seq<Piece>, seg: nat, p: nat, e: nat, k: nat, n: nat, piece: Piece)
    requires ScannedTo(fmt, pieces, seg, p, k, n) && p < e < |fmt| && e == CloseFrom(fmt, p + 1)
    requires fmt[p] == '{' && !Pair(fmt, p)
    requires piece == if e > p + 1 then Interp(fmt[p + 1..e]) else if k < n then Arg(k) else NoArg
    ensures ScannedTo(fmt, WithLiteral(pieces, fmt[seg..p]) + [piece], e + 1, e + 1, if piece.Arg? then k + 1 else k, n)
  {
    BracedIs(fmt, p, e, k, n, piece);
    Flush(pieces, fmt, seg, p, e + 1, piece, Scan(fmt, e + 1, if piece.Arg? then k + 1 else k, n));
  }

  lemma TakeChar(fmt: string, pieces: seq<Piece>, seg: nat, p: nat, k: nat, n: nat)
    requires ScannedTo(fmt, pieces, seg, p, k, n) && p < |fmt| && !Pair(fmt, p)
    requires fmt[p] == '{' ==> CloseFrom(fmt, p + 1) == |fmt|
    ensures ScannedTo(fmt, pieces, seg, p + 1, k, n)
  {
    CharIs(fmt, p, k, n);
    Extend(pieces, fmt, seg, p, Scan(fmt, p + 1, k, n));
  }

  lemma BracedIs(s: string, p: nat, e: nat, k: nat, n: nat, piece: Piece)
    requires p < e < |s| && s[p] == '{' && !Pair(s, p) && e == CloseFrom(s, p + 1)
    requires piece == if e > p + 1 then Interp(s[p + 1..e]) else if k < n then Arg(k) else NoArg
    ensures Scan(s, p, k, n) == [piece] + Scan(s, e + 1, if piece.Arg? then k + 1 else k, n)
  {
  }

  lemma PairIs(s: string, p: nat, k: nat, n: nat)
    requires p < |s| && Pair(s, p)
    ensures Scan(s, p, k, n) == [Lit([s[p]])] + Scan(s, p + 2, k, n)
  {
  }

  lemma CharIs(s: string, p: nat, k: nat, n: nat)
    requires p < |s| && !Pair(s, p) && (s[p] == '{' ==> CloseFrom(s, p + 1) == |s|)
    ensures Scan(s, p, k, n) == [Lit([s[p]])] + Scan(s, p + 1, k, n)
  {
  }

  function FlatOf(piece: Piece): seq<Piece> { if piece.Lit? then Chars(piece.text) else [piece] }

  lemma {:induction false} FlatApp(a: seq<Piece>, b: seq<Piece>)
    ensures Flat(a + b) == Flat(a) + Flat(b)
  {
    if a == [] {
      AppNil(b);
      AppNil(Flat(b));
    } else {
      FlatApp(a[1..], b);
      AppTail(a, b);
      Assoc(FlatOf(a[0]), Flat(a[1..]), Flat(b));
    }
  }

  lemma {:induction false} CharsApp(a: string, b: string)
    ensures Chars(a + b) == Chars(a) + Chars(b)
  {
    if a == "" {
      AppNil(b);
      AppNil(Chars(b));
    } else {
      CharsApp(a[1..], b);
      AppTail(a, b);
      Assoc([Lit([a[0]])], Chars(a[1..]), Chars(b));
    }
  }

  lemma FlushLast(pieces: seq<Piece>, segment: string)
    ensures Flat(WithLiteral(pieces, segment)) == Whole(pieces, segment, [])
    ensures Lit("") !in pieces ==> Lit("") !in WithLiteral(pieces, segment)
  {
    FlatApp(pieces, [Lit(segment)]);
    assert Flat([Lit(segment)]) == Chars(segment);
  }

  lemma FlatOne(one: Piece)
    requires one.Lit? ==> |one.text| == 1
    ensures Flat([one]) == [one]
  {
    assert [one][1..] == [];
    if one.Lit? {
      assert one.text[1..] == "" && one.text == [one.text[0]];
      assert Chars(one.text) == [Lit([one.text[0]])] + Chars("");
    }
  }

  lemma Regroup<T>(a: seq<T>, b: seq<T>, c: seq<T>, d: seq<T>)
    ensures a + b + c + d == a + (b + (c + d))
  {
  }

  lemma Flush(pieces: seq<Piece>, fmt: string, seg: nat, p: nat, next: nat, one: Piece, tail: seq<Piece>)
    requires seg <= p <= next <= |fmt| && (one.Lit? ==> |one.text| == 1)
    ensures Whole(WithLiteral(pieces, fmt[seg..p]) + [one], fmt[next..next], tail) ==
      Whole(pieces, fmt[seg..p], [one] + tail)
    ensures Lit("") !in pieces ==> Lit("") !in WithLiteral(pieces, fmt[seg..p]) + [one]
  {
    var segment := fmt[seg..p];
    FlushLast(pieces, segment);
    FlatApp(WithLiteral(pieces, segment), [one]);
    assert fmt[next..next] == "" && Chars(segment) + [] == Chars(segment) && [] + tail == tail;
    Regroup(Flat(pieces), Chars(segment), [one], tail);
    FlatOne(one);
  }

  lemma Extend(pieces: seq<Piece>, fmt: string, seg: nat, p: nat, tail: seq<Piece>)
    requires seg <= p < |fmt|
    ensures Whole(pieces, fmt[seg..p + 1], tail) == Whole(pieces, fmt[seg..p], [Lit([fmt[p]])] + tail)
  {
    CharsApp(fmt[seg..p], [fmt[p]]);
    assert fmt[seg..p] + [fmt[p]] == fmt[seg..p + 1];
    assert Chars([fmt[p]]) == [Lit([fmt[p]])];
    assert Chars(fmt[seg..p]) + [Lit([fmt[p]])] + tail == Chars(fmt[seg..p]) + ([Lit([fmt[p]])] + tail);
  }

  // Collecting literals does not change what is printed.
  lemma {:induction false} StreamedFlat(pieces: seq<Piece>, args: seq<string>, show: string -> string)
    ensures Streamed(Flat(pieces), args, show) == Streamed(pieces, args, show)
  {
    if pieces != [] {
      StreamedFlat(pieces[1..], args, show);
      if pieces[0].Lit? {
        StreamedChars(pieces[0].text, Flat(pieces[1..]), args, show);
      } else {
        StreamedCons(pieces[0], Flat(pieces[1..]), args, show);
      }
    }
  }

  function Shown(piece: Piece, args: seq<string>, show: string -> string): string {
    match piece
    case Lit(text) => text
    case Arg(k) => if k < |args| then args[k] else ""
    case NoArg => ""
    case Interp(text) => show(text)
  }

  lemma StreamedCons(piece: Piece, tail: seq<Piece>, args: seq<string>, show: string -> string)
    ensures Streamed([piece] + tail, args, show) == Shown(piece, args, show) + Streamed(tail, args, show)
  {
    ConsTail(piece, tail);
  }

  lemma {:induction false} StreamedChars(text: string, tail: seq<Piece>, args: seq<string>, show: string -> string)
    ensures Streamed(Chars(text) + tail, args, show) == text + Streamed(tail, args, show)
  {
    if text == "" {
      AppNil(tail);
      AppNil(Streamed(tail, args, show));
    } else {
      StreamedChars(text[1..], tail, args, show);
      Assoc([Lit([text[0]])], Chars(text[1..]), tail);
      StreamedCons(Lit([text[0]]), Chars(text[1..]) + tail, args, show);
      HeadTail(text);
      Assoc([text[0]], text[1..], Streamed(tail, args, show));
    }
  }

  method PrintLoop(fmt: string, args: seq<string>) returns (out: string)
    ensures out == Printed(fmt, 0, args, 0)
  {
    out := "";
    var ai: nat, i: nat := 0, 0;
    while i < |fmt|
      invariant i <= |fmt| && ai <= |args| && out + Printed(fmt, i, args, ai) == Printed(fmt, 0, args, 0)
    {
      if fmt[i] == '{' && i + 1 < |fmt| && fmt[i + 1] == '{' {
        Assoc(out, "{", Printed(fmt, i + 2, args, ai));
        out := out + "{";
        i := i + 1;
      } else if fmt[i] == '}' && i + 1 < |fmt| && fmt[i + 1] == '}' {
        Assoc(out, "}", Printed(fmt, i + 2, args, ai));
        out := out + "}";
        i := i + 1;
      } else if fmt[i] == '{' && i + 1 < |fmt| && fmt[i + 1] == '}' {
        if ai < |args| {
          Assoc(out, args[ai], Printed(fmt, i + 2, args, ai + 1));
          out := out + args[ai];
          ai := ai + 1;
        }
        i := i + 1;
      } else {
        Assoc(out, [fmt[i]], Printed(fmt, i + 1, args, ai));
        out := out + [fmt[i]];
      }
      i := i + 1;
    }
  }

  // ---------- agreement ----------

  predicate AllGiven(pieces: seq<Piece>) { NoArg !in pieces }

  predicate NoInterp(pieces: seq<Piece>) { forall i | 0 <= i < |pieces| :: !pieces[i].Interp? }

  lemma {:induction false} ScanPrints(s: string, p: nat, k: nat, args: seq<string>, show: string -> string)
    requires p <= |s| && k <= |args|
    requires AllGiven(Scan(s, p, k, |args|)) && NoInterp(Scan(s, p, k, |args|))
    ensures Streamed(Scan(s, p, k, |args|), args, show) == Printed(s, p, args, k)
    decreases |s| - p
  {
    if p < |s| {
      var e := CloseFrom(s, p + 1);
      if Pair(s, p) {
        PairIs(s, p, k, |args|);
        TailPlain(Lit([s[p]]), Scan(s, p + 2, k, |args|));
        StreamedCons(Lit([s[p]]), Scan(s, p + 2, k, |args|), args, show);
        ScanPrints(s, p + 2, k, args, show);
      } else if s[p] == '{' && e < |s| {
        var piece := if e > p + 1 then Interp(s[p + 1..e]) else if k < |args| then Arg(k) else NoArg;
        BracedIs(s, p, e, k, |args|, piece);
        assert Scan(s, p, k, |args|)[0] == piece;
        TailPlain(Arg(k), Scan(s, p + 2, k + 1, |args|));
        StreamedCons(Arg(k), Scan(s, p + 2, k + 1, |args|), args, show);
        ScanPrints(s, p + 2, k + 1, args, show);
      } else {
        CharIs(s, p, k, |args|);
        TailPlain(Lit([s[p]]), Scan(s, p + 1, k, |args|));
        StreamedCons(Lit([s[p]]), Scan(s, p + 1, k, |args|), args, show);
        CloseNext(s, p);
        ScanPrints(s, p + 1, k, args, show);
      }
    }
  }

  lemma TailPlain(piece: Piece, tail: seq<Piece>)
    requires AllGiven([piece] + tail) && NoInterp([piece] + tail)
    ensures AllGiven(tail) && NoInterp(tail) && piece != NoArg && !piece.Interp?
  {
    var pieces := [piece] + tail;
    ConsTail(piece, tail);
    assert forall i | 0 <= i < |tail| :: tail[i] == pieces[i + 1];
  }

  lemma CloseNext(s: string, p: nat)
    requires p < |s| && (s[p] == '{' ==> CloseFrom(s, p + 1) == |s|)
    ensures s[p] == '{' && p + 1 < |s| ==> s[p + 1] != '}'
  {
  }

  function Width(pieces: seq<Piece>): nat {
    if pieces == [] then 0 else (if pieces[0].Interp? then 1 else 0) + Width(pieces[1..])
  }

  lemma {:induction false} ShownWidth(pieces: seq<Piece>, args: seq<string>)
    ensures |Streamed(pieces, args, _ => "x")| == |Streamed(pieces, args, _ => "")| + Width(pieces)
  {
    if pieces != [] { ShownWidth(pieces[1..], args); }
  }

  lemma {:induction false} NoWidth(pieces: seq<Piece>)
    ensures Width(pieces) == 0 <==> NoInterp(pieces)
  {
    if pieces != [] {
      NoWidth(pieces[1..]);
      assert pieces == [pieces[0]] + pieces[1..];
    }
  }

  /** With enough arguments the two formatters print the same, whatever interpolated
      expressions would print, exactly if the format interpolates none. */
  lemma FormattersAgree(fmt: string, args: seq<string>)
    requires AllGiven(Scan(fmt, 0, 0, |args|))
    ensures (forall show :: Streamed(Scan(fmt, 0, 0, |args|), args, show) == Printed(fmt, 0, args, 0)) <==>
      NoInterp(Scan(fmt, 0, 0, |args|))
  {
    var pieces := Scan(fmt, 0, 0, |args|);
    if NoInterp(pieces) {
      forall show ensures Streamed(pieces, args, show) == Printed(fmt, 0, args, 0) {
        ScanPrints(fmt, 0, 0, args, show);
      }
    } else {
      ShownWidth(pieces, args);
      NoWidth(pieces);
      assert Streamed(pieces, args, _ => "x") != Streamed(pieces, args, _ => "");
    }
  }

  // ---------- formats as they are meant ----------

  datatype Part = Plain(c: char) | Open | Close | Slot

  function One(part: Part): string {
    match part case Plain(c) => [c] case Open => "{{" case Close => "}}" case Slot => "{}"
  }

  function Written(parts: seq<Part>): string {
    if parts == [] then "" else One(parts[0]) + Written(parts[1..])
  }

  predicate Writable(parts: seq<Part>) {
    forall i | 0 <= i < |parts| && parts[i].Plain? :: parts[i].c != '{' && parts[i].c != '}'
  }

  function Slots(parts: seq<Part>): nat {
    if parts == [] then 0 else (if parts[0].Slot? then 1 else 0) + Slots(parts[1..])
  }

  function Meant(parts: seq<Part>, k: nat, n: nat): seq<Piece> {
    if parts == [] then []
    else match parts[0]
      case Plain(c) => [Lit([c])] + Meant(parts[1..], k, n)
      case Open => [Lit("{")] + Meant(parts[1..], k, n)
      case Close => [Lit("}")] + Meant(parts[1..], k, n)
      case Slot => if k < n then [Arg(k)] + Meant(parts[1..], k + 1, n) else [NoArg] + Meant(parts[1..], k, n)
  }

  lemma {:induction false} CloseShift(s: string, off: nat, b: string, p: nat)
    requires EndsIn(s, off, b) && p <= |b|
    ensures CloseFrom(s, off + p) == off + CloseFrom(b, p)
    decreases |b| - p
  {
    if p < |b| {
      assert s[off + p] == b[p];
      if b[p] != '}' { CloseShift(s, off, b, p + 1); }
    }
  }

  lemma PairShift(s: string, off: nat, b: string, p: nat)
    requires EndsIn(s, off, b) && p < |b|
    ensures (Pair(s, off + p) <==> Pair(b, p)) && s[off + p] == b[p]
  {
    if p + 1 < |b| { assert s[off + (p + 1)] == b[p + 1]; }
  }

  lemma {:induction false} ScanShift(s: string, off: nat, b: string, p: nat, k: nat, n: nat)
    requires EndsIn(s, off, b) && p <= |b|
    ensures Scan(s, off + p, k, n) == Scan(b, p, k, n)
    decreases |b| - p
  {
    if p < |b| {
      var e := CloseFrom(b, p + 1);
      if Pair(b, p) {
        ScanShift(s, off, b, p + 2, k, n);
        ShiftPair(s, off, b, p, k, n);
      } else if b[p] == '{' && e < |b| {
        ScanShift(s, off, b, e + 1, if e == p + 1 && k < n then k + 1 else k, n);
        ShiftBraced(s, off, b, p, e, k, n);
      } else {
        ScanShift(s, off, b, p + 1, k, n);
        ShiftChar(s, off, b, p, k, n);
      }
    }
  }

  lemma ShiftPair(s: string, off: nat, b: string, p: nat, k: nat, n: nat)
    requires EndsIn(s, off, b) && p < |b| && Pair(b, p)
    requires Scan(s, off + (p + 2), k, n) == Scan(b, p + 2, k, n)
    ensures Scan(s, off + p, k, n) == Scan(b, p, k, n)
  {
    PairShift(s, off, b, p);
    PairIs(b, p, k, n);
    PairIs(s, off + p, k, n);
  }

  lemma ShiftChar(s: string, off: nat, b: string, p: nat, k: nat, n: nat)
    requires EndsIn(s, off, b) && p < |b| && !Pair(b, p) && (b[p] == '{' ==> CloseFrom(b, p + 1) == |b|)
    requires Scan(s, off + (p + 1), k, n) == Scan(b, p + 1, k, n)
    ensures Scan(s, off + p, k, n) == Scan(b, p, k, n)
  {
    PairShift(s, off, b, p);
    CloseShift(s, off, b, p + 1);
    CharIs(b, p, k, n);
    CharIs(s, off + p, k, n);
  }

  lemma ShiftBraced(s: string, off: nat, b: string, p: nat, e: nat, k: nat, n: nat)
    requires EndsIn(s, off, b) && p < e < |b| && !Pair(b, p) && b[p] == '{' && e == CloseFrom(b, p + 1)
    requires var used := if e == p + 1 && k < n then k + 1 else k;
      Scan(s, off + (e + 1), used, n) == Scan(b, e + 1, used, n)
    ensures Scan(s, off + p, k, n) == Scan(b, p, k, n)
  {
    PairShift(s, off, b, p);
    CloseShift(s, off, b, p + 1);
    SliceShift(s, off, b, p + 1, e);
    var piece := if e > p + 1 then Interp(b[p + 1..e]) else if k < n then Arg(k) else NoArg;
    BracedIs(b, p, e, k, n, piece);
    BracedIs(s, off + p, off + e, k, n, piece);
  }

  /** Reading a format gives what was written: doubled braces are braces, each slot is the
      next argument, everything else is text. */
  lemma {:induction false} ScanWritten(parts: seq<Part>, k: nat, n: nat)
    requires Writable(parts)
    ensures Scan(Written(parts), 0, k, n) == Meant(parts, k, n)
    decreases |parts|
  {
    if parts != [] {
      var used := if parts[0].Slot? && k < n then k + 1 else k;
      ScanWritten(parts[1..], used, n);
      ScanPart(parts[0], Written(parts[1..]), k, used, n);
    }
  }

  lemma ScanPart(part: Part, tail: string, k: nat, used: nat, n: nat)
    requires part.Plain? ==> part.c != '{' && part.c != '}'
    requires used == if part.Slot? && k < n then k + 1 else k
    ensures Scan(One(part) + tail, 0, k, n) == [if part.Slot? then if k < n then Arg(k) else NoArg else
        Lit(if part.Plain? then [part.c] else if part.Open? then "{" else "}")] + Scan(tail, 0, used, n)
  {
    var s := One(part) + tail;
    ScanShift(s, |One(part)|, tail, 0, used, n);
    if part.Slot? {
      assert CloseFrom(s, 1) == 1;
      BracedIs(s, 0, 1, k, n, if k < n then Arg(k) else NoArg);
    } else if part.Plain? {
      CharIs(s, 0, k, n);
    } else {
      PairIs(s, 0, k, n);
    }
  }

  lemma {:induction false} MeantPlain(parts: seq<Part>, k: nat, n: nat)
    ensures NoInterp(Meant(parts, k, n))
    ensures AllGiven(Meant(parts, k, n)) <==> k + Slots(parts) <= n || Slots(parts) == 0
    decreases |parts|
  {
    if parts != [] {
      if parts[0].Slot? && k < n { MeantPlain(parts[1..], k + 1, n); } else { MeantPlain(parts[1..], k, n); }
    }
  }

  /** On such formats both formatters print the same as soon as there are enough arguments. */
  lemma WrittenAgree(parts: seq<Part>, args: seq<string>, show: string -> string)
    requires Writable(parts) && Slots(parts) <= |args|
    ensures Streamed(Scan(Written(parts), 0, 0, |args|), args, show) == Printed(Written(parts), 0, args, 0)
  {
    ScanWritten(parts, 0, |args|);
    MeantPlain(parts, 0, |args|);
    FormattersAgree(Written(parts), args);
  }

  function Doubled(text: string): string {
    if text == "" then ""
    else (if text[0] == '{' then "{{" else if text[0] == '}' then "}}" else [text[0]]) + Doubled(text[1..])
  }

  function Quoted(text: string): seq<Part> {
    if text == "" then []
    else [if text[0] == '{' then Open else if text[0] == '}' then Close else Plain(text[0])] + Quoted(text[1..])
  }

  lemma {:induction false} QuotedText(text: string, n: nat)
    ensures Written(Quoted(text)) == Doubled(text) && Writable(Quoted(text)) && Slots(Quoted(text)) == 0
    ensures Meant(Quoted(text), 0, n) == Chars(text)
  {
    if text != "" {
      QuotedText(text[1..], n);
      assert Quoted(text)[1..] == Quoted(text[1..]);
    }
  }

  /** Doubling the braces of a text makes a format that prints the text, with any arguments,
      by either formatter. */
  lemma DoublingQuotes(text: string, args: seq<string>, show: string -> string)
    ensures Printed(Doubled(text), 0, args, 0) == text
    ensures Streamed(Scan(Doubled(text), 0, 0, |args|), args, show) == text
  {
    QuotedText(text, |args|);
    ScanWritten(Quoted(text), 0, |args|);
    StreamedChars(text, [], args, show);
    assert Chars(text) + [] == Chars(text);
    WrittenAgree(Quoted(text), args, show);
  }
}
