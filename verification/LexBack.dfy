/** Token lists written out with spaces and line breaks are lexed back to themselves. */
module LexBack {
  import opened Options
  import opened Lexer
  import opened Seqs

  // A token by kind and text, without its place.
  datatype Spell = Spell(kind: Kind, text: string)

  const QUOTE := "\""
  const TRIPLE := "\"\"\""

  function Raw(sp: Spell): string {
    match sp.kind
    case StrLit => QUOTE + sp.text + QUOTE
    case MstrLit => TRIPLE + sp.text + TRIPLE
    case CharLit => "'" + sp.text + "'"
    case Builtin => "@" + sp.text
    case _ => sp.text
  }

  predicate AllIn(cl: Class, s: string) { forall i | 0 <= i < |s| :: In(cl, s[i]) }

  predicate BasedText(s: string) {
    |s| >= 2 && s[0] == '0' &&
    (((s[1] == 'x' || s[1] == 'X') && AllIn(Hex, s[2..])) || ((s[1] == 'b' || s[1] == 'B') && AllIn(Bin, s[2..])))
  }

  predicate FloatText(s: string, dot: nat) {
    0 < dot < |s| - 1 && s[dot] == '.' && AllIn(Digit, s[..dot]) && AllIn(Digit, s[dot + 1..])
  }

  // Every quote is behind a backslash and no backslash stands alone at the end.
  predicate Escaped(s: string, i: nat)
    decreases |s| + 2 - i
  {
    i == |s| || (i < |s| && s[i] != '"' && Escaped(s, if s[i] == '\\' then i + 2 else i + 1))
  }

  predicate WordText(s: string) { s != "" && IsLetter(s[0]) && AllIn(WordChar, s) }

  predicate SymText(s: string) {
    || (|s| == 1 && Sym1(s[0]))
    || (|s| == 2 && Sym2(s[0], s[1]))
    || (|s| == 3 && Sym3(s[0], s[1], s[2]))
  }

  predicate Spellable(sp: Spell) {
    match sp.kind
    case IntLit => BasedText(sp.text) || (sp.text != "" && AllIn(Digit, sp.text))
    case FloatLit => exists dot: nat | dot < |sp.text| :: FloatText(sp.text, dot)
    case StrLit => Escaped(sp.text, 0)
    case MstrLit => forall i | 0 <= i < |sp.text| :: !Triple(sp.text + TRIPLE, i)
    case CharLit => (|sp.text| == 1 && sp.text[0] != '\\') || (|sp.text| == 2 && sp.text[0] == '\\')
    case Word => WordText(sp.text) && sp.text !in KEYWORDS
    case Builtin => AllIn(WordChar, sp.text)
    case Kw(w) => sp.text == w && w in KEYWORDS
    case Sym(op) => sp.text == op && SymText(op)
    case Newline => sp.text == ""
    case Eof => false
    case Error => false
  }

  // A NEWLINE only behind a token that can end a statement.
  predicate WellFormed(ts: seq<Spell>, last: Kind) {
    ts == [] || (Spellable(ts[0]) && (ts[0].kind == Newline ==> CanEnd(last)) && WellFormed(ts[1..], ts[0].kind))
  }

  function Written(ts: seq<Spell>): string {
    if ts == [] then "" else (if ts[0].kind == Newline then "\n" else Raw(ts[0]) + " ") + Written(ts[1..])
  }

  function TextOf(src: string, t: Token): string {
    if 0 <= t.len <= |src| - t.from then src[t.from..t.from + t.len] else ""
  }

  function Spelled(src: string, ts: seq<Token>): seq<Spell> {
    if ts == [] then [] else [Spell(ts[0].kind, TextOf(src, ts[0]))] + Spelled(src, ts[1..])
  }

  // ---------- one token ----------

  // The raw text of a token stands at q, a space behind it.
  predicate Stands(src: string, q: nat, raw: string) {
    q + |raw| < |src| && src[q + |raw|] == ' ' && forall i | 0 <= i < |raw| :: src[q + i] == raw[i]
  }

  lemma {:induction false} SpanExact(src: string, p: nat, e: nat, cl: Class)
    requires p <= e < |src| && !In(cl, src[e]) && forall i | p <= i < e :: In(cl, src[i])
    ensures Span(src, p, cl) == e
    decreases e - p
  {
    if p < e { SpanExact(src, p + 1, e, cl); }
  }

  // A stretch of the raw text, all of one class, up to the space.
  lemma SpanToEnd(src: string, q: nat, raw: string, k: nat, cl: Class)
    requires Stands(src, q, raw) && k <= |raw| && !In(cl, ' ') && AllIn(cl, raw[k..])
    ensures Span(src, q + k, cl) == q + |raw|
  {
    forall i | q + k <= i < q + |raw| ensures In(cl, src[i]) {
      assert src[q + (i - q)] == raw[i - q] == raw[k..][i - q - k];
    }
    SpanExact(src, q + k, q + |raw|, cl);
  }

  // Where the text starts within the raw text.
  function Off(k: Kind): nat {
    if k.MstrLit? then 3 else if k.StrLit? || k.CharLit? || k.Builtin? then 1 else 0
  }

  lemma RawText(sp: Spell)
    ensures Off(sp.kind) + |sp.text| <= |Raw(sp)|
    ensures Raw(sp)[Off(sp.kind)..Off(sp.kind) + |sp.text|] == sp.text
  {
  }

  ghost predicate Reads(src: string, q: nat, sp: Spell)
    requires q < |src|
  {
    var raw := Raw(sp);
    LexAt(src, q) == Some(Lexeme(sp.kind, q + Off(sp.kind), |sp.text|, q + |raw|)) && !IsSpace(src[q]) && src[q] != '#'
  }

  lemma ReadWord(src: string, q: nat, sp: Spell)
    requires sp.kind.Word? || sp.kind.Kw?
    requires WordText(sp.text) && sp.kind == WordKind(sp.text) && Stands(src, q, sp.text)
    ensures LexAt(src, q) == Some(Lexeme(sp.kind, q, |sp.text|, q + |sp.text|)) && IsLetter(src[q])
  {
    var s := sp.text;
    assert src[q] == src[q + 0] == s[0];
    SpanToEnd(src, q, s, 1, WordChar);
    assert src[q..q + |s|] == s;
  }

  lemma ReadBuiltin(src: string, q: nat, text: string)
    requires AllIn(WordChar, text) && Stands(src, q, "@" + text)
    ensures LexAt(src, q) == Some(Lexeme(Builtin, q + 1, |text|, q + 1 + |text|)) && src[q] == '@'
  {
    var raw := "@" + text;
    assert src[q] == src[q + 0] == raw[0];
    assert raw[1..] == text;
    SpanToEnd(src, q, raw, 1, WordChar);
  }

  lemma ReadBased(src: string, q: nat, s: string)
    requires BasedText(s) && Stands(src, q, s)
    ensures LexAt(src, q) == Some(Lexeme(IntLit, q, |s|, q + |s|)) && IsDigit(src[q])
  {
    assert src[q] == src[q + 0] == s[0] && src[q + 1] == s[1];
    if s[1] == 'x' || s[1] == 'X' { SpanToEnd(src, q, s, 2, Hex); } else { SpanToEnd(src, q, s, 2, Bin); }
  }

  lemma ReadDecimal(src: string, q: nat, s: string)
    requires s != "" && AllIn(Digit, s) && Stands(src, q, s)
    ensures LexAt(src, q) == Some(Lexeme(IntLit, q, |s|, q + |s|)) && IsDigit(src[q])
  {
    assert src[q] == src[q + 0] == s[0] && In(Digit, s[0]);
    if |s| > 1 { assert src[q + 1] == s[1] && In(Digit, s[1]); }
    SpanToEnd(src, q, s, 1, Digit);
  }

  lemma ReadFloat(src: string, q: nat, s: string, dot: nat)
    requires FloatText(s, dot) && Stands(src, q, s)
    ensures LexAt(src, q) == Some(Lexeme(FloatLit, q, |s|, q + |s|)) && IsDigit(src[q])
  {
    assert src[q] == src[q + 0] == s[0] == s[..dot][0];
    assert src[q + 1] == s[1] && (dot > 1 ==> s[1] == s[..dot][1]);
    assert src[q + dot] == s[dot] && src[q + (dot + 1)] == s[dot + 1] == s[dot + 1..][0];
    forall i | q + 1 <= i < q + dot ensures In(Digit, src[i]) {
      assert src[q + (i - q)] == s[i - q] == s[..dot][i - q];
    }
    SpanExact(src, q + 1, q + dot, Digit);
    SpanToEnd(src, q, s, dot + 1, Digit);
  }

  lemma ReadSym(src: string, q: nat, s: string)
    requires SymText(s) && Stands(src, q, s)
    ensures LexAt(src, q) == Some(Lexeme(Sym(s), q, |s|, q + |s|)) && !IsSpace(src[q]) && src[q] != '#'
  {
    assert src[q] == src[q + 0] == s[0];
    if |s| > 1 { assert src[q + 1] == s[1]; }
    if |s| > 2 { assert src[q + 2] == s[2]; }
    assert src[q..q + |s|] == s;
  }

  // The text s stands at q, with something behind it.
  predicate Holds(src: string, q: nat, s: string) {
    q + |s| < |src| && forall k | 0 <= k < |s| :: src[q + k] == s[k]
  }

  lemma {:induction false} StopAtQuote(src: string, q: nat, s: string, i: nat)
    requires Escaped(s, i) && i <= |s| && Holds(src, q, s) && src[q + |s|] == '"'
    ensures StrStop(src, q + i) == Some(q + |s|)
    decreases |s| + 2 - i
  {
    if i < |s| {
      assert src[q + i] == s[i];
      StopAtQuote(src, q, s, if s[i] == '\\' then i + 2 else i + 1);
    }
  }

  lemma StrStops(src: string, q: nat, s: string)
    requires Escaped(s, 0) && Stands(src, q, QUOTE + s + QUOTE)
    ensures q + 1 + |s| < |src| && src[q] == '"' && !Triple(src, q) && StrStop(src, q + 1) == Some(q + 1 + |s|)
  {
    StrInside(src, q, s);
    StopAtQuote(src, q + 1, s, 0);
    NotTriple(src, q, s);
  }

  lemma NotTriple(src: string, q: nat, s: string)
    requires Escaped(s, 0) && Holds(src, q + 1, s) && q + 2 + |s| < |src| && src[q + 2 + |s|] == ' '
    ensures !Triple(src, q)
  {
    if s != "" { assert src[q + 1 + 0] == s[0] != '"'; }
  }

  lemma StrFrom(src: string, q: nat, n: nat)
    requires q + 1 + n < |src| && src[q] == '"' && !Triple(src, q) && StrStop(src, q + 1) == Some(q + 1 + n)
    ensures LexAt(src, q) == Some(Lexeme(StrLit, q + 1, n, q + n + 2))
  {
  }

  lemma StrInside(src: string, q: nat, s: string)
    requires Stands(src, q, QUOTE + s + QUOTE)
    ensures Holds(src, q + 1, s) && q + 2 + |s| < |src|
    ensures src[q] == '"' && src[q + 1 + |s|] == '"' && src[q + 2 + |s|] == ' '
  {
    var raw := QUOTE + s + QUOTE;
    assert |raw| == |s| + 2;
    assert src[q] == src[q + 0] == raw[0];
    assert src[q + (|s| + 1)] == raw[|s| + 1] == '"';
    forall k | 0 <= k < |s| ensures src[q + 1 + k] == s[k] { assert src[q + (k + 1)] == raw[k + 1]; }
  }

  lemma ReadChar(src: string, q: nat, s: string)
    requires Spellable(Spell(CharLit, s)) && Stands(src, q, "'" + s + "'")
    ensures LexAt(src, q) == Some(Lexeme(CharLit, q + 1, |s|, q + |s| + 2)) && src[q] == '\''
  {
    var raw := "'" + s + "'";
    assert src[q] == src[q + 0] == raw[0];
    assert src[q + 1] == raw[1] == s[0];
    assert src[q + (|s| + 1)] == raw[|s| + 1] == '\'';
  }

  lemma {:induction false} StopAtTriple(src: string, p: nat, e: nat)
    requires p <= e <= |src| && Triple(src, e) && forall i | p <= i < e :: !Triple(src, i)
    ensures MstrStop(src, p) == e
    decreases e - p
  {
    if p < e { StopAtTriple(src, p + 1, e); }
  }

  lemma ReadMstr(src: string, q: nat, s: string)
    requires (forall i | 0 <= i < |s| :: !Triple(s + TRIPLE, i)) && Stands(src, q, TRIPLE + s + TRIPLE)
    ensures LexAt(src, q) == Some(Lexeme(MstrLit, q + 3, |s|, q + |s| + 6)) && src[q] == '"'
  {
    var raw := TRIPLE + s + TRIPLE;
    var body := s + TRIPLE;
    assert src[q] == src[q + 0] == raw[0] && src[q + 1] == raw[1] && src[q + 2] == raw[2];
    forall k | 0 <= k < |body| ensures src[q + 3 + k] == body[k] { assert src[q + (k + 3)] == raw[k + 3]; }
    assert body[|s|] == '"' && body[|s| + 1] == '"' && body[|s| + 2] == '"';
    assert Triple(src, q + 3 + |s|);
    forall i | q + 3 <= i < q + 3 + |s| ensures !Triple(src, i) {
      var k := i - q - 3;
      assert !Triple(body, k);
      assert src[q + 3 + k] == body[k] && src[q + 3 + (k + 1)] == body[k + 1] && src[q + 3 + (k + 2)] == body[k + 2];
    }
    StopAtTriple(src, q + 3, q + 3 + |s|);
  }

  // The keyword table holds words only.
  lemma KeywordIsWord(w: string)
    requires w in KEYWORDS
    ensures WordText(w)
  {
    var i :| 0 <= i < |KEYWORDS| && KEYWORDS[i] == w;
    assert w[0] == KEYWORDS[i][0];
    forall j | 0 <= j < |w| ensures In(WordChar, w[j]) { KeywordChar(i, j); }
  }

  lemma KeywordChar(i: nat, j: nat)
    requires i < |KEYWORDS| && j < |KEYWORDS[i]|
    ensures 'a' <= KEYWORDS[i][j] <= 'z'
  {
  }

  lemma ReadBack(src: string, q: nat, sp: Spell)
    requires Spellable(sp) && sp.kind != Newline && Stands(src, q, Raw(sp))
    ensures Reads(src, q, sp)
  {
    var s := sp.text;
    if sp.kind.Kw? { KeywordIsWord(s); ReadWord(src, q, sp); }
    else if sp.kind.Word? { ReadWord(src, q, sp); }
    else if sp.kind.Builtin? { ReadBuiltin(src, q, s); }
    else if sp.kind.Sym? { ReadSym(src, q, s); }
    else if sp.kind.StrLit? { StrStops(src, q, s); StrFrom(src, q, |s|); }
    else if sp.kind.MstrLit? { ReadMstr(src, q, s); }
    else if sp.kind.CharLit? { ReadChar(src, q, s); }
    else if sp.kind.FloatLit? { var dot: nat :| dot < |s| && FloatText(s, dot); ReadFloat(src, q, s, dot); }
    else if BasedText(s) { ReadBased(src, q, s); }
    else { ReadDecimal(src, q, s); }
  }

  // ---------- a list of tokens ----------

  // From p on: white space up to q, then the tokens ts written out.
  ghost predicate Ahead(src: string, p: nat, q: nat, ts: seq<Spell>) {
    p <= q <= |src| && (forall i | p <= i < q :: src[i] == ' ' || src[i] == '\n') && src[q..] == Written(ts)
      && (ts != [] ==> ts[0].kind != Newline)
  }

  lemma SkipTo(src: string, p: nat, q: nat)
    requires p <= q <= |src| && (forall i | p <= i < q :: src[i] == ' ' || src[i] == '\n')
    requires q < |src| ==> !IsSpace(src[q]) && src[q] != '#'
    ensures Skip(src, p) == q
  {
    if q < |src| { SpanExact(src, p, q, Space); } else { SpanOut(src, p, Space); }
  }

  lemma {:induction false} SpanOut(src: string, p: nat, cl: Class)
    requires p <= |src| && forall i | p <= i < |src| :: In(cl, src[i])
    ensures Span(src, p, cl) == |src|
    decreases |src| - p
  {
    if p < |src| { SpanOut(src, p + 1, cl); }
  }

  // The first token of the list stands at q, and the rest behind it.
  lemma FirstStands(src: string, q: nat, ts: seq<Spell>)
    requires q <= |src| && src[q..] == Written(ts) && ts != [] && ts[0].kind != Newline
    ensures Stands(src, q, Raw(ts[0])) && SpaceAt(src, q + |Raw(ts[0])|, ts[1..])
  {
    var raw := Raw(ts[0]);
    var tail := Written(ts[1..]);
    var rest := src[q..];
    assert rest == raw + " " + tail;
    assert forall i | 0 <= i < |rest| :: src[q + i] == rest[i];
    assert rest[|raw|] == ' ' && rest[|raw| + 1..] == tail;
    assert src[q + |raw| + 1..] == rest[|raw| + 1..];
  }

  // The item read first is the first token of the list.
  lemma ReadFirst(src: string, p: nat, q: nat, ts: seq<Spell>, last: Kind)
    requires Ahead(src, p, q, ts) && WellFormed(ts, last) && ts != []
    ensures q < |src| && Skip(src, p) == q && Reads(src, q, ts[0])
  {
    FirstStands(src, q, ts);
    ReadBack(src, q, ts[0]);
    SkipTo(src, p, q);
  }

  // Behind a token stands a space, and behind that the rest of the list.
  predicate SpaceAt(src: string, n: nat, tail: seq<Spell>) {
    n < |src| && src[n] == ' ' && src[n + 1..] == Written(tail)
  }

  predicate BreakNext(ts: seq<Spell>) { |ts| > 1 && ts[1].kind == Newline }

  // A NEWLINE, if one is due.
  function Pending(broken: bool): seq<Spell> { if broken then [Spell(Newline, "")] else [] }

  function Due(src: string, p: nat, q: nat, last: Kind): seq<Spell>
    requires p <= q <= |src|
  {
    Pending(CanEnd(last) && Broken(src, p, q))
  }

  lemma AheadSpace(src: string, n: nat, ts: seq<Spell>, last: Kind)
    requires WellFormed(ts, last) && ts != [] && SpaceAt(src, n, ts[1..]) && !BreakNext(ts)
    ensures Ahead(src, n, n + 1, ts[1..]) && WellFormed(ts[1..], ts[0].kind)
    ensures Due(src, n, n + 1, ts[0].kind) == Pending(false)
  {
    assert src[n..n + 1] == " ";
  }

  lemma AheadBreak(src: string, n: nat, ts: seq<Spell>, last: Kind)
    requires WellFormed(ts, last) && ts != [] && SpaceAt(src, n, ts[1..]) && BreakNext(ts)
    ensures Ahead(src, n, n + 2, ts[2..]) && WellFormed(ts[2..], ts[0].kind)
    ensures Due(src, n, n + 2, ts[0].kind) == Pending(true) && ts[1] == Spell(Newline, "")
  {
    BreakOnce(ts, last);
    var rest := src[n + 1..];
    assert rest == "\n" + Written(ts[2..]);
    assert src[n + 1] == rest[0] && src[n + 2..] == rest[1..] == Written(ts[2..]);
    assert src[n..n + 2][1] == '\n';
  }

  lemma BreakOnce(ts: seq<Spell>, last: Kind)
    requires WellFormed(ts, last) && BreakNext(ts)
    ensures WellFormed(ts[2..], ts[0].kind) && CanEnd(ts[0].kind) && ts[1] == Spell(Newline, "")
    ensures Written(ts[1..]) == "\n" + Written(ts[2..]) && (ts[2..] != [] ==> ts[2].kind != Newline)
  {
    assert ts[1..][1..] == ts[2..];
    assert WellFormed(ts[2..], Newline);
  }

  const ENDED := [Spell(Eof, "")]

  // What is read ahead is readable.
  lemma {:induction false} AheadReadable(src: string, p: nat, q: nat, ts: seq<Spell>, last: Kind)
    requires Ahead(src, p, q, ts) && WellFormed(ts, last)
    ensures Readable(src, p)
    decreases |ts|
  {
    if ts == [] {
      assert |src[q..]| == 0;
      SkipTo(src, p, q);
    } else {
      var n := q + |Raw(ts[0])|;
      FirstStands(src, q, ts);
      if BreakNext(ts) {
        AheadBreak(src, n, ts, last);
        AheadReadable(src, n, n + 2, ts[2..], ts[0].kind);
      } else {
        AheadSpace(src, n, ts, last);
        AheadReadable(src, n, n + 1, ts[1..], ts[0].kind);
      }
      FirstReadable(src, p, q, ts, last, n);
    }
  }

  lemma FirstReadable(src: string, p: nat, q: nat, ts: seq<Spell>, last: Kind, n: nat)
    requires Ahead(src, p, q, ts) && WellFormed(ts, last) && ts != []
    requires n == q + |Raw(ts[0])| && n <= |src| && Readable(src, n)
    ensures Readable(src, p)
  {
    ReadFirst(src, p, q, ts, last);
    ReadableStep(src, p, n);
  }

  lemma ReadableStep(src: string, p: nat, n: nat)
    requires p <= |src| && Skip(src, p) < |src| && n <= |src| && Readable(src, n)
    requires LexAt(src, Skip(src, p)).Some? && LexAt(src, Skip(src, p)).value.next == n
    ensures Readable(src, p)
  {
  }

  lemma {:induction false} SpelledApp(src: string, a: seq<Token>, b: seq<Token>)
    ensures Spelled(src, a + b) == Spelled(src, a) + Spelled(src, b)
  {
    if a == [] {
      AppNil(b);
      AppNil(Spelled(src, b));
    } else {
      SpelledApp(src, a[1..], b);
      AppTail(a, b);
      Assoc([Spell(a[0].kind, TextOf(src, a[0]))], Spelled(src, a[1..]), Spelled(src, b));
    }
  }

  function After(src: string, it: Item): seq<Token>
    requires it.next <= |src| && Readable(src, it.next)
  {
    if it.tok.kind == Eof then [] else Stream(src, it.next, it.tok.kind)
  }

  // The stream from p on, spelled: a NEWLINE if one is due, the first token, the rest.
  lemma SpelledStream(src: string, p: nat, last: Kind)
    requires p <= |src| && Readable(src, p)
    ensures var it := ItemAt(src, p);
      Readable(src, it.next) && Spelled(src, Stream(src, p, last)) ==
        Pending(CanEnd(last) && Broken(src, p, it.start)) + [Spell(it.tok.kind, TextOf(src, it.tok))] +
          Spelled(src, After(src, it))
  {
    var it := ItemAt(src, p);
    EndAgain(src, p);
    StreamIs(src, p, last);
    LineGrows(src, p, it.start);
    SpelledApp(src, Before(src, it, last) + [it.tok], After(src, it));
    SpelledApp(src, Before(src, it, last), [it.tok]);
    SpelledOne(src, it.tok);
    if Before(src, it, last) != [] { SpelledOne(src, Break(src, it)); }
  }

  lemma SpelledOne(src: string, t: Token)
    ensures Spelled(src, [t]) == [Spell(t.kind, TextOf(src, t))]
  {
    assert [t][1..] == [];
  }

  lemma FirstItem(src: string, p: nat, q: nat, ts: seq<Spell>, last: Kind)
    requires Ahead(src, p, q, ts) && WellFormed(ts, last) && ts != [] && Readable(src, p)
    ensures var it := ItemAt(src, p);
      it.start == q && it.next == q + |Raw(ts[0])| && it.tok.kind == ts[0].kind && it.tok.kind != Eof
      && it.tok.from == q + Off(ts[0].kind) && it.tok.len == |ts[0].text|
  {
    ReadFirst(src, p, q, ts, last);
  }

  lemma FirstText(src: string, q: nat, sp: Spell, t: Token)
    requires Stands(src, q, Raw(sp)) && t.from == q + Off(sp.kind) && t.len == |sp.text|
    ensures TextOf(src, t) == sp.text
  {
    RawText(sp);
    var raw, off := Raw(sp), Off(sp.kind);
    assert src[q..q + |raw|] == raw;
    SliceOfSlice(src, q, |raw|, off, off + |sp.text|);
  }

  // The stream from p on, spelled.
  function Heard(src: string, p: nat, last: Kind): seq<Spell>
    requires p <= |src| && Readable(src, p)
  {
    Spelled(src, Stream(src, p, last))
  }

  lemma StreamStep(src: string, p: nat, q: nat, ts: seq<Spell>, last: Kind, n: nat)
    requires Ahead(src, p, q, ts) && WellFormed(ts, last) && ts != [] && Readable(src, p) && n == q + |Raw(ts[0])|
    ensures n <= |src| && Readable(src, n)
    ensures Heard(src, p, last) == Due(src, p, q, last) + [ts[0]] + Heard(src, n, ts[0].kind)
  {
    SpelledStream(src, p, last);
    FirstItem(src, p, q, ts, last);
    FirstStands(src, q, ts);
    FirstText(src, q, ts[0], ItemAt(src, p).tok);
  }

  lemma {:induction false} StreamBack(src: string, p: nat, q: nat, ts: seq<Spell>, last: Kind)
    requires Ahead(src, p, q, ts) && WellFormed(ts, last) && Readable(src, p)
    ensures Heard(src, p, last) == Due(src, p, q, last) + (ts + ENDED)
    decreases |ts|
  {
    if ts == [] {
      AtEnd(src, p, q, last);
    } else if BreakNext(ts) {
      BackBreak(src, p, q, ts, last, q + |Raw(ts[0])|);
    } else {
      BackSpace(src, p, q, ts, last, q + |Raw(ts[0])|);
    }
  }

  lemma {:induction false} BackSpace(src: string, p: nat, q: nat, ts: seq<Spell>, last: Kind, n: nat)
    requires Ahead(src, p, q, ts) && WellFormed(ts, last) && Readable(src, p)
    requires ts != [] && !BreakNext(ts) && n == q + |Raw(ts[0])|
    ensures Heard(src, p, last) == Due(src, p, q, last) + (ts + ENDED)
    decreases |ts|, 0
  {
    PastSpace(src, p, q, ts, last, n);
    StreamBack(src, n, n + 1, ts[1..], ts[0].kind);
    OneFirst(Due(src, p, q, last), ts, Heard(src, n, ts[0].kind));
  }

  lemma PastSpace(src: string, p: nat, q: nat, ts: seq<Spell>, last: Kind, n: nat)
    requires Ahead(src, p, q, ts) && WellFormed(ts, last) && Readable(src, p)
    requires ts != [] && !BreakNext(ts) && n == q + |Raw(ts[0])|
    ensures n + 1 <= |src| && Readable(src, n) && Ahead(src, n, n + 1, ts[1..]) && WellFormed(ts[1..], ts[0].kind)
    ensures Due(src, n, n + 1, ts[0].kind) == Pending(false)
    ensures Heard(src, p, last) == Due(src, p, q, last) + [ts[0]] + Heard(src, n, ts[0].kind)
  {
    FirstStands(src, q, ts);
    StreamStep(src, p, q, ts, last, n);
    AheadSpace(src, n, ts, last);
  }

  lemma {:induction false} BackBreak(src: string, p: nat, q: nat, ts: seq<Spell>, last: Kind, n: nat)
    requires Ahead(src, p, q, ts) && WellFormed(ts, last) && Readable(src, p)
    requires ts != [] && BreakNext(ts) && n == q + |Raw(ts[0])|
    ensures Heard(src, p, last) == Due(src, p, q, last) + (ts + ENDED)
    decreases |ts|, 0
  {
    PastBreak(src, p, q, ts, last, n);
    StreamBack(src, n, n + 2, ts[2..], ts[0].kind);
    TwoFirst(Due(src, p, q, last), ts, Heard(src, n, ts[0].kind));
  }

  lemma PastBreak(src: string, p: nat, q: nat, ts: seq<Spell>, last: Kind, n: nat)
    requires Ahead(src, p, q, ts) && WellFormed(ts, last) && Readable(src, p)
    requires ts != [] && BreakNext(ts) && n == q + |Raw(ts[0])|
    ensures n + 2 <= |src| && Readable(src, n) && Ahead(src, n, n + 2, ts[2..]) && WellFormed(ts[2..], ts[0].kind)
    ensures Due(src, n, n + 2, ts[0].kind) == Pending(true) && ts[1] == Spell(Newline, "")
    ensures Heard(src, p, last) == Due(src, p, q, last) + [ts[0]] + Heard(src, n, ts[0].kind)
  {
    FirstStands(src, q, ts);
    StreamStep(src, p, q, ts, last, n);
    AheadBreak(src, n, ts, last);
  }

  lemma AtEnd(src: string, p: nat, q: nat, last: Kind)
    requires Ahead(src, p, q, []) && Readable(src, p)
    ensures Heard(src, p, last) == Due(src, p, q, last) + ([] + ENDED)
  {
    assert |src[q..]| == 0;
    SkipTo(src, p, q);
    SpelledStream(src, p, last);
    var it := ItemAt(src, p);
    assert it.start == q && it.tok.kind == Eof && TextOf(src, it.tok) == "";
    assert Spelled(src, After(src, it)) == [];
  }

  lemma OneFirst(front: seq<Spell>, ts: seq<Spell>, heard: seq<Spell>)
    requires ts != [] && heard == Pending(false) + (ts[1..] + ENDED)
    ensures front + [ts[0]] + heard == front + (ts + ENDED)
  {
  }

  lemma TwoFirst(front: seq<Spell>, ts: seq<Spell>, heard: seq<Spell>)
    requires |ts| > 1 && ts[1] == Spell(Newline, "") && heard == Pending(true) + (ts[2..] + ENDED)
    ensures front + [ts[0]] + heard == front + (ts + ENDED)
  {
  }

  /** Writing a token list with spaces between the tokens and NEWLINEs as line breaks, and
      lexing it again, gives the same kinds and texts. */
  lemma LexerRoundTrip(ts: seq<Spell>)
    requires WellFormed(ts, Eof)
    ensures Readable(Written(ts), 0)
    ensures Spelled(Written(ts), Stream(Written(ts), 0, Eof)) == ts + [Spell(Eof, "")]
  {
    var src := Written(ts);
    assert src[0..] == src;
    assert Ahead(src, 0, 0, ts);
    AheadReadable(src, 0, 0, ts, Eof);
    StreamBack(src, 0, 0, ts, Eof);
  }
}
