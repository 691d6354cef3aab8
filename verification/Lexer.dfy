/** The lexer: the plain tokens of a text, and the one-token hold that slips a NEWLINE in
    between two of them.  src/lexer/lexer.c. */
module Lexer {
  import opened Options
  import opened Seqs

  // Keywords and symbols carry their spelling.
  datatype Kind =
    | IntLit | FloatLit | StrLit | MstrLit | CharLit
    | Word | Builtin | Kw(word: string) | Sym(op: string)
    | Newline | Eof | Error

  datatype Token = Token(kind: Kind, from: nat, len: int, line: nat, col: nat)

  const KEYWORDS: seq<string> := [
    "fn", "ret", "if", "elif", "else", "for", "while", "loop", "when", "struct", "enum", "unn",
    "defer", "pub", "void", "true", "false", "undef", "null", "mut", "imu", "static", "and", "or",
    "import", "extern", "type", "err", "try", "catch", "errdefer", "op"]

  predicate CanEnd(k: Kind) {
    match k
    case Word => true
    case IntLit => true
    case FloatLit => true
    case StrLit => true
    case MstrLit => true
    case CharLit => true
    case Kw(w) => w == "true" || w == "false" || w == "null"
    case Sym(op) => op == ")" || op == "]" || op == "}" || op == ".*"
    case _ => false
  }

  // ---------- characters ----------

  datatype Class = Space | WordChar | Digit | Hex | Bin | InComment

  predicate IsSpace(c: char) { c == ' ' || ('\t' <= c <= '\r') }
  predicate IsDigit(c: char) { '0' <= c <= '9' }
  predicate IsLetter(c: char) { 'a' <= c <= 'z' || 'A' <= c <= 'Z' || c == '_' }

  predicate In(cl: Class, c: char) {
    match cl
    case Space => IsSpace(c)
    case WordChar => IsLetter(c) || IsDigit(c)
    case Digit => IsDigit(c)
    case Hex => IsDigit(c) || 'a' <= c <= 'f' || 'A' <= c <= 'F'
    case Bin => c == '0' || c == '1'
    case InComment => c != '\n'
  }

  predicate Sym1(a: char) {
    || a == '+' || a == '=' || a == ':' || a == '.' || a == '!' || a == '<' || a == '>' || a == '(' || a == ')'
    || a == '{' || a == '}' || a == '[' || a == ']' || a == ',' || a == ';' || a == '*' || a == '/' || a == '%'
    || a == '-' || a == '&' || a == '^' || a == '|'
  }

  predicate Sym2(a: char, b: char) {
    || (b == '=' && (a == '+' || a == '=' || a == ':' || a == '!' || a == '<' || a == '>'
                     || a == '*' || a == '/' || a == '%' || a == '-'))
    || (b == '>' && (a == '=' || a == '-' || a == '>'))
    || (a == ':' && b == ':') || (a == '<' && b == '<') || (a == '.' && (b == '.' || b == '*'))
  }

  predicate Sym3(a: char, b: char, c: char) { a == '.' && b == '.' && (c == '=' || c == '.') }

  // ---------- scanning ----------

  // The end of the stretch of characters of one class.
  function Span(src: string, p: nat, cl: Class): (e: nat)
    requires p <= |src|
    ensures p <= e <= |src| && (p < |src| && In(cl, src[p]) ==> p < e)
    decreases |src| - p
  {
    if p == |src| || !In(cl, src[p]) then p else Span(src, p + 1, cl)
  }

  // The first character after p that belongs to neither white space nor a comment.
  function Skip(src: string, p: nat): (e: nat)
    requires p <= |src|
    ensures p <= e <= |src|
    decreases |src| - p
  {
    var s := Span(src, p, Space);
    if s < |src| && src[s] == '#' then Skip(src, Span(src, s, InComment)) else s
  }

  // Where the loop over a quoted string stops: at the quote or at the end; None if it runs
  // past the end because the last character is a backslash.
  function StrStop(src: string, p: nat): (e: Option<nat>)
    ensures e.Some? ==> p <= e.value <= |src|
    decreases |src| + 2 - p
  {
    if p > |src| then None
    else if p == |src| || src[p] == '"' then Some(p)
    else StrStop(src, if src[p] == '\\' then p + 2 else p + 1)
  }

  predicate Triple(src: string, p: nat) { p + 2 < |src| && src[p] == '"' && src[p + 1] == '"' && src[p + 2] == '"' }

  function MstrStop(src: string, p: nat): (e: nat)
    requires p <= |src|
    ensures p <= e <= |src| && (e < |src| ==> Triple(src, e))
    decreases |src| - p
  {
    if p == |src| || Triple(src, p) then p else MstrStop(src, p + 1)
  }

  // A token without its place in the text; `next` is where reading goes on.
  datatype Lexeme = Lexeme(kind: Kind, from: nat, len: int, next: nat)

  function LexMstr(src: string, p: nat): Lexeme
    requires p + 3 <= |src|
  {
    var e := MstrStop(src, p + 3);
    Lexeme(MstrLit, p + 3, e - (p + 3), if e < |src| then e + 3 else e)
  }

  function LexStr(src: string, p: nat): Option<Lexeme>
    requires p < |src|
  {
    match StrStop(src, p + 1)
    case None => None
    case Some(e) =>
      var next := if e < |src| then e + 1 else e;
      Some(Lexeme(StrLit, p + 1, next - p - 2, next))
  }

  function LexChar(src: string, p: nat): Option<Lexeme>
    requires p < |src|
  {
    var q := if p + 1 < |src| && src[p + 1] == '\\' then p + 3 else p + 2;
    if q > |src| then None
    else
      var next := if q < |src| && src[q] == '\'' then q + 1 else q;
      Some(Lexeme(CharLit, p + 1, next - p - 2, next))
  }

  function WordKind(w: string): Kind { if w in KEYWORDS then Kw(w) else Word }

  function LexWord(src: string, p: nat): Lexeme
    requires p < |src|
  {
    var e := Span(src, p + 1, WordChar);
    Lexeme(WordKind(src[p..e]), p, e - p, e)
  }

  function LexNumber(src: string, p: nat): Lexeme
    requires p < |src|
  {
    var two := if p + 1 < |src| then src[p + 1] else '?';
    if src[p] == '0' && (two == 'x' || two == 'X') then
      var e := Span(src, p + 2, Hex);
      Lexeme(IntLit, p, e - p, e)
    else if src[p] == '0' && (two == 'b' || two == 'B') then
      var e := Span(src, p + 2, Bin);
      Lexeme(IntLit, p, e - p, e)
    else
      var e := Span(src, p + 1, Digit);
      if e + 1 < |src| && src[e] == '.' && IsDigit(src[e + 1]) then
        var f := Span(src, e + 1, Digit);
        Lexeme(FloatLit, p, f - p, f)
      else
        Lexeme(IntLit, p, e - p, e)
  }

  // The longest symbol in the table.
  function SymLen(src: string, p: nat): (n: nat)
    requires p < |src|
    ensures n <= 3 && p + n <= |src|
  {
    if p + 2 < |src| && Sym3(src[p], src[p + 1], src[p + 2]) then 3
    else if p + 1 < |src| && Sym2(src[p], src[p + 1]) then 2
    else if Sym1(src[p]) then 1
    else 0
  }

  function LexSym(src: string, p: nat): Lexeme
    requires p < |src|
  {
    var n := SymLen(src, p);
    if n == 0 then Lexeme(Error, p, 1, p + 1) else Lexeme(Sym(src[p..p + n]), p, n, p + n)
  }

  // The token at p; None if a quoted literal runs past the end of the text.
  function LexAt(src: string, p: nat): (r: Option<Lexeme>)
    requires p < |src|
    ensures r.Some? ==> p < r.value.next <= |src| && r.value.kind != Newline && r.value.kind != Eof
  {
    var c := src[p];
    if c == '"' then if Triple(src, p) then Some(LexMstr(src, p)) else LexStr(src, p)
    else if c == '\'' then LexChar(src, p)
    else if c == '@' then
      var e := Span(src, p + 1, WordChar);
      Some(Lexeme(Builtin, p + 1, e - p - 1, e))
    else if IsLetter(c) then Some(LexWord(src, p))
    else if IsDigit(c) then Some(LexNumber(src, p))
    else Some(LexSym(src, p))
  }

  // ---------- places ----------

  function Line(src: string, p: nat): nat
    requires p <= |src|
  {
    if p == 0 then 1 else Line(src, p - 1) + if src[p - 1] == '\n' then 1 else 0
  }

  function Col(src: string, p: nat): nat
    requires p <= |src|
  {
    if p == 0 || src[p - 1] == '\n' then 1 else Col(src, p - 1) + 1
  }

  // ---------- the tokens of a text ----------

  // No quoted literal from p on runs past the end.
  predicate Readable(src: string, p: nat)
    requires p <= |src|
    decreases |src| - p
  {
    var s := Skip(src, p);
    s == |src| || (LexAt(src, s).Some? && Readable(src, LexAt(src, s).value.next))
  }

  // A token, the gap before it (from `gap` to `start`) and the place behind it.
  datatype Item = Item(gap: nat, start: nat, tok: Token, next: nat)

  function ItemAt(src: string, p: nat): Item
    requires p <= |src| && Readable(src, p)
  {
    var s := Skip(src, p);
    if s == |src| then Item(p, s, Token(Eof, s, 0, Line(src, s), Col(src, s)), s)
    else
      var x := LexAt(src, s).value;
      Item(p, s, Token(x.kind, x.from, x.len, Line(src, s), Col(src, s)), x.next)
  }

  function Items(src: string, p: nat): seq<Item>
    requires p <= |src| && Readable(src, p)
    decreases |src| - p
  {
    var it := ItemAt(src, p);
    [it] + if it.tok.kind == Eof then [] else Items(src, it.next)
  }

  function Plain(items: seq<Item>): seq<Token> {
    if items == [] then [] else [items[0].tok] + Plain(items[1..])
  }

  predicate Broken(src: string, a: nat, b: nat)
    requires a <= b <= |src|
  {
    '\n' in src[a..b]
  }

  predicate Placed(src: string, items: seq<Item>) {
    forall i | 0 <= i < |items| :: items[i].gap <= items[i].start <= |src|
  }

  predicate Breaks(src: string, it: Item, last: Kind)
    requires it.gap <= it.start <= |src|
  {
    CanEnd(last) && Broken(src, it.gap, it.start)
  }

  function Break(src: string, it: Item): Token
    requires it.gap <= |src|
  {
    Token(Newline, it.next, 0, Line(src, it.gap), 1)
  }

  // NEWLINE tokens put in where a token that can end a statement is followed by a line break.
  function Weave(src: string, items: seq<Item>, last: Kind): seq<Token>
    requires Placed(src, items)
  {
    if items == [] then []
    else
      var it := items[0];
      (if Breaks(src, it, last) then [Break(src, it)] else []) + [it.tok] + Weave(src, items[1..], it.tok.kind)
  }

  // The whole stream a parser sees from p on.
  function Stream(src: string, p: nat, last: Kind): seq<Token>
    requires p <= |src| && Readable(src, p)
  {
    ItemsPlaced(src, p);
    Weave(src, Items(src, p), last)
  }

  lemma {:induction false} ItemsPlaced(src: string, p: nat)
    requires p <= |src| && Readable(src, p)
    ensures Placed(src, Items(src, p))
    decreases |src| - p
  {
    var it := ItemAt(src, p);
    if it.tok.kind != Eof {
      ItemsPlaced(src, it.next);
      PlacedCons(src, it, Items(src, it.next));
    } else {
      PlacedCons(src, it, []);
    }
  }

  lemma PlacedCons(src: string, it: Item, items: seq<Item>)
    requires it.gap <= it.start <= |src| && Placed(src, items)
    ensures Placed(src, [it] + items)
  {
    var all := [it] + items;
    forall i | 0 <= i < |all| ensures all[i].gap <= all[i].start <= |src| {
      if i > 0 { assert all[i] == items[i - 1]; }
    }
  }

  function Before(src: string, it: Item, last: Kind): seq<Token>
    requires it.gap <= it.start <= |src|
  {
    if Line(src, it.start) > Line(src, it.gap) && CanEnd(last) then [Break(src, it)] else []
  }

  lemma WeaveCons(src: string, it: Item, items: seq<Item>, last: Kind)
    requires it.gap <= it.start <= |src| && Placed(src, items) && Placed(src, [it] + items)
    ensures Weave(src, [it] + items, last) == Before(src, it, last) + [it.tok] + Weave(src, items, it.tok.kind)
  {
    LineGrows(src, it.gap, it.start);
    ConsTail(it, items);
  }

  // What the stream starts with.
  lemma StreamIs(src: string, p: nat, last: Kind)
    requires p <= |src| && Readable(src, p)
    ensures var it := ItemAt(src, p);
      Stream(src, p, last) == Before(src, it, last) + [it.tok] +
        if it.tok.kind == Eof then [] else Stream(src, it.next, it.tok.kind)
  {
    var it := ItemAt(src, p);
    ItemsPlaced(src, p);
    if it.tok.kind == Eof {
      WeaveCons(src, it, [], last);
    } else {
      ItemsPlaced(src, it.next);
      WeaveCons(src, it, Items(src, it.next), last);
    }
  }

  // At the end the end is found again and again.
  lemma EndAgain(src: string, p: nat)
    requires p <= |src| && Readable(src, p)
    ensures Readable(src, |src|)
    ensures ItemAt(src, p).tok.kind == Eof ==> (
      ItemAt(src, p).next == |src| && ItemAt(src, |src|).tok == ItemAt(src, p).tok
      && Stream(src, |src|, Eof) == [ItemAt(src, p).tok])
  {
    StreamIs(src, |src|, Eof);
  }

  // ---------- the lexer as it works ----------

  class Lexer {
    const src: string
    var pos: nat
    var line: nat
    var col: nat
    var lastType: Kind
    var held: Option<Token>

    ghost predicate Here()
      reads this
    {
      '\0' !in src && pos <= |src| && line == Line(src, pos) && col == Col(src, pos)
    }

    ghost predicate Valid()
      reads this
    {
      Here() && Readable(src, pos) && (held.Some? && held.value.kind == Eof ==> held.value == ItemAt(src, pos).tok)
    }

    // What the calls to come will return, up to the end of the text.
    ghost function Rest(): seq<Token>
      requires Valid()
      reads this
    {
      if held.None? then Stream(src, pos, lastType)
      else [held.value] + if held.value.kind == Eof then [] else Stream(src, pos, held.value.kind)
    }

    lemma RestEnds()
      requires Valid()
      ensures Rest() != [] && (Rest()[0].kind == Eof ==> |Rest()| == 1)
    {
      if held.None? { StreamEnds(src, pos, lastType); }
    }

    constructor (src: string)
      requires '\0' !in src && Readable(src, 0)
      ensures Valid() && this.src == src && Rest() == Stream(src, 0, Eof)
    {
      this.src := src;
      pos, line, col, lastType, held := 0, 1, 1, Eof, None;
    }

    function Cur(): char
      requires pos <= |src|
      reads this
    {
      if pos < |src| then src[pos] else '\0'
    }

    function Peek(): char
      requires pos <= |src|
      reads this
    {
      if pos + 1 < |src| then src[pos + 1] else '\0'
    }

    method Adv() returns (c: char)
      requires Here() && pos < |src|
      modifies `pos, `line, `col
      ensures Here() && pos == old(pos) + 1 && c == src[old(pos)]
    {
      c := src[pos];
      pos := pos + 1;
      if c == '\n' { line := line + 1; col := 1; } else { col := col + 1; }
    }

    method While(cl: Class)
      requires Here()
      modifies `pos, `line, `col
      ensures Here() && pos == Span(src, old(pos), cl)
    {
      while pos < |src| && In(cl, src[pos])
        invariant Here() && old(pos) <= pos && Span(src, pos, cl) == Span(src, old(pos), cl)
        decreases |src| - pos
      {
        var _ := Adv();
      }
    }

    method SkipWsAndComments()
      requires Here()
      modifies `pos, `line, `col
      ensures Here() && pos == Skip(src, old(pos))
    {
      while true
        invariant Here() && old(pos) <= pos && Skip(src, pos) == Skip(src, old(pos))
        decreases |src| - pos
      {
        While(Space);
        if Cur() != '#' { break; }
        While(InComment);
      }
    }

    // The text of a string between its quotes; a backslash takes the next character with it.
    method LexString() returns (kind: Kind, from: nat, len: int)
      requires Here() && pos > 0 && (Triple(src, pos - 1) || StrStop(src, pos).Some?)
      requires src[pos - 1] == '"'
      modifies `pos, `line, `col
      ensures Here() &&
        var x := if Triple(src, old(pos) - 1) then LexMstr(src, old(pos) - 1) else LexStr(src, old(pos) - 1).value;
        x == Lexeme(kind, from, len, pos)
    {
      var start := pos;
      if Cur() == '"' && Peek() == '"' {
        var _ := Adv();
        var _ := Adv();
        from := pos;
        while Cur() != '\0' && !(Cur() == '"' && Peek() == '"' && pos + 2 < |src| && src[pos + 2] == '"')
          invariant Here() && start + 2 <= pos && MstrStop(src, pos) == MstrStop(src, start + 2)
          decreases |src| - pos
        {
          var _ := Adv();
        }
        kind, len := MstrLit, pos - from;
        if Cur() != '\0' {
          var _ := Adv();
          var _ := Adv();
          var _ := Adv();
        }
        return;
      }
      while Cur() != '\0' && Cur() != '"'
        invariant Here() && start <= pos && StrStop(src, start).Some? && StrStop(src, pos) == StrStop(src, start)
        decreases |src| - pos
      {
        if Cur() == '\\' { var _ := Adv(); }
        var _ := Adv();
      }
      if Cur() == '"' { var _ := Adv(); }
      kind, from, len := StrLit, start, pos - (start - 1) - 2;
    }

    method LexCharLit() returns (len: int)
      requires Here() && pos > 0 && LexChar(src, pos - 1).Some?
      modifies `pos, `line, `col
      ensures Here() && LexChar(src, old(pos) - 1).value == Lexeme(CharLit, old(pos), len, pos)
    {
      var start := pos;
      if Cur() == '\\' { var _ := Adv(); }
      var _ := Adv();
      if Cur() == '\'' { var _ := Adv(); }
      len := pos - (start - 1) - 2;
    }

    // The keyword table is searched from the front.
    method CheckKw(w: string) returns (k: Kind)
      ensures k == WordKind(w)
    {
      var i := 0;
      while i < |KEYWORDS|
        invariant i <= |KEYWORDS| && w !in KEYWORDS[..i]
      {
        if KEYWORDS[i] == w { return Kw(w); }
        i := i + 1;
      }
      assert KEYWORDS[..i] == KEYWORDS;
      k := Word;
    }

    method LexDigits() returns (kind: Kind)
      requires Here() && pos > 0
      modifies `pos, `line, `col
      ensures Here() && LexNumber(src, old(pos) - 1) == Lexeme(kind, old(pos) - 1, pos - (old(pos) - 1), pos)
    {
      var c := src[pos - 1];
      kind := IntLit;
      if c == '0' && (Cur() == 'x' || Cur() == 'X') {
        var _ := Adv();
        While(Hex);
        return;
      }
      if c == '0' && (Cur() == 'b' || Cur() == 'B') {
        var _ := Adv();
        While(Bin);
        return;
      }
      While(Digit);
      if Cur() == '.' && IsDigit(Peek()) {
        var _ := Adv();
        While(Digit);
        kind := FloatLit;
      }
    }

    // One more character if it is the expected one.
    method Follows(x: char) returns (yes: bool)
      requires Here() && x != '\0'
      modifies `pos, `line, `col
      ensures Here() && (yes <==> old(pos) < |src| && src[old(pos)] == x)
      ensures pos == if yes then old(pos) + 1 else old(pos)
    {
      yes := Cur() == x;
      if yes { var _ := Adv(); }
    }

    // The branches over the first character of a symbol find the longest one in the table.
    method LexSymbol(c: char) returns (known: bool)
      requires Here() && pos > 0 && c == src[pos - 1]
      modifies `pos, `line, `col
      ensures Here() && (known <==> SymLen(src, old(pos) - 1) > 0)
      ensures pos == old(pos) + if known then SymLen(src, old(pos) - 1) - 1 else 0
    {
      known := true;
      var more := false;
      if c == '.' {
        more := Follows('.');
        if more {
          more := Follows('=');
          if !more { more := Follows('.'); }
        } else {
          more := Follows('*');
        }
      } else if c == '=' {
        more := Follows('>');
        if !more { more := Follows('='); }
      } else if c == ':' {
        more := Follows('=');
        if !more { more := Follows(':'); }
      } else if c == '<' {
        more := Follows('=');
        if !more { more := Follows('<'); }
      } else if c == '>' {
        more := Follows('=');
        if !more { more := Follows('>'); }
      } else if c == '-' {
        more := Follows('>');
        if !more { more := Follows('='); }
      } else if c == '+' || c == '!' || c == '*' || c == '/' || c == '%' {
        more := Follows('=');
      } else {
        known := c == '(' || c == ')' || c == '{' || c == '}' || c == '[' || c == ']' || c == ',' || c == ';'
          || c == '&' || c == '^' || c == '|';
      }
    }

    /** One token at the current place, white space already skipped. */
    method LexOne() returns (t: Token)
      requires Here() && Readable(src, pos) && Skip(src, pos) == pos
      modifies `pos, `line, `col
      ensures Here() && Readable(src, pos) && t == ItemAt(src, old(pos)).tok && pos == ItemAt(src, old(pos)).next
    {
      var start, line0, col0 := pos, line, col;
      if Cur() == '\0' {
        t := Token(Eof, start, 0, line0, col0);
        return;
      }
      var c := Adv();
      var kind, from, len := Error, start, 1;
      if c == '"' {
        kind, from, len := LexString();
      } else if c == '\'' {
        len := LexCharLit();
        kind, from := CharLit, start + 1;
      } else if c == '@' {
        While(WordChar);
        kind, from, len := Builtin, start + 1, pos - start - 1;
      } else if IsLetter(c) {
        While(WordChar);
        kind := CheckKw(src[start..pos]);
        len := pos - start;
      } else if IsDigit(c) {
        kind := LexDigits();
        len := pos - start;
      } else {
        var known := LexSymbol(c);
        if known { kind, len := Sym(src[start..pos]), pos - start; }
      }
      t := Token(kind, from, len, line0, col0);
    }

    /** The next token of the stream; a token held back behind a NEWLINE comes first. */
    method Next() returns (t: Token)
      requires Valid()
      modifies `pos, `line, `col, `lastType, `held
      ensures Valid() && TakesHead(old(Rest()), t, Rest())
    {
      if held.Some? {
        t := Release();
        return;
      }
      ghost var before := pos;
      var lineBefore := line;
      SkipWsAndComments();
      if line > lineBefore && CanEnd(lastType) {
        t := HoldBack(before, lineBefore);
      } else {
        t := Direct(before, lineBefore);
      }
    }

    // The gap holds a line break: a NEWLINE first, the token behind it later.
    method HoldBack(ghost before: nat, lineBefore: nat) returns (t: Token)
      requires Here() && held.None? && before <= |src| && Readable(src, before) && pos == Skip(src, before)
      requires lineBefore == Line(src, before) && line > lineBefore && CanEnd(lastType)
      modifies `pos, `line, `col, `lastType, `held
      ensures Valid() && TakesHead(Stream(src, before, old(lastType)), t, Rest())
    {
      StreamIs(src, before, lastType);
      EndAgain(src, before);
      SkipTwice(src, before);
      var tok := LexOne();
      held, lastType := Some(tok), Newline;
      t := Token(Newline, pos, 0, lineBefore, 1);
      SecondIs(t, Rest());
    }

    method Direct(ghost before: nat, lineBefore: nat) returns (t: Token)
      requires Here() && held.None? && before <= |src| && Readable(src, before) && pos == Skip(src, before)
      requires lineBefore == Line(src, before) && !(line > lineBefore && CanEnd(lastType))
      modifies `pos, `line, `col, `lastType
      ensures Valid() && TakesHead(Stream(src, before, old(lastType)), t, Rest())
    {
      StreamIs(src, before, lastType);
      EndAgain(src, before);
      SkipTwice(src, before);
      t := LexOne();
      lastType := t.kind;
      FirstIs(t, Rest());
    }

    method Release() returns (t: Token)
      requires Valid() && held.Some?
      modifies `lastType, `held
      ensures Valid() && TakesHead(old(Rest()), t, Rest())
    {
      t := held.value;
      held, lastType := None, t.kind;
      EndAgain(src, pos);
      FirstIs(t, Rest());
    }
  }

  // The first token of the stream is taken; the end stays.
  ghost predicate TakesHead(rest: seq<Token>, t: Token, after: seq<Token>) {
    rest != [] && rest[0] == t && after == if t.kind == Eof then [t] else rest[1..]
  }

  lemma FirstIs(t: Token, after: seq<Token>)
    ensures ([] + [t] + after)[0] == t && ([] + [t] + after)[1..] == after
    ensures [t] + after == [] + [t] + after
  {
  }

  lemma SecondIs(t: Token, after: seq<Token>)
    requires after != []
    ensures ([t] + [after[0]] + after[1..])[0] == t && ([t] + [after[0]] + after[1..])[1..] == after
  {
  }

  lemma {:induction false} LineGrows(src: string, a: nat, b: nat)
    requires a <= b <= |src|
    ensures Line(src, a) <= Line(src, b) && (Line(src, b) > Line(src, a) <==> Broken(src, a, b))
    decreases b
  {
    if a < b {
      LineGrows(src, a, b - 1);
      assert src[a..b] == src[a..b - 1] + [src[b - 1]];
    }
  }

  // What a span is: all of one class, and as far as it goes.
  lemma {:induction false} SpanStays(src: string, p: nat, cl: Class)
    requires p <= |src|
    ensures Span(src, p, cl) == |src| || !In(cl, src[Span(src, p, cl)])
    ensures forall i | p <= i < Span(src, p, cl) :: In(cl, src[i])
    decreases |src| - p
  {
    if p < |src| && In(cl, src[p]) { SpanStays(src, p + 1, cl); }
  }

  lemma {:induction false} SkipTwice(src: string, p: nat)
    requires p <= |src|
    ensures Skip(src, Skip(src, p)) == Skip(src, p)
    decreases |src| - p
  {
    var s := Span(src, p, Space);
    SpanStays(src, p, Space);
    if s < |src| && src[s] == '#' { SkipTwice(src, Span(src, s, InComment)); }
  }

  // Nothing comes after the end.
  lemma StreamEnds(src: string, p: nat, last: Kind)
    requires p <= |src| && Readable(src, p)
    ensures Stream(src, p, last) != [] && (Stream(src, p, last)[0].kind == Eof ==> |Stream(src, p, last)| == 1)
  {
    StreamIs(src, p, last);
  }

  /** Calling the lexer until the end gives the plain tokens with the NEWLINEs woven in. */
  method LexAll(src: string) returns (ts: seq<Token>)
    requires '\0' !in src && Readable(src, 0)
    ensures ts == Stream(src, 0, Eof)
  {
    var lx := new Lexer(src);
    ghost var all := Stream(src, 0, Eof);
    ts := [];
    var more := true;
    while more
      invariant lx.Valid() && fresh(lx) && Taken(ts, more, lx.Rest(), all)
      decreases more, |lx.Rest()|
    {
      ghost var rest, had := lx.Rest(), ts;
      lx.RestEnds();
      var t := lx.Next();
      ts := ts + [t];
      more := t.kind != Eof;
      TakeMore(had, rest, t, lx.Rest(), all);
    }
  }

  ghost predicate Taken(ts: seq<Token>, more: bool, rest: seq<Token>, all: seq<Token>) {
    ts + (if more then rest else []) == all
  }

  lemma TakeMore(had: seq<Token>, rest: seq<Token>, t: Token, after: seq<Token>, all: seq<Token>)
    requires Taken(had, true, rest, all) && TakesHead(rest, t, after) && (t.kind == Eof ==> |rest| == 1)
    ensures Taken(had + [t], t.kind != Eof, after, all)
    ensures t.kind != Eof ==> |after| < |rest|
  {
    assert rest == [t] + rest[1..];
    assert had + [t] + rest[1..] == had + rest;
  }
}
