/** The delimiter search for multi-line string literals (src/codegen/codegen.c) and the
    reading of raw string literals in section 5.13.5 [lex.string] of ISO/IEC 14882:2017. */
module RawString {
  import opened Options
  import opened Strings

  const TRIES := 9

  // The delimiter tried first, and the one tried in round i.
  function Delim(k: nat): string
    requires k <= TRIES
  {
    if k == 0 then "OLRN" else "OLRN" + [Digit(k - 1)]
  }

  function Digit(i: nat): char
    requires i < 10
  {
    "0123456789"[i]
  }

  function Term(delim: string): string { ")" + delim + "\"" }

  predicate Free(val: string, k: nat)
    requires k <= TRIES
  {
    !Contains(val, Term(Delim(k)))
  }

  function Literal(delim: string, val: string): string { "R\"" + delim + "(" + val + ")" + delim + "\"" }

  /** The search stops at the first delimiter whose terminator is not in the text; it fails
      exactly if all ten are, and then nothing is emitted. */
  method EmitLiteral(val: string) returns (out: Option<string>)
    ensures out.None? <==> forall k: nat | k <= TRIES :: !Free(val, k)
    ensures out.Some? ==> exists k: nat | k <= TRIES ::
      Free(val, k) && (forall j: nat | j < k :: !Free(val, j)) && out.value == Literal(Delim(k), val)
  {
    var delim := "OLRN";
    var term := ")" + delim + "\"";
    var i: nat := 0;
    while Contains(val, term) && i < 9
      invariant i <= TRIES && delim == Delim(i) && term == Term(delim)
      invariant forall j: nat | j < i :: !Free(val, j)
    {
      assert !Free(val, i);
      delim := "OLRN" + [Digit(i)];
      term := ")" + delim + "\"";
      i := i + 1;
    }
    if Contains(val, term) {
      assert !Free(val, i);
      out := None;
    } else {
      assert Free(val, i);
      out := Some("R\"" + delim + "(" + val + ")" + delim + "\"");
    }
  }

  // ---------- reading a raw string ----------

  predicate DelimChar(c: char) { c != ' ' && c != '(' && c != ')' && c != '\\' && c >= '!' }

  function DelimSpan(s: string): (n: nat)
    ensures n <= |s|
  {
    if s == "" || !DelimChar(s[0]) then 0 else 1 + DelimSpan(s[1..])
  }

  // The value of the raw string literal s starts with, and what is left after it.
  function ReadRaw(s: string): Option<(string, string)> {
    if |s| < 2 || s[..2] != "R\"" then None
    else
      var n := DelimSpan(s[2..]);
      var delim := s[2..2 + n];
      if n > 16 || 2 + n == |s| || s[2 + n] != '(' then None
      else
        Cut(s[3 + n..], Term(delim))
  }

  // The text before the first terminator, and what is left after it.
  function Cut(body: string, term: string): Option<(string, string)> {
    match Find(body, term, 0)
    case None => None
    case Some(m) => Some((body[..m], body[m + |term|..]))
  }

  // A terminator lying across the end of the text would have to contain a second `)`.
  lemma NoneAcross(val: string, delim: string, rest: string, i: nat)
    requires ')' !in delim && i < |val| < i + |Term(delim)|
    ensures !At(val + Term(delim) + rest, Term(delim), i)
  {
    var t, j := Term(delim), |val| - i;
    var s := val + t + rest;
    assert t[j] != ')' by { if j < |t| - 1 { assert t[j] == delim[j - 1]; } }
    if i + |t| <= |s| { assert s[i..i + |t|][j] == s[|val|] == ')'; }
  }

  lemma FoundAtEnd(val: string, delim: string, rest: string)
    requires ')' !in delim && !Contains(val, Term(delim))
    ensures Find(val + Term(delim) + rest, Term(delim), 0) == Some(|val|)
  {
    var t := Term(delim);
    var s := val + t + rest;
    FindsFirst(val, t, 0, Find(val, t, 0));
    assert s[|val|..|val| + |t|] == t;
    forall i: nat | i < |val| ensures !At(s, t, i) {
      if i + |t| <= |val| {
        assert s[i..i + |t|] == val[i..i + |t|];
        assert !At(val, t, i);
      } else {
        NoneAcross(val, delim, rest, i);
      }
    }
    FindsFirst(s, t, 0, Some(|val|));
  }

  lemma {:induction false} SpanOf(delim: string, rest: string)
    requires forall i | 0 <= i < |delim| :: DelimChar(delim[i])
    requires rest == "" || !DelimChar(rest[0])
    ensures DelimSpan(delim + rest) == |delim|
  {
    if delim == "" {
      assert delim + rest == rest;
    } else {
      SpanOf(delim[1..], rest);
      assert (delim + rest)[1..] == delim[1..] + rest;
    }
  }

  lemma DelimOk(k: nat)
    requires k <= TRIES
    ensures 0 < |Delim(k)| <= 16 && forall i | 0 <= i < |Delim(k)| :: DelimChar(Delim(k)[i])
    ensures ')' !in Delim(k)
  {
    var d := Delim(k);
    assert d[0] == 'O' && d[1] == 'L' && d[2] == 'R' && d[3] == 'N';
    if k > 0 { assert d[4] == "0123456789"[k - 1]; }
  }

  // Past the opening parenthesis the reader looks for the terminator.
  lemma Opened(val: string, k: nat, rest: string)
    requires k <= TRIES
    ensures ReadRaw(Literal(Delim(k), val) + rest) == Cut(val + Term(Delim(k)) + rest, Term(Delim(k)))
  {
    var d := Delim(k);
    var s := Literal(d, val) + rest;
    var body := val + Term(d) + rest;
    DelimOk(k);
    assert s == "R\"" + (d + ("(" + body));
    assert s[2..] == d + ("(" + body);
    SpanOf(d, "(" + body);
    assert s[2..2 + |d|] == d && s[2 + |d|] == '(' && s[3 + |d|..] == body;
  }

  /** Whatever is emitted for a text is read back as that text, whatever follows it. */
  lemma RawRoundTrip(val: string, k: nat, rest: string)
    requires k <= TRIES && Free(val, k)
    ensures ReadRaw(Literal(Delim(k), val) + rest) == Some((val, rest))
  {
    DelimOk(k);
    Opened(val, k, rest);
    var t := Term(Delim(k));
    FoundAtEnd(val, Delim(k), rest);
    assert (val + t + rest)[..|val|] == val && (val + t + rest)[|val| + |t|..] == rest;
  }

  /** A literal closed by a terminator that the text contains is read back as less. */
  lemma ContainedTerminatorCuts(val: string, k: nat, rest: string)
    requires k <= TRIES && !Free(val, k)
    ensures var r := ReadRaw(Literal(Delim(k), val) + rest); r.Some? && |r.value.0| < |val|
  {
    Opened(val, k, rest);
    CutsEarly(val, Term(Delim(k)), rest);
  }

  lemma CutsEarly(val: string, t: string, rest: string)
    requires t != "" && Contains(val, t)
    ensures var r := Cut(val + t + rest, t); r.Some? && |r.value.0| < |val|
  {
    var s, n := val + t + rest, Find(val, t, 0).value;
    FindsFirst(val, t, 0, Find(val, t, 0));
    assert s[n..n + |t|] == val[n..n + |t|];
    FindsFirst(s, t, 0, Find(s, t, 0));
    assert At(s, t, n);
  }
}
