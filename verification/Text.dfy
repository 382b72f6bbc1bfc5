/** The string operations the capability encoding rests on: trim, lower-case, code-point order,
    comma join and comma split. Letters and white space are those of ASCII. */
module Text {
  import opened Orders

  predicate IsSpace(c: char) {
    '\t' <= c <= '\r' || '\U{1c}' <= c <= ' '
  }

  function StripLeft(s: string): string {
    if s != "" && IsSpace(s[0]) then StripLeft(s[1..]) else s
  }

  function StripRight(s: string): string {
    if s != "" && IsSpace(s[|s| - 1]) then StripRight(s[..|s| - 1]) else s
  }

  function Strip(s: string): string {
    StripRight(StripLeft(s))
  }

  function LowerChar(c: char): char {
    if 'A' <= c <= 'Z' then (c as int + 32) as char else c
  }

  function Lower(s: string): string {
    seq(|s|, i requires 0 <= i < |s| => LowerChar(s[i]))
  }

  function Normalise(s: string): string {
    Lower(Strip(s))
  }

  /** No white space at either end. */
  predicate Trimmed(s: string) {
    s != "" ==> !IsSpace(s[0]) && !IsSpace(s[|s| - 1])
  }

  lemma {:induction false} StripRightKeepsHead(s: string)
    requires s != "" ==> !IsSpace(s[0])
    ensures Trimmed(StripRight(s)) && StripRight(s) <= s
  {
    if s != "" && IsSpace(s[|s| - 1]) {
      StripRightKeepsHead(s[..|s| - 1]);
    }
  }

  lemma {:induction false} StripLeftHead(s: string)
    ensures StripLeft(s) != "" ==> !IsSpace(StripLeft(s)[0])
  {
    if s != "" && IsSpace(s[0]) {
      StripLeftHead(s[1..]);
    }
  }

  lemma NormaliseTrims(s: string)
    ensures Trimmed(Normalise(s))
  {
    StripLeftHead(s);
    StripRightKeepsHead(StripLeft(s));
  }

  lemma TrimmedStays(s: string)
    requires Trimmed(s)
    ensures Strip(s) == s
  {}

  lemma NormaliseIdempotent(s: string)
    ensures Normalise(Normalise(s)) == Normalise(s)
  {
    NormaliseTrims(s);
    TrimmedStays(Normalise(s));
    assert Lower(Normalise(s)) == Normalise(s);
  }

  /** Code-point order: how Python and a C-collated column compare strings. */
  predicate Lex(a: string, b: string) {
    b != "" && (a == "" || a[0] < b[0] || (a[0] == b[0] && Lex(a[1..], b[1..])))
  }

  lemma {:induction false} LexIrreflexive(a: string)
    ensures !Lex(a, a)
  {
    if a == "" {
    } else {
      LexIrreflexive(a[1..]);
    }
  }

  lemma {:induction false} LexTotal(a: string, b: string)
    ensures a == b || Lex(a, b) || Lex(b, a)
  {
    if a != "" && b != "" && a[0] == b[0] {
      LexTotal(a[1..], b[1..]);
      assert a == [a[0]] + a[1..] && b == [b[0]] + b[1..];
    }
  }

  lemma {:induction false} LexTransitive(a: string, b: string, c: string)
    requires Lex(a, b) && Lex(b, c)
    ensures Lex(a, c)
  {
    if a != "" && a[0] == b[0] == c[0] {
      LexTransitive(a[1..], b[1..], c[1..]);
    }
  }

  lemma LexIsTotalOrder()
    ensures TotalOrder(Lex)
  {
    forall x { LexIrreflexive(x); }
    forall x, y { LexTotal(x, y); }
    forall x, y, z | Lex(x, y) && Lex(y, z) { LexTransitive(x, y, z); }
  }

  function Join(names: seq<string>): string {
    if |names| == 0 then ""
    else if |names| == 1 then names[0]
    else names[0] + "," + Join(names[1..])
  }

  /** `s.split(",")`. */
  function Split(s: string): (r: seq<string>)
    ensures r != []
  {
    if s == "" then [""]
    else if s[0] == ',' then [""] + Split(s[1..])
    else var r := Split(s[1..]); [[s[0]] + r[0]] + r[1..]
  }

  predicate CommaFree(s: string) {
    ',' !in s
  }

  lemma {:induction false} SplitCommaFree(s: string)
    requires CommaFree(s)
    ensures Split(s) == [s]
  {
    if s == "" {
    } else {
      assert s == [s[0]] + s[1..] && s[0] in s;
      SplitCommaFree(s[1..]);
    }
  }

  lemma {:induction false} SplitAtComma(a: string, b: string)
    requires CommaFree(a)
    ensures Split(a + "," + b) == [a] + Split(b)
  {
    if a == "" {
      assert a + "," + b == "," + b;
    } else {
      var s := a + "," + b;
      assert s[1..] == a[1..] + "," + b;
      SplitAtComma(a[1..], b);
      assert a == [a[0]] + a[1..];
    }
  }

  /** Splitting a joined list of comma-free names gives the list back. */
  lemma {:induction false} SplitJoin(names: seq<string>)
    requires names != [] && forall n <- names :: CommaFree(n)
    ensures Split(Join(names)) == names
  {
    if |names| == 1 {
      SplitCommaFree(names[0]);
    } else {
      SplitJoin(names[1..]);
      SplitAtComma(names[0], Join(names[1..]));
    }
  }

  /** The pieces hold no comma. */
  lemma {:induction false} PiecesCommaFree(s: string)
    ensures forall p <- Split(s) :: CommaFree(p)
  {
    if s == "" {
    } else {
      var r := Split(s[1..]);
      PiecesCommaFree(s[1..]);
      assert CommaFree(r[0]);
    }
  }
}
