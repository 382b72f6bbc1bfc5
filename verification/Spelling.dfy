/** Texts letter by letter: which characters are white space and capitals, and how a cursor is spelled. */
module Spelling {
  import opened Wrappers
  import opened Tables
  import opened Text
  import opened Cursors

  // ---- capability names -----------------------------------------------------------------------------------

  const CAPITALS: string := "ABCDEFGHIJKLMNOPQRSTUVWXYZ"
  const SMALL: string := "abcdefghijklmnopqrstuvwxyz"

  predicate Blank(c: char) {
    c in {'\t', '\n', '\U{b}', '\U{c}', '\r', '\U{1c}', '\U{1d}', '\U{1e}', '\U{1f}', ' '}
  }

  predicate AllBlank(s: string) {
    forall c <- s :: Blank(c)
  }

  lemma BlankIsSpace(c: char)
    ensures IsSpace(c) <==> Blank(c)
  {
    if IsSpace(c) { assert c as int in {9, 10, 11, 12, 13, 28, 29, 30, 31, 32}; }
  }

  lemma CapitalsAre(c: char)
    ensures c in CAPITALS <==> 'A' <= c <= 'Z'
  {
    if 'A' <= c <= 'Z' { assert CAPITALS[c as int - 'A' as int] == c; }
  }

  lemma LetterAt(k: nat)
    requires k < 26
    ensures CAPITALS[k] as int == 'A' as int + k && SMALL[k] as int == 'a' as int + k
  {}

  /** A capital becomes its small letter; every other character stays. */
  lemma LowerSpelled(c: char, k: nat)
    requires k < 26
    ensures LowerChar(CAPITALS[k]) == SMALL[k]
    ensures c !in CAPITALS ==> LowerChar(c) == c
  {
    CapitalsAre(c);
    LetterAt(k);
  }

  lemma {:induction false} LeadingDropped(pad: string, s: string)
    requires AllBlank(pad)
    ensures StripLeft(pad + s) == StripLeft(s)
  {
    if pad == "" {
      assert pad + s == s;
    } else {
      BlankIsSpace(pad[0]);
      assert pad[0] in pad;
      assert (pad + s)[1..] == pad[1..] + s;
      LeadingDropped(pad[1..], s);
    }
  }

  lemma {:induction false} TrailingDropped(s: string, pad: string)
    requires AllBlank(pad)
    ensures StripRight(s + pad) == StripRight(s)
  {
    if pad == "" {
      assert s + pad == s;
    } else {
      var front, last := pad[..|pad| - 1], pad[|pad| - 1];
      BlankIsSpace(last);
      assert last in pad;
      assert (s + pad)[..|s + pad| - 1] == s + front;
      TrailingDropped(s, front);
    }
  }

  lemma {:induction false} InnerKept(s: string, pad: string)
    requires AllBlank(pad)
    ensures StripRight(StripLeft(s + pad)) == StripRight(StripLeft(s))
  {
    if s == "" {
      assert s + pad == pad && pad + "" == pad;
      LeadingDropped(pad, "");
    } else if IsSpace(s[0]) {
      assert (s + pad)[1..] == s[1..] + pad;
      InnerKept(s[1..], pad);
    } else {
      TrailingDropped(s, pad);
    }
  }

  /** White space around a name does not matter. */
  lemma PaddingDropped(before: string, s: string, after: string)
    requires AllBlank(before) && AllBlank(after)
    ensures Normalise(before + s + after) == Normalise(s)
  {
    assert before + s + after == before + (s + after);
    LeadingDropped(before, s + after);
    InnerKept(s, after);
  }

  /** The same letter, or the same letter small. */
  predicate SameLetter(c: char, d: char) {
    c == d || exists k | 0 <= k < 26 :: c == CAPITALS[k] && d == SMALL[k]
  }

  lemma SameLetterLower(c: char, d: char)
    requires SameLetter(c, d)
    ensures LowerChar(c) == LowerChar(d) && (IsSpace(c) <==> IsSpace(d))
  {
    if c != d {
      var k :| 0 <= k < 26 && c == CAPITALS[k] && d == SMALL[k];
      LetterAt(k);
    }
  }

  /** Nor does the case of its letters: two spellings that differ only in it have one normal form. */
  lemma CaseDropped(a: string, b: string)
    requires |a| == |b| && forall i | 0 <= i < |a| :: SameLetter(a[i], b[i])
    ensures Normalise(a) == Normalise(b)
  {
    forall i | 0 <= i < |a| ensures LowerChar(a[i]) == LowerChar(b[i]) && (IsSpace(a[i]) <==> IsSpace(b[i])) {
      SameLetterLower(a[i], b[i]);
    }
    SameStripLeft(a, b);
    SameStripRight(StripLeft(a), StripLeft(b));
  }

  ghost predicate Alike(a: string, b: string) {
    |a| == |b| && forall i | 0 <= i < |a| :: LowerChar(a[i]) == LowerChar(b[i]) && (IsSpace(a[i]) <==> IsSpace(b[i]))
  }

  lemma {:induction false} SameStripLeft(a: string, b: string)
    requires Alike(a, b)
    ensures Alike(StripLeft(a), StripLeft(b))
  {
    if a != "" && IsSpace(a[0]) { SameStripLeft(a[1..], b[1..]); }
  }

  lemma {:induction false} SameStripRight(a: string, b: string)
    requires Alike(a, b)
    ensures Alike(StripRight(a), StripRight(b))
  {
    if a != "" && IsSpace(a[|a| - 1]) { SameStripRight(a[..|a| - 1], b[..|b| - 1]); }
  }

  // ---- cursors ------------------------------------------------------------------------------------------------

  /** The last decimal digit. */
  function Dig(n: nat): char {
    "0123456789"[n % 10]
  }

  lemma DigIs(n: nat)
    ensures DigitChar(n % 10) == Dig(n)
  {
    assert forall d: nat | d < 10 :: "0123456789"[d] == '0' + d as char;
  }

  lemma PadOne(n: nat, width: nat)
    requires width > 0
    ensures Pad(10, n, width) == Pad(10, n / 10, width - 1) + [Dig(n)]
  {
    DigIs(n);
  }

  lemma Tens(n: nat)
    ensures n / 10 / 10 == n / 100 && n / 100 / 10 == n / 1000 && n / 1000 / 10 == n / 10000 && n / 10000 / 10 == n / 100000
  {}

  lemma PadNext(n: nat, width: nat, high: nat, front: string)
    requires width > 0 && high == n / 10 && Pad(10, high, width - 1) == front
    ensures Pad(10, n, width) == front + [Dig(n)]
  {
    PadOne(n, width);
  }

  lemma TwoDigits(n: nat)
    ensures Pad(10, n, 2) == [Dig(n / 10), Dig(n)]
  {
    PadNext(n / 10, 1, n / 10 / 10, "");
    PadNext(n, 2, n / 10, [Dig(n / 10)]);
  }

  lemma FourDigits(n: nat)
    ensures Pad(10, n, 4) == [Dig(n / 1000), Dig(n / 100), Dig(n / 10), Dig(n)]
  {
    Tens(n);
    var a, b, c := n / 10, n / 100, n / 1000;
    TwoDigits(b);
    PadNext(a, 3, b, [Dig(c), Dig(b)]);
    PadNext(n, 4, a, [Dig(c), Dig(b), Dig(a)]);
  }

  lemma SixDigits(n: nat)
    ensures Pad(10, n, 6) == [Dig(n / 100000), Dig(n / 10000), Dig(n / 1000), Dig(n / 100), Dig(n / 10), Dig(n)]
  {
    Tens(n);
    var a, b, c, d, e := n / 10, n / 100, n / 1000, n / 10000, n / 100000;
    Tens(b);
    FourDigits(b);
    PadNext(a, 5, b, [Dig(e), Dig(d), Dig(c), Dig(b)]);
    PadNext(n, 6, a, [Dig(e), Dig(d), Dig(c), Dig(b), Dig(a)]);
  }

  lemma DateSpelled(t: Stamp)
    ensures DateText(t) == [Dig(t.year / 1000), Dig(t.year / 100), Dig(t.year / 10), Dig(t.year), '-',
                            Dig(t.month / 10), Dig(t.month), '-', Dig(t.day / 10), Dig(t.day)]
  {
    FourDigits(t.year);
    TwoDigits(t.month);
    TwoDigits(t.day);
  }

  lemma ClockSpelled(t: Stamp)
    ensures ClockText(t) == [Dig(t.hour / 10), Dig(t.hour), ':', Dig(t.minute / 10), Dig(t.minute), ':', Dig(t.second / 10), Dig(t.second)]
  {
    TwoDigits(t.hour);
    TwoDigits(t.minute);
    TwoDigits(t.second);
  }

  lemma TailSpelled(t: Stamp)
    ensures TailText(t) ==
      (if t.micro == 0 then []
       else ['.', Dig(t.micro / 100000), Dig(t.micro / 10000), Dig(t.micro / 1000), Dig(t.micro / 100), Dig(t.micro / 10), Dig(t.micro)])
      + "+00:00"
  {
    SixDigits(t.micro);
  }

  /** A timestamp is written YYYY-MM-DDTHH:MM:SS, then six digits after a point when there are any
      microseconds, then the offset of UTC. */
  lemma IsoSpelled(t: Stamp)
    ensures IsoFormat(t) ==
      [Dig(t.year / 1000), Dig(t.year / 100), Dig(t.year / 10), Dig(t.year), '-',
       Dig(t.month / 10), Dig(t.month), '-', Dig(t.day / 10), Dig(t.day)] + "T"
      + [Dig(t.hour / 10), Dig(t.hour), ':', Dig(t.minute / 10), Dig(t.minute), ':', Dig(t.second / 10), Dig(t.second)]
      + ((if t.micro == 0 then []
          else ['.', Dig(t.micro / 100000), Dig(t.micro / 10000), Dig(t.micro / 1000), Dig(t.micro / 100), Dig(t.micro / 10), Dig(t.micro)])
         + "+00:00")
  {
    DateSpelled(t);
    ClockSpelled(t);
    TailSpelled(t);
  }

  const HEX: string := "0123456789abcdef"

  lemma HexIs(d: nat)
    requires d < 16
    ensures DigitChar(d) == HEX[d]
  {
    assert forall k: nat | k < 10 :: HEX[k] == '0' + k as char;
    assert forall k: nat | 10 <= k < 16 :: HEX[k] == 'a' + (k - 10) as char;
  }

  /** The k-th hexadecimal place from the right. */
  function HexPlace(n: nat, k: nat): char {
    if k == 0 then HEX[n % 16] else HexPlace(n / 16, k - 1)
  }

  lemma {:induction false} PadPlace(n: nat, width: nat, k: nat)
    requires k < width
    ensures Pad(16, n, width)[width - 1 - k] == HexPlace(n, k)
  {
    if k == 0 {
      HexIs(n % 16);
    } else {
      PadPlace(n / 16, width - 1, k - 1);
    }
  }

  lemma DashedPlaces(h: string, k: nat)
    requires |h| == 32 && k < 32
    ensures var s := Dashed(h);
      && |s| == 36 && s[8] == s[13] == s[18] == s[23] == '-'
      && s[if k < 8 then k else if k < 12 then k + 1 else if k < 16 then k + 2 else if k < 20 then k + 3 else k + 4] == h[k]
  {}

  /** A UUID is written in 32 hexadecimal places, most significant first, with dashes after 8, 12, 16 and 20. */
  lemma UuidSpelled(id: TaskId, k: nat)
    requires k < 32
    ensures var s := UuidText(id);
      && |s| == 36 && s[8] == s[13] == s[18] == s[23] == '-'
      && s[if k < 8 then k else if k < 12 then k + 1 else if k < 16 then k + 2 else if k < 20 then k + 3 else k + 4] == HexPlace(id, 31 - k)
  {
    var h := Pad(16, id, 32);
    DashedPlaces(h, k);
    var width := |h|;
    PadPlace(id, width, 31 - k);
  }

  const BASE64: string := CAPITALS + SMALL + "0123456789" + "-_"

  lemma DigitAt(k: nat)
    requires k < 10
    ensures "0123456789"[k] as int == '0' as int + k
  {}

  lemma Places(v: nat)
    requires v < 64
    ensures BASE64[v] ==
      if v < 26 then CAPITALS[v] else if v < 52 then SMALL[v - 26] else if v < 62 then "0123456789"[v - 52] else "-_"[v - 62]
  {}

  lemma SextetIs(v: nat)
    requires v < 64
    ensures SextetChar(v) == BASE64[v]
  {
    Places(v);
    if v < 26 {
      LetterAt(v);
    } else if v < 52 {
      LetterAt(v - 26);
    } else if v < 62 {
      DigitAt(v - 52);
    }
  }

  /** Three bytes are four letters of the URL-safe alphabet, six bits each, high bits first; the end of the text
      is padded to four with '='. */
  lemma GroupSpelled(x: Byte, y: Byte, z: Byte, rest: seq<Byte>)
    ensures var n := (x * 256 + y) * 256 + z;
      Encode64([x, y, z] + rest) == [BASE64[n / 262144], BASE64[n / 4096 % 64], BASE64[n / 64 % 64], BASE64[n % 64]] + Encode64(rest)
    ensures var n := x * 256 + y; Encode64([x, y]) == [BASE64[n / 1024], BASE64[n / 16 % 64], BASE64[n % 16 * 4], '=']
    ensures Encode64([x]) == [BASE64[x / 4], BASE64[x % 4 * 16], '=', '=']
    ensures Encode64([]) == ""
  {
    EncodeLong(x, y, z, rest);
    SixBits(x, y, z);
    TwelveBits(x, y);
    SextetIs(x / 4);
    SextetIs(x % 4 * 16 + y / 16);
    SextetIs(y % 16 * 4 + z / 64);
    SextetIs(z % 64);
    SextetIs(x % 4 * 16);
    SextetIs(y % 16 * 4);
  }

  lemma Quotient(n: nat, m: nat, a: nat, r: nat)
    requires n == m * a + r && r < m
    ensures n / m == a && n % m == r
  {
    var b := n / m;
    assert n == m * b + n % m;
    assert m * (a - b) == m * a - m * b;
    if a < b { MultiplesGrow(m, 1, b - a); }
    if b < a { MultiplesGrow(m, 1, a - b); }
  }

  lemma SixBits(x: Byte, y: Byte, z: Byte)
    ensures var n := (x * 256 + y) * 256 + z;
      n / 262144 == x / 4 && n / 4096 % 64 == x % 4 * 16 + y / 16 && n / 64 % 64 == y % 16 * 4 + z / 64 && n % 64 == z % 64
  {
    var n := (x * 256 + y) * 256 + z;
    var p, q, r, t := x / 4, x % 4 * 16 + y / 16, y % 16 * 4 + z / 64, z % 64;
    Quotient(n, 262144, p, (q * 64 + r) * 64 + t);
    Quotient(n, 4096, p * 64 + q, r * 64 + t);
    Quotient(p * 64 + q, 64, p, q);
    Quotient(n, 64, (p * 64 + q) * 64 + r, t);
    Quotient((p * 64 + q) * 64 + r, 64, p * 64 + q, r);
  }

  lemma TwelveBits(x: Byte, y: Byte)
    ensures var n := x * 256 + y; n / 1024 == x / 4 && n / 16 % 64 == x % 4 * 16 + y / 16 && n % 16 * 4 == y % 16 * 4
  {
    var n := x * 256 + y;
    var p, q, r := x / 4, x % 4 * 16 + y / 16, y % 16;
    Quotient(n, 1024, p, q * 16 + r);
    Quotient(n, 16, p * 64 + q, r);
    Quotient(p * 64 + q, 64, p, q);
  }

  /** A cursor is the base64 of the timestamp, a bar and the id, one byte a character. */
  lemma CursorSpelled(t: Stamp, id: TaskId, bytes: seq<Byte>)
    requires var text := IsoFormat(t) + "|" + UuidText(id); |bytes| == |text| && forall i | 0 <= i < |text| :: bytes[i] == text[i] as int
    ensures EncodeCursor(t, id) == Encode64(bytes)
  {
    assert Utf8(CursorText(t, id)) == bytes;
  }

  /** The months of the calendar the timestamps are of. */
  lemma MonthsSpelled(year: nat, month: nat)
    requires 1 <= month <= 12
    ensures month in {1, 3, 5, 7, 8, 10, 12} ==> DaysIn(year, month) == 31
    ensures month in {4, 6, 9, 11} ==> DaysIn(year, month) == 30
    ensures month == 2 ==> DaysIn(year, month) == if year % 400 == 0 || (year % 4 == 0 && year % 100 != 0) then 29 else 28
  {}
}
