/** src/acp/db/queries/tasks.py, `_encode_cursor` and `_decode_cursor`: isoformat, UUID text and URL-safe
    base64, with the parsers that read them back. */
module Cursors {
  import opened Wrappers
  import opened Tables

  // ---- numbers in a base -----------------------------------------------------------------------------------

  function DigitChar(d: nat): char
    requires d < 16
  {
    if d < 10 then '0' + d as char else 'a' + (d - 10) as char
  }

  function DigitValue(c: char): Option<nat> {
    if '0' <= c <= '9' then Some((c - '0') as nat)
    else if 'a' <= c <= 'f' then Some((c - 'a') as nat + 10)
    else if 'A' <= c <= 'F' then Some((c - 'A') as nat + 10)
    else None
  }

  /** Zero-padded digits. */
  function Pad(base: nat, n: nat, width: nat): (r: string)
    requires 2 <= base <= 16
    ensures |r| == width
  {
    if width == 0 then "" else Pad(base, n / base, width - 1) + [DigitChar(n % base)]
  }

  function Parse(base: nat, s: string): Option<nat> {
    if s == "" then Some(0) else
      match (Parse(base, s[..|s| - 1]), DigitValue(s[|s| - 1]))
      case (Some(high), Some(low)) => if low < base then Some(high * base + low) else None
      case _ => None
  }

  lemma DigitRoundTrip(d: nat)
    requires d < 16
    ensures DigitValue(DigitChar(d)) == Some(d)
  {}

  lemma ParseSnoc(base: nat, s: string, high: nat, d: nat)
    requires Parse(base, s) == Some(high) && d < base <= 16
    ensures Parse(base, s + [DigitChar(d)]).Some? && Parse(base, s + [DigitChar(d)]).value == high * base + d
  {
    DigitRoundTrip(d);
    assert (s + [DigitChar(d)])[..|s|] == s;
  }

  lemma {:induction false} ParsePad(base: nat, n: nat, width: nat)
    requires 2 <= base <= 16 && n < Pow(base, width)
    ensures Parse(base, Pad(base, n, width)) == Some(n)
  {
    if width == 0 {
    } else {
      QuotientFits(base, n, Pow(base, width - 1));
      ParsePad(base, n / base, width - 1);
      ParseSnoc(base, Pad(base, n / base, width - 1), n / base, n % base);
      Recompose(base, n);
    }
  }

  lemma Recompose(base: nat, n: nat)
    requires base >= 1
    ensures n / base * base + n % base == n
  {
    assert n == base * (n / base) + n % base;
  }

  lemma QuotientFits(base: nat, n: nat, bound: nat)
    requires base >= 1 && n < base * bound
    ensures n / base < bound
  {
    assert base * (n / base) <= n;
    if n / base >= bound { MultiplesGrow(base, bound, n / base); }
  }

  /** Only digits: no '-', no '|', no ':'. */
  lemma {:induction false} PadDigits(base: nat, n: nat, width: nat)
    requires 2 <= base <= 16
    ensures forall c <- Pad(base, n, width) :: DigitValue(c).Some?
  {
    if width == 0 {
    } else {
      PadDigits(base, n / base, width - 1);
      DigitRoundTrip(n % base);
    }
  }

  lemma NotADigit(s: string, c: char)
    requires (forall d <- s :: DigitValue(d).Some?) && DigitValue(c).None?
    ensures c !in s
  {}

  // ---- timestamps --------------------------------------------------------------------------------------------

  // A UTC timestamp, as the driver hands it over.
  datatype Stamp = Stamp(year: nat, month: nat, day: nat, hour: nat, minute: nat, second: nat, micro: nat)

  predicate IsLeap(year: nat) {
    year % 4 == 0 && (year % 100 != 0 || year % 400 == 0)
  }

  function DaysIn(year: nat, month: nat): nat {
    if month == 2 then (if IsLeap(year) then 29 else 28)
    else if month in {4, 6, 9, 11} then 30
    else 31
  }

  predicate ValidStamp(t: Stamp) {
    && 1 <= t.year <= 9999 && 1 <= t.month <= 12 && 1 <= t.day <= DaysIn(t.year, t.month)
    && t.hour < 24 && t.minute < 60 && t.second < 60 && t.micro < 1_000_000
  }

  const UTC: string := "+00:00"

  /** Three numbers between two separators: "2024-05-17", "09:30:00". */
  function Triple(a: string, b: string, c: string, sep: char): (r: string) {
    a + [sep] + b + [sep] + c
  }

  /** `datetime.isoformat()`: the fraction is written only when there is one. */
  function IsoFormat(t: Stamp): string {
    DateText(t) + "T" + ClockText(t) + TailText(t)
  }

  function DateText(t: Stamp): string {
    Triple(Pad(10, t.year, 4), Pad(10, t.month, 2), Pad(10, t.day, 2), '-')
  }

  function ClockText(t: Stamp): string {
    Triple(Pad(10, t.hour, 2), Pad(10, t.minute, 2), Pad(10, t.second, 2), ':')
  }

  function TailText(t: Stamp): string {
    (if t.micro == 0 then "" else "." + Pad(10, t.micro, 6)) + UTC
  }

  /** Three numbers, the first `width` digits wide and the others two. */
  function ParseTriple(s: string, width: nat, sep: char): Option<(nat, nat, nat)> {
    if |s| != width + 6 || s[width] != sep || s[width + 3] != sep then None
    else
      match (Parse(10, s[..width]), Parse(10, s[width + 1..width + 3]), Parse(10, s[width + 4..]))
      case (Some(a), Some(b), Some(c)) => Some((a, b, c))
      case _ => None
  }

  /** The fraction and the offset. */
  function ParseTail(s: string): Option<nat> {
    if s == UTC then Some(0)
    else if |s| == 13 && s[0] == '.' && s[7..] == UTC then Parse(10, s[1..7])
    else None
  }

  /** `datetime.fromisoformat()`, on the format `isoformat()` writes for UTC. */
  function FromIsoFormat(s: string): Option<Stamp> {
    if |s| < 19 || s[10] != 'T' then None
    else
      match (ParseTriple(s[..10], 4, '-'), ParseTriple(s[11..19], 2, ':'), ParseTail(s[19..]))
      case (Some((year, month, day)), Some((hour, minute, second)), Some(micro)) =>
        var t := Stamp(year, month, day, hour, minute, second, micro);
        if ValidStamp(t) then Some(t) else None
      case _ => None
  }

  lemma Widths()
    ensures Pow(10, 2) == 100 && Pow(10, 4) == 10_000 && Pow(10, 6) == 1_000_000
  {}

  lemma TripleLayout(a: string, b: string, c: string, sep: char)
    requires |b| == |c| == 2
    ensures var r := Triple(a, b, c, sep); var n := |a|;
      && |r| == n + 6 && r[n] == sep && r[n + 3] == sep && r[..n] == a && r[n + 1..n + 3] == b && r[n + 4..] == c
  {}

  lemma TripleParts(s: string, width: nat, sep: char, x: nat, y: nat, z: nat)
    requires |s| == width + 6 && s[width] == sep && s[width + 3] == sep
    requires Parse(10, s[..width]) == Some(x) && Parse(10, s[width + 1..width + 3]) == Some(y) && Parse(10, s[width + 4..]) == Some(z)
    ensures ParseTriple(s, width, sep) == Some((x, y, z))
  {}

  lemma TripleRoundTrip(x: nat, y: nat, z: nat, width: nat, sep: char)
    requires x < Pow(10, width) && y < 100 && z < 100
    ensures ParseTriple(Triple(Pad(10, x, width), Pad(10, y, 2), Pad(10, z, 2), sep), width, sep) == Some((x, y, z))
  {
    var a, b, c := Pad(10, x, width), Pad(10, y, 2), Pad(10, z, 2);
    Widths();
    ParsePad(10, x, width);
    ParsePad(10, y, 2);
    ParsePad(10, z, 2);
    TripleLayout(a, b, c, sep);
    TripleParts(Triple(a, b, c, sep), width, sep, x, y, z);
  }

  lemma TailRoundTrip(t: Stamp)
    requires t.micro < 1_000_000
    ensures ParseTail(TailText(t)) == Some(t.micro)
  {
    Widths();
    if t.micro == 0 {
      assert "" + UTC == UTC;
    } else {
      var s := "." + Pad(10, t.micro, 6) + UTC;
      assert s[1..7] == Pad(10, t.micro, 6) && s[7..] == UTC;
      ParsePad(10, t.micro, 6);
    }
  }

  lemma IsoParts(date: string, clock: string, tail: string)
    requires |date| == 10 && |clock| == 8
    ensures var s := date + "T" + clock + tail; |s| >= 19 && s[10] == 'T' && s[..10] == date && s[11..19] == clock && s[19..] == tail
  {}

  lemma IsoRoundTrip(t: Stamp)
    requires ValidStamp(t)
    ensures FromIsoFormat(IsoFormat(t)) == Some(t)
  {
    Widths();
    TripleRoundTrip(t.year, t.month, t.day, 4, '-');
    TripleRoundTrip(t.hour, t.minute, t.second, 2, ':');
    TailRoundTrip(t);
    TripleLayout(Pad(10, t.year, 4), Pad(10, t.month, 2), Pad(10, t.day, 2), '-');
    TripleLayout(Pad(10, t.hour, 2), Pad(10, t.minute, 2), Pad(10, t.second, 2), ':');
    IsoParts(DateText(t), ClockText(t), TailText(t));
  }

  // ---- UUIDs ------------------------------------------------------------------------------------------------

  const UUID_BOUND: nat := 0x1_0000_0000_0000_0000_0000_0000_0000_0000

  function Dashed(h: string): string
    requires |h| == 32
  {
    h[..8] + "-" + h[8..12] + "-" + h[12..16] + "-" + h[16..20] + "-" + h[20..]
  }

  /** `str(uuid)`. */
  function UuidText(id: TaskId): string {
    Dashed(Pad(16, id, 32))
  }

  /** `s.replace("-", "")`. */
  function WithoutDashes(s: string): string {
    if s == "" then "" else (if s[0] == '-' then "" else [s[0]]) + WithoutDashes(s[1..])
  }

  /** `UUID(s)`, for plain hexadecimal with or without dashes. */
  function UuidOf(s: string): Option<TaskId> {
    var h := WithoutDashes(s);
    if |h| == 32 then Parse(16, h) else None
  }

  lemma {:induction false} DashesConcat(a: string, b: string)
    requires '-' !in a
    ensures WithoutDashes(a + b) == a + WithoutDashes(b)
  {
    if a == "" {
      assert a + b == b;
    } else {
      assert (a + b)[1..] == a[1..] + b;
      DashesConcat(a[1..], b);
    }
  }

  lemma DashBetween(a: string, b: string)
    requires '-' !in a
    ensures WithoutDashes(a + "-" + b) == a + WithoutDashes(b)
  {
    assert a + "-" + b == a + ("-" + b);
    DashesConcat(a, "-" + b);
    assert ("-" + b)[1..] == b;
  }

  lemma NoDashes(s: string)
    requires '-' !in s
    ensures WithoutDashes(s) == s
  {
    DashesConcat(s, "");
    assert s + "" == s;
  }

  lemma UndashDashed(h: string)
    requires |h| == 32 && '-' !in h
    ensures WithoutDashes(Dashed(h)) == h
  {
    var r4 := h[20..];
    var r3 := h[16..20] + "-" + r4;
    var r2 := h[12..16] + "-" + r3;
    var r1 := h[8..12] + "-" + r2;
    assert Dashed(h) == h[..8] + "-" + r1;
    DashBetween(h[..8], r1);
    DashBetween(h[8..12], r2);
    DashBetween(h[12..16], r3);
    DashBetween(h[16..20], r4);
    NoDashes(r4);
    assert h == h[..8] + (h[8..12] + (h[12..16] + (h[16..20] + h[20..])));
  }

  lemma {:induction false} PowAdds(base: nat, a: nat, b: nat)
    ensures Pow(base, a + b) == Pow(base, a) * Pow(base, b)
  {
    if a == 0 {
    } else {
      PowAdds(base, a - 1, b);
      assert base * (Pow(base, a - 1) * Pow(base, b)) == base * Pow(base, a - 1) * Pow(base, b);
    }
  }

  lemma UuidBound()
    ensures Pow(16, 32) == UUID_BOUND
  {
    PowAdds(16, 16, 16);
    PowAdds(16, 8, 8);
    assert Pow(16, 8) == 0x1_0000_0000;
  }

  lemma UuidRoundTrip(id: TaskId)
    requires id < UUID_BOUND
    ensures UuidOf(UuidText(id)) == Some(id)
  {
    var h := Pad(16, id, 32);
    PadDigits(16, id, 32);
    NotADigit(h, '-');
    UndashDashed(h);
    UuidBound();
    ParsePad(16, id, 32);
  }

  // ---- URL-safe base64 ----------------------------------------------------------------------------------------

  type Byte = n: nat | n < 256
  type Sextet = n: nat | n < 64

  function SextetChar(v: Sextet): char {
    if v < 26 then 'A' + v as char
    else if v < 52 then 'a' + (v - 26) as char
    else if v < 62 then '0' + (v - 52) as char
    else if v == 62 then '-' else '_'
  }

  function SextetOf(c: char): Option<Sextet> {
    if 'A' <= c <= 'Z' then Some((c - 'A') as nat)
    else if 'a' <= c <= 'z' then Some((c - 'a') as nat + 26)
    else if '0' <= c <= '9' then Some((c - '0') as nat + 52)
    else if c == '-' then Some(62)
    else if c == '_' then Some(63)
    else None
  }

  lemma SextetRoundTrip(v: Sextet)
    ensures SextetOf(SextetChar(v)) == Some(v) && SextetChar(v) != '='
  {}

  function Encode64(b: seq<Byte>): string
    decreases |b|
  {
    if b == [] then ""
    else if |b| == 1 then [SextetChar(b[0] / 4), SextetChar(b[0] % 4 * 16), '=', '=']
    else if |b| == 2 then [SextetChar(b[0] / 4), SextetChar(b[0] % 4 * 16 + b[1] / 16), SextetChar(b[1] % 16 * 4), '=']
    else Quad(b[0], b[1], b[2]) + Encode64(b[3..])
  }

  function Quad(x: Byte, y: Byte, z: Byte): string {
    [SextetChar(x / 4), SextetChar(x % 4 * 16 + y / 16), SextetChar(y % 16 * 4 + z / 64), SextetChar(z % 64)]
  }

  /** Four characters at a time; padding only in the last group. */
  function Decode64(s: string): Option<seq<Byte>>
    decreases |s|
  {
    if s == "" then Some([])
    else if |s| < 4 then None
    else
      match DecodeQuad(s[0], s[1], s[2], s[3], |s| == 4)
      case None => None
      case Some(head) =>
        match Decode64(s[4..])
        case None => None
        case Some(rest) => Some(head + rest)
  }

  function DecodeQuad(a: char, b: char, c: char, d: char, last: bool): Option<seq<Byte>> {
    match (SextetOf(a), SextetOf(b))
    case (Some(p), Some(q)) =>
      if last && c == '=' && d == '=' then Some([p * 4 + q / 16])
      else
        (match SextetOf(c)
         case None => None
         case Some(r) =>
           if last && d == '=' then Some([p * 4 + q / 16, q % 16 * 16 + r / 4])
           else
             (match SextetOf(d)
              case None => None
              case Some(t) => Some([p * 4 + q / 16, q % 16 * 16 + r / 4, r % 4 * 64 + t])))
    case _ => None
  }

  /** Four sextets carry three bytes. */
  lemma Regrouped(x: Byte, y: Byte, z: Byte)
    ensures var p, q, r, t := x / 4, x % 4 * 16 + y / 16, y % 16 * 4 + z / 64, z % 64;
      x == p * 4 + q / 16 && y == q % 16 * 16 + r / 4 && z == r % 4 * 64 + t
  {}

  lemma FourSextets(a: char, b: char, c: char, d: char, last: bool, p: Sextet, q: Sextet, r: Sextet, t: Sextet)
    requires SextetOf(a) == Some(p) && SextetOf(b) == Some(q) && SextetOf(c) == Some(r) && SextetOf(d) == Some(t)
    requires c != '=' && d != '='
    ensures DecodeQuad(a, b, c, d, last) == Some([p * 4 + q / 16, q % 16 * 16 + r / 4, r % 4 * 64 + t])
  {}

  lemma QuadRoundTrip(x: Byte, y: Byte, z: Byte, last: bool)
    ensures var s := Quad(x, y, z); DecodeQuad(s[0], s[1], s[2], s[3], last) == Some([x, y, z])
  {
    var p, q, r, t := x / 4, x % 4 * 16 + y / 16, y % 16 * 4 + z / 64, z % 64;
    SextetRoundTrip(p);
    SextetRoundTrip(q);
    SextetRoundTrip(r);
    SextetRoundTrip(t);
    FourSextets(SextetChar(p), SextetChar(q), SextetChar(r), SextetChar(t), last, p, q, r, t);
    Regrouped(x, y, z);
  }

  lemma OneRoundTrip(x: Byte)
    ensures DecodeQuad(SextetChar(x / 4), SextetChar(x % 4 * 16), '=', '=', true) == Some([x])
  {
    SextetRoundTrip(x / 4);
    SextetRoundTrip(x % 4 * 16);
  }

  lemma TwoRoundTrip(x: Byte, y: Byte)
    ensures DecodeQuad(SextetChar(x / 4), SextetChar(x % 4 * 16 + y / 16), SextetChar(y % 16 * 4), '=', true) == Some([x, y])
  {
    SextetRoundTrip(x / 4);
    SextetRoundTrip(x % 4 * 16 + y / 16);
    SextetRoundTrip(y % 16 * 4);
  }

  /** Reading one group and then the rest. */
  lemma DecodeGroup(a: char, b: char, c: char, d: char, rest: string, head: seq<Byte>, tail: seq<Byte>)
    requires DecodeQuad(a, b, c, d, rest == "") == Some(head) && Decode64(rest) == Some(tail)
    ensures Decode64([a, b, c, d] + rest) == Some(head + tail)
  {
    var s := [a, b, c, d] + rest;
    assert s[4..] == rest;
  }

  lemma FirstGroup(x: Byte, y: Byte, z: Byte, rest: string, tail: seq<Byte>)
    requires Decode64(rest) == Some(tail)
    ensures Decode64(Quad(x, y, z) + rest) == Some([x, y, z] + tail)
  {
    var q := Quad(x, y, z);
    QuadRoundTrip(x, y, z, rest == "");
    DecodeGroup(q[0], q[1], q[2], q[3], rest, [x, y, z], tail);
    assert q == [q[0], q[1], q[2], q[3]];
  }

  lemma EncodeLong(x: Byte, y: Byte, z: Byte, tail: seq<Byte>)
    ensures Encode64([x, y, z] + tail) == Quad(x, y, z) + Encode64(tail)
  {
    assert ([x, y, z] + tail)[3..] == tail;
  }

  lemma LongRoundTrip(b: seq<Byte>, x: Byte, y: Byte, z: Byte, tail: seq<Byte>)
    requires b == [x, y, z] + tail && Decode64(Encode64(tail)) == Some(tail)
    ensures Decode64(Encode64(b)) == Some(b)
  {
    EncodeLong(x, y, z, tail);
    FirstGroup(x, y, z, Encode64(tail), tail);
  }

  lemma LastGroup(b: seq<Byte>, p: char, q: char, r: char, t: char)
    requires DecodeQuad(p, q, r, t, true) == Some(b)
    ensures Decode64([p, q, r, t]) == Some(b)
  {
    DecodeGroup(p, q, r, t, "", b, []);
    assert [p, q, r, t] + "" == [p, q, r, t] && b + [] == b;
  }

  lemma OneByte(x: Byte)
    ensures Decode64(Encode64([x])) == Some([x])
  {
    OneRoundTrip(x);
    LastGroup([x], SextetChar(x / 4), SextetChar(x % 4 * 16), '=', '=');
  }

  lemma TwoBytes(x: Byte, y: Byte)
    ensures Decode64(Encode64([x, y])) == Some([x, y])
  {
    TwoRoundTrip(x, y);
    LastGroup([x, y], SextetChar(x / 4), SextetChar(x % 4 * 16 + y / 16), SextetChar(y % 16 * 4), '=');
  }

  lemma Regroup(b: seq<Byte>)
    requires |b| >= 3
    ensures b == [b[0], b[1], b[2]] + b[3..]
  {}

  lemma ShortRoundTrip(b: seq<Byte>)
    requires 1 <= |b| <= 2
    ensures Decode64(Encode64(b)) == Some(b)
  {
    if |b| == 2 {
      TwoBytes(b[0], b[1]);
      assert b == [b[0], b[1]];
    } else {
      OneByte(b[0]);
      assert b == [b[0]];
    }
  }

  lemma {:induction false} Base64RoundTrip(b: seq<Byte>)
    ensures Decode64(Encode64(b)) == Some(b)
    decreases |b|
  {
    if |b| >= 3 {
      Regroup(b);
      Base64RoundTrip(b[3..]);
      LongRoundTrip(b, b[0], b[1], b[2], b[3..]);
    } else if b != [] {
      ShortRoundTrip(b);
    }
  }

  // ---- the cursor ---------------------------------------------------------------------------------------------

  predicate Ascii(s: string) {
    forall c <- s :: c as int < 128
  }

  /** `s.encode()`; the text of a cursor is ASCII. */
  function Utf8(s: string): (r: seq<Byte>)
    requires Ascii(s)
  {
    seq(|s|, i requires 0 <= i < |s| => ByteOf(s, i))
  }

  function ByteOf(s: string, i: nat): Byte
    requires Ascii(s) && i < |s|
  {
    assert s[i] in s;
    s[i] as nat
  }

  function Utf8Decoded(b: seq<Byte>): Option<string> {
    if forall x <- b :: x < 128 then Some(seq(|b|, i requires 0 <= i < |b| => b[i] as char)) else None
  }

  /** `s.split("|", 1)`. */
  function Bar(s: string): Option<(string, string)> {
    if s == "" then None
    else if s[0] == '|' then Some(("", s[1..]))
    else
      match Bar(s[1..])
      case None => None
      case Some((a, b)) => Some(([s[0]] + a, b))
  }

  lemma {:induction false} BarSplits(a: string, b: string)
    requires '|' !in a
    ensures Bar(a + "|" + b) == Some((a, b))
  {
    if a == "" {
      assert a + "|" + b == "|" + b;
      assert ("|" + b)[1..] == b;
    } else {
      assert (a + "|" + b)[1..] == a[1..] + "|" + b;
      BarSplits(a[1..], b);
      assert a == [a[0]] + a[1..];
    }
  }

  lemma DigitsAreAscii(s: string)
    requires forall c <- s :: DigitValue(c).Some?
    ensures Ascii(s) && '|' !in s
  {
    NotADigit(s, '|');
  }

  lemma IsoText(t: Stamp)
    ensures Ascii(IsoFormat(t)) && '|' !in IsoFormat(t)
  {
    PadText(t.year, 4);
    PadText(t.month, 2);
    PadText(t.day, 2);
    PadText(t.hour, 2);
    PadText(t.minute, 2);
    PadText(t.second, 2);
    PadText(t.micro, 6);
  }

  lemma PadText(n: nat, width: nat)
    ensures Ascii(Pad(10, n, width)) && '|' !in Pad(10, n, width)
  {
    PadDigits(10, n, width);
    DigitsAreAscii(Pad(10, n, width));
  }

  lemma UuidAscii(id: TaskId)
    ensures Ascii(UuidText(id))
  {
    var h := Pad(16, id, 32);
    PadDigits(16, id, 32);
    DigitsAreAscii(h);
    forall c | c in UuidText(id) ensures c as int < 128 {
      assert c == '-' || c in h;
    }
  }

  function CursorText(t: Stamp, id: TaskId): (r: string)
    ensures Ascii(r)
  {
    IsoText(t);
    UuidAscii(id);
    IsoFormat(t) + "|" + UuidText(id)
  }

  function EncodeCursor(t: Stamp, id: TaskId): string {
    Encode64(Utf8(CursorText(t, id)))
  }

  function DecodeCursor(cursor: string): Option<(Stamp, TaskId)> {
    match Decode64(cursor)
    case None => None
    case Some(b) =>
      match Utf8Decoded(b)
      case None => None
      case Some(raw) =>
        match Bar(raw)
        case None => None
        case Some((ts, tid)) =>
          match (FromIsoFormat(ts), UuidOf(tid))
          case (Some(t), Some(id)) => Some((t, id))
          case _ => None
  }

  lemma Utf8RoundTrip(s: string)
    requires Ascii(s)
    ensures Utf8Decoded(Utf8(s)) == Some(s)
  {
    var b := Utf8(s);
    forall x | x in b ensures x < 128 {
      var i :| 0 <= i < |b| && b[i] == x;
      assert s[i] in s;
    }
    assert seq(|b|, i requires 0 <= i < |b| => b[i] as char) == s;
  }

  /** Decoding a cursor gives back exactly the timestamp and id it was made from, for every timestamp and
      every 128-bit id. */
  lemma CursorRoundTrip(t: Stamp, id: TaskId)
    requires ValidStamp(t) && id < UUID_BOUND
    ensures DecodeCursor(EncodeCursor(t, id)) == Some((t, id))
  {
    Base64RoundTrip(Utf8(CursorText(t, id)));
    Utf8RoundTrip(CursorText(t, id));
    IsoText(t);
    BarSplits(IsoFormat(t), UuidText(id));
    IsoRoundTrip(t);
    UuidRoundTrip(id);
  }
}
