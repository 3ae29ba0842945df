/** What the cursor codec's texts mean, against the standards they follow: UTF-8 (RFC 3629),
    JSON escapes (RFC 8259) and the printed URNs. */
module CursorText {
  import opened Wrappers
  import G = Graph
  import opened Identity
  import opened Json
  import opened Cursor
  import T = Text
  import B = Base64

  // ---- UTF-8 ----

  /** A Unicode scalar value: any code point that is no surrogate. */
  predicate Scalar(p: nat) { p < 0xD800 || 0xE000 <= p < 0x110000 }

  ghost predicate Scalars(ps: seq<nat>) { forall i :: 0 <= i < |ps| ==> Scalar(ps[i]) }

  /** One scalar value in one to four bytes (section 3 of RFC 3629). */
  function Bytes(p: nat): string
    requires Scalar(p)
  {
    if p < 0x10000 then Utf8(p)
    else [T.Byte(0xF0 + p / 262144), T.Byte(0x80 + p / 4096 % 64), T.Byte(0x80 + p / 64 % 64), T.Byte(0x80 + p % 64)]
  }

  ghost function AllBytes(ps: seq<nat>): string
    requires Scalars(ps)
  {
    if ps == [] then "" else Bytes(ps[0]) + AllBytes(ps[1..])
  }

  /** The payload bits of the bytes are the scalar value, in as few bytes as hold it. */
  lemma BytesCarry(p: nat)
    requires Scalar(p)
    ensures var s := Bytes(p); |s| == if p < 0x80 then 1 else if p < 0x800 then 2 else if p < 0x10000 then 3 else 4
    ensures var s := Bytes(p); |s| == 1 ==> s[0] as int == p
    ensures var s := Bytes(p); |s| == 2 ==> (s[0] as int - 0xC0) * 64 + (s[1] as int - 0x80) == p
    ensures var s := Bytes(p); |s| == 3 ==> (s[0] as int - 0xE0) * 4096 + (s[1] as int - 0x80) * 64 + (s[2] as int - 0x80) == p
    ensures var s := Bytes(p); |s| == 4 ==>
      (s[0] as int - 0xF0) * 262144 + (s[1] as int - 0x80) * 4096 + (s[2] as int - 0x80) * 64 + (s[3] as int - 0x80) == p
  {
    Groups(p);
  }

  lemma Groups(p: nat)
    ensures p == p / 64 * 64 + p % 64
    ensures p == p / 4096 * 4096 + p / 64 % 64 * 64 + p % 64
    ensures p == p / 262144 * 262144 + p / 4096 % 64 * 4096 + p / 64 % 64 * 64 + p % 64
  {
    var a, b := p / 64, p / 4096;
    assert a / 64 == b && b / 64 == p / 262144;
    assert a == a / 64 * 64 + a % 64 && b == b / 64 * 64 + b % 64;
  }

  /** Six-bit groups put together come apart again. */
  lemma Apart(a: nat, b: nat, c: nat, d: nat)
    requires b < 64 && c < 64 && d < 64
    ensures var p := a * 262144 + b * 4096 + c * 64 + d; p / 262144 == a && p / 4096 % 64 == b && p / 64 % 64 == c && p % 64 == d
  {
    var p := a * 262144 + b * 4096 + c * 64 + d;
    var q := a * 4096 + b * 64 + c;
    assert p == q * 64 + d && p / 64 == q;
    assert q / 64 == a * 64 + b && p / 4096 == q / 64;
  }

  lemma HeadOneTwo(p: nat, s: string)
    requires p < 0x800
    ensures Utf8Valid(Bytes(p) + s) == Utf8Valid(s)
  {
    var t := Bytes(p) + s;
    assert t[|Bytes(p)|..] == s;
  }

  lemma HeadThree(p: nat, s: string)
    requires 0x800 <= p < 0x10000 && Scalar(p)
    ensures Utf8Valid(Bytes(p) + s) == Utf8Valid(s)
  {
    var t := Bytes(p) + s;
    assert t[3..] == s;
  }

  lemma HeadFour(p: nat, s: string)
    requires 0x10000 <= p && Scalar(p)
    ensures Utf8Valid(Bytes(p) + s) == Utf8Valid(s)
  {
    var t := Bytes(p) + s;
    assert t[4..] == s;
  }

  lemma Head(p: nat, s: string)
    requires Scalar(p)
    ensures Utf8Valid(Bytes(p) + s) == Utf8Valid(s)
  {
    hide Utf8Valid, Bytes;
    if p < 0x800 { HeadOneTwo(p, s); } else if p < 0x10000 { HeadThree(p, s); } else { HeadFour(p, s); }
  }

  /** Well-formed text begins with the bytes of some scalar value. */
  lemma Leads(s: string) returns (p: nat)
    requires Utf8Valid(s) && s != ""
    ensures Scalar(p) && |Bytes(p)| <= |s| && s == Bytes(p) + s[|Bytes(p)|..] && Utf8Valid(s[|Bytes(p)|..])
  {
    var a := s[0] as int;
    if a < 0x80 {
      p := a;
    } else if a < 0xE0 {
      p := (a - 0xC0) * 64 + (s[1] as int - 0x80);
      assert Bytes(p) == s[..2];
    } else if a < 0xF0 {
      p := LeadsThree(s);
    } else {
      p := LeadsFour(s);
    }
  }

  lemma LeadsThree(s: string) returns (p: nat)
    requires Utf8Valid(s) && s != "" && 0xE0 <= s[0] as int < 0xF0
    ensures Scalar(p) && 3 <= |s| && |Bytes(p)| == 3 && s == Bytes(p) + s[3..] && Utf8Valid(s[3..])
  {
    p := (s[0] as int - 0xE0) * 4096 + (s[1] as int - 0x80) * 64 + (s[2] as int - 0x80);
    assert Bytes(p) == s[..3];
  }

  lemma LeadsFour(s: string) returns (p: nat)
    requires Utf8Valid(s) && s != "" && 0xF0 <= s[0] as int
    ensures Scalar(p) && 4 <= |s| && |Bytes(p)| == 4 && s == Bytes(p) + s[4..] && Utf8Valid(s[4..])
  {
    p := (s[0] as int - 0xF0) * 262144 + (s[1] as int - 0x80) * 4096 + (s[2] as int - 0x80) * 64 + (s[3] as int - 0x80);
    Apart(s[0] as int - 0xF0, s[1] as int - 0x80, s[2] as int - 0x80, s[3] as int - 0x80);
    hide Utf8Valid;
    var t := Bytes(p);
    assert |t| == 4 && t[0] == s[0] && t[1] == s[1] && t[2] == s[2] && t[3] == s[3];
    assert t == s[..4];
  }

  lemma {:induction false} EncodedValid(ps: seq<nat>)
    requires Scalars(ps)
    ensures Utf8Valid(AllBytes(ps))
  {
    hide Bytes;
    if ps != [] {
      EncodedValid(ps[1..]);
      Head(ps[0], AllBytes(ps[1..]));
    }
  }

  lemma {:induction false} ValidEncoded(s: string) returns (ps: seq<nat>)
    requires Utf8Valid(s)
    ensures Scalars(ps) && AllBytes(ps) == s
    decreases |s|
  {
    if s == "" {
      ps := [];
    } else {
      var p := Leads(s);
      assert |Bytes(p)| > 0;
      hide Bytes, Utf8Valid;
      var rest := ValidEncoded(s[|Bytes(p)|..]);
      ps := [p] + rest;
      assert ps[1..] == rest;
    }
  }

  /** The check accepts exactly the encodings of sequences of scalar values. */
  lemma Utf8Exact(s: string)
    ensures Utf8Valid(s) <==> exists ps :: Scalars(ps) && AllBytes(ps) == s
  {
    if Utf8Valid(s) {
      var ps := ValidEncoded(s);
    }
    if ps :| Scalars(ps) && AllBytes(ps) == s { EncodedValid(ps); }
  }

  // ---- escapes ----

  /** The number a run of four hexadecimal digits, in either case, stands for. */
  ghost predicate Hex4(s: string, v: nat) {
    && |s| == 4 && v < 0x10000
    && HexDigit(s[0], v / 4096) && HexDigit(s[1], v / 256 % 16) && HexDigit(s[2], v / 16 % 16) && HexDigit(s[3], v % 16)
  }

  ghost predicate HexDigit(c: char, d: nat) {
    d < 16 && (c == "0123456789abcdef"[d] || c == "0123456789ABCDEF"[d])
  }

  lemma HexIs(c: char, d: nat)
    ensures HexDigit(c, d) <==> Hex(c) == Some(d)
  {}

  /** `\uXXXX` reads as the UTF-8 of the number its four digits stand for. */
  lemma EscapeReads(h: string, v: nat, rest: string)
    requires Hex4(h, v)
    ensures ReadEscape("u" + h + rest) == Some((Utf8(v), rest))
  {
    var s := "u" + h + rest;
    assert s[1] == h[0] && s[2] == h[1] && s[3] == h[2] && s[4] == h[3] && s[5..] == rest;
    HexIs(h[0], v / 4096);
    HexIs(h[1], v / 256 % 16);
    HexIs(h[2], v / 16 % 16);
    HexIs(h[3], v % 16);
    hide HexDigit, Hex, Utf8, Hex4;
    Nibbles(v);
    ReadsHex(s, v / 4096, v / 256 % 16, v / 16 % 16, v % 16, v);
  }

  lemma ReadsHex(s: string, a: nat, b: nat, c: nat, d: nat, v: nat)
    requires |s| >= 5 && s[0] == 'u' && v < 0x10000 && v == a * 4096 + b * 256 + c * 16 + d
    requires Hex(s[1]) == Some(a) && Hex(s[2]) == Some(b) && Hex(s[3]) == Some(c) && Hex(s[4]) == Some(d)
    ensures ReadEscape(s) == Some((Utf8(v), s[5..]))
  {
    hide Hex, Utf8;
  }

  lemma Nibbles(v: nat)
    ensures v == v / 4096 * 4096 + v / 256 % 16 * 256 + v / 16 % 16 * 16 + v % 16
  {
    var a, b := v / 16, v / 256;
    assert a / 16 == b && b / 16 == v / 4096;
    assert a == a / 16 * 16 + a % 16 && b == b / 16 * 16 + b % 16;
  }

  lemma NibblesApart(a: nat, b: nat, c: nat, d: nat)
    requires b < 16 && c < 16 && d < 16
    ensures var v := a * 4096 + b * 256 + c * 16 + d; v / 4096 == a && v / 256 % 16 == b && v / 16 % 16 == c && v % 16 == d
  {
    var v := a * 4096 + b * 256 + c * 16 + d;
    var q := a * 256 + b * 16 + c;
    assert v == q * 16 + d && v / 16 == q;
    assert q / 16 == a * 16 + b && v / 256 == q / 16;
  }

  /** The two-character escapes of section 7 of RFC 8259, and no others. */
  lemma ShortEscapes(c: char, rest: string)
    ensures c == '"' || c == '\\' || c == '/' ==> ReadEscape([c] + rest) == Some(([c], rest))
    ensures c == 'n' ==> ReadEscape([c] + rest) == Some((['\n'], rest))
    ensures c == 'r' ==> ReadEscape([c] + rest) == Some((['\r'], rest))
    ensures c == 't' ==> ReadEscape([c] + rest) == Some((['\t'], rest))
    ensures c == 'b' ==> ReadEscape([c] + rest) == Some(([8 as char], rest))
    ensures c == 'f' ==> ReadEscape([c] + rest) == Some(([12 as char], rest))
    ensures c !in {'"', '\\', '/', 'n', 'r', 't', 'b', 'f', 'u'} ==> ReadEscape([c] + rest).None?
  {
    var s := [c] + rest;
    assert s[0] == c && s[1..] == rest;
  }

  /** Of escapes with four digits exactly NUL and the surrogates are refused, and they are
      also where the digits follow a capital U. */
  lemma ForbiddenMeans(b: string, i: nat, v: nat)
    requires i + 5 < |b| && Hex4(b[i + 2..i + 6], v)
    ensures ForbiddenAt(b, i) <==> b[i] == '\\' && (b[i + 1] == 'u' || b[i + 1] == 'U') && (v == 0 || 0xD800 <= v < 0xE000)
  {
    var h := b[i + 2..i + 6];
    assert h == [b[i + 2], b[i + 3], b[i + 4], b[i + 5]];
    assert h == "0000" <==> h[0] == '0' && h[1] == '0' && h[2] == '0' && h[3] == '0';
    DigitRanges(h[0], v / 4096);
    DigitRanges(h[1], v / 256 % 16);
    DigitRanges(h[2], v / 16 % 16);
    DigitRanges(h[3], v % 16);
    hide HexDigit;
    Surrogates(v);
  }

  lemma DigitRanges(c: char, d: nat)
    requires HexDigit(c, d)
    ensures c == '0' <==> d == 0
    ensures c == 'd' || c == 'D' <==> d == 13
    ensures c == '8' || c == '9' || 'a' <= c <= 'f' || 'A' <= c <= 'F' <==> d >= 8
  {}

  lemma Surrogates(v: nat)
    ensures v / 4096 == 13 && v / 256 % 16 >= 8 <==> 0xD800 <= v < 0xE000
    ensures v / 4096 == 0 && v / 256 % 16 == 0 && v / 16 % 16 == 0 && v % 16 == 0 <==> v == 0
  {
    Nibbles(v);
    assert v / 256 == v / 4096 * 16 + v / 256 % 16 && v == v / 256 * 256 + v % 256;
  }

  // ---- no text of an accepted cursor smuggles in a NUL or ill-formed bytes ----

  lemma ForbiddenTail(s: string, n: nat)
    requires !Forbidden(s) && n <= |s|
    ensures !Forbidden(s[n..])
  {
    var t := s[n..];
    forall i | 0 <= i < |t| - 5 ensures !ForbiddenAt(t, i) {
      assert t[i + 2..i + 6] == s[n + i + 2..n + i + 6];
      assert !ForbiddenAt(s, n + i);
    }
  }

  /** The text and the rest are both sound. */
  ghost predicate Sound(r: (string, string)) { Utf8Valid(r.0) && !HasNul(r.0) && Utf8Valid(r.1) && !Forbidden(r.1) }

  /** Ends where a character ends. */
  ghost predicate Whole(x: string) { forall t :: Utf8Valid(x + t) == Utf8Valid(t) }

  /** What an escape yields in text that passed the escape check. */
  lemma EscapeSafe(s: string)
    requires s != "" && s[0] == '\\' && !Forbidden(s) && Utf8Valid(s) && ReadEscape(s[1..]).Some?
    ensures Sound(ReadEscape(s[1..]).value) && Whole(ReadEscape(s[1..]).value.0)
  {
    var q := s[1..];
    assert Utf8Valid(q);
    ForbiddenTail(s, 1);
    ForbiddenTail(q, 1);
    if q[0] == 'u' {
      hide Sound, Whole, Utf8Valid, Forbidden, ReadEscape;
      HexEscapeSafe(s);
    } else {
      assert Utf8Valid(q[1..]);
      var c := ReadEscape(q).value.0;
      assert |c| == 1 && 0 < c[0] as int < 0x80 && ReadEscape(q).value.1 == q[1..];
      hide Forbidden, Whole, ReadEscape, Utf8Valid;
      AsciiWhole(c);
    }
  }

  lemma AsciiWhole(c: string)
    requires |c| == 1 && 0 < c[0] as int < 0x80
    ensures Utf8Valid(c) && !HasNul(c) && Whole(c)
  {
    forall t ensures Utf8Valid(c + t) == Utf8Valid(t) { assert (c + t)[1..] == t; }
    assert c[1..] == "";
  }

  lemma HexEscapeSafe(s: string)
    requires |s| >= 2 && s[0] == '\\' && s[1] == 'u' && !Forbidden(s) && Utf8Valid(s) && ReadEscape(s[1..]).Some?
    ensures Sound(ReadEscape(s[1..]).value) && Whole(ReadEscape(s[1..]).value.0)
  {
    hide ReadEscape, Hex4, Forbidden, Utf8Valid, Utf8, Whole, HasNul;
    var v := EscapedValue(s);
    AsciiTail(s, 6);
    ForbiddenTail(s, 6);
    HexValueFree(s, v);
    SoundBytes(v);
  }

  lemma HexValueFree(s: string, v: nat)
    requires |s| >= 6 && s[0] == '\\' && s[1] == 'u' && !Forbidden(s) && Hex4(s[2..6], v)
    ensures 0 < v && v < 0x10000 && Scalar(v)
  {
    assert !ForbiddenAt(s, 0);
    assert v < 0x10000;
    hide Forbidden, ForbiddenAt, Hex4;
    assert s[0 + 2..0 + 6] == s[2..6];
    ForbiddenMeans(s, 0, v);
  }

  lemma SoundBytes(v: nat)
    requires 0 < v < 0x10000 && Scalar(v)
    ensures Utf8Valid(Utf8(v)) && !HasNul(Utf8(v)) && Whole(Utf8(v))
  {
    assert Bytes(v) == Utf8(v);
    assert !HasNul(Utf8(v));
    hide Utf8, Bytes;
    forall t ensures Utf8Valid(Utf8(v) + t) == Utf8Valid(t) { Head(v, t); }
    assert Utf8(v) + "" == Utf8(v);
  }

  lemma EscapedValue(s: string) returns (v: nat)
    requires |s| >= 2 && s[0] == '\\' && s[1] == 'u' && ReadEscape(s[1..]).Some?
    ensures |s| >= 6 && v < 0x10000 && Hex4(s[2..6], v) && ReadEscape(s[1..]).value == (Utf8(v), s[6..])
    ensures forall i :: 0 <= i < 6 ==> (s[i] as int) < 0x80
  {
    var q := s[1..];
    HexThere(s);
    var a, b, c, d := Hex(s[2]).value, Hex(s[3]).value, Hex(s[4]).value, Hex(s[5]).value;
    v := a * 4096 + b * 256 + c * 16 + d;
    hide Hex, Utf8, HexDigit;
    ReadsHex(q, a, b, c, d, v);
    NibblesApart(a, b, c, d);
    HexIs(s[2], a);
    HexIs(s[3], b);
    HexIs(s[4], c);
    HexIs(s[5], d);
    hide ReadEscape;
    assert s[2..6] == [s[2], s[3], s[4], s[5]];
  }

  lemma HexThere(s: string)
    requires |s| >= 2 && s[1] == 'u' && ReadEscape(s[1..]).Some?
    ensures |s| >= 6 && Hex(s[2]).Some? && Hex(s[3]).Some? && Hex(s[4]).Some? && Hex(s[5]).Some?
    ensures (s[2] as int) < 0x80 && (s[3] as int) < 0x80 && (s[4] as int) < 0x80 && (s[5] as int) < 0x80
    ensures var q := s[1..]; q[0] == 'u' && q[1] == s[2] && q[2] == s[3] && q[3] == s[4] && q[4] == s[5] && q[5..] == s[6..]
  {
    var q := s[1..];
    assert |q| >= 5;
    hide Utf8;
  }

  /** Past bytes that are all ASCII, well-formed text stays well formed. */
  lemma {:induction false} AsciiTail(s: string, n: nat)
    requires Utf8Valid(s) && n <= |s| && forall i :: 0 <= i < n ==> (s[i] as int) < 0x80
    ensures Utf8Valid(s[n..])
  {
    if n > 0 {
      AsciiTail(s[1..], n - 1);
      assert s[1..][n - 1..] == s[n..];
    }
  }

  lemma HasNulJoin(a: string, b: string)
    ensures HasNul(a + b) <==> HasNul(a) || HasNul(b)
  {
    if HasNul(a) { var i :| 0 <= i < |a| && a[i] as int == 0; assert (a + b)[i] as int == 0; }
    if HasNul(b) { var i :| 0 <= i < |b| && b[i] as int == 0; assert (a + b)[|a| + i] as int == 0; }
  }

  /** Reading passes over a byte that is neither a quote, a backslash nor a control. */
  lemma PassByte(s: string)
    requires s != "" && s[0] >= ' ' && s[0] != '"' && s[0] != '\\' && ReadString(s).Some?
    ensures ReadString(s[1..]).Some?
    ensures ReadString(s).value == ([s[0]] + ReadString(s[1..]).value.0, ReadString(s[1..]).value.1)
  {}

  lemma {:induction false} PassBytes(s: string, n: nat)
    requires n <= |s| && ReadString(s).Some? && forall i :: 0 <= i < n ==> s[i] >= ' ' && s[i] != '"' && s[i] != '\\'
    ensures ReadString(s[n..]).Some?
    ensures ReadString(s).value == (s[..n] + ReadString(s[n..]).value.0, ReadString(s[n..]).value.1)
    decreases n
  {
    hide ReadString;
    if n == 0 {
      assert s[0..] == s && s[..0] + ReadString(s).value.0 == ReadString(s).value.0;
    } else {
      PassByte(s);
      PassBytes(s[1..], n - 1);
      assert s[1..][n - 1..] == s[n..] && s[..n] == [s[0]] + s[1..][..n - 1];
      assert s[..n] + ReadString(s[n..]).value.0 == [s[0]] + (s[1..][..n - 1] + ReadString(s[n..]).value.0);
    }
  }

  lemma {:induction false} StringSound(s: string)
    requires Utf8Valid(s) && !HasNul(s) && !Forbidden(s) && ReadString(s).Some?
    ensures Sound(ReadString(s).value) && !HasNul(ReadString(s).value.1)
    decreases |s|
  {
    if s[0] == '"' {
      AsciiTail(s, 1);
      ForbiddenTail(s, 1);
    } else if s[0] == '\\' {
      EscapeStringSound(s);
    } else {
      var p := Leads(s);
      var n := |Bytes(p)|;
      assert s[..n] == Bytes(p);
      assert n > 0 && forall i :: 0 <= i < n ==> s[i] >= ' ' && s[i] != '"' && s[i] != '\\';
      hide Utf8Valid, Bytes, ReadString, Forbidden, HasNul;
      PassBytes(s, n);
      ForbiddenTail(s, n);
      assert s == s[..n] + s[n..];
      HasNulJoin(s[..n], s[n..]);
      StringSound(s[n..]);
      HasNulJoin(s[..n], ReadString(s[n..]).value.0);
      Head(p, ReadString(s[n..]).value.0);
    }
  }

  lemma {:induction false} EscapeStringSound(s: string)
    requires s != "" && s[0] == '\\' && Utf8Valid(s) && !HasNul(s) && !Forbidden(s) && ReadString(s).Some?
    ensures Sound(ReadString(s).value) && !HasNul(ReadString(s).value.1)
    decreases |s|, 0
  {
    var h := ReadEscape(s[1..]).value;
    assert ReadString(s).value == (h.0 + ReadString(h.1).value.0, ReadString(h.1).value.1);
    EscapeSafe(s);
    EscapeRest(s);
    assert Utf8Valid(h.0 + ReadString(h.1).value.0) == Utf8Valid(ReadString(h.1).value.0);
    hide Utf8Valid, ReadString, ReadEscape, Forbidden, HasNul, Whole;
    StringSound(h.1);
    HasNulJoin(h.0, ReadString(h.1).value.0);
  }

  lemma EscapeRest(s: string)
    requires s != "" && ReadEscape(s[1..]).Some? && !HasNul(s)
    ensures !HasNul(ReadEscape(s[1..]).value.1) && |ReadEscape(s[1..]).value.1| < |s|
  {
    var q := s[1..];
    var r := ReadEscape(q).value.1;
    var n := |s| - |r|;
    assert r == s[n..] by { if q[0] == 'u' { assert q[5..] == s[6..]; } else { assert q[1..] == s[2..]; } }
    forall i | 0 <= i < |r| ensures r[i] as int != 0 { assert r[i] == s[n + i]; }
  }

  /** Every string in what decodeCursorBytes hands out, wherever a character starts, reads as
      well-formed UTF-8 without NUL, however it is escaped. */
  lemma AcceptedStringsAreSound(cursor: string, b: string, i: nat)
    requires Unpack(cursor) == Some(b) && i <= |b| && Utf8Valid(b[i..]) && ReadString(b[i..]).Some?
    ensures var text := ReadString(b[i..]).value.0; Utf8Valid(text) && !HasNul(text)
  {
    assert !Forbidden(b) && !HasNul(b);
    hide Unpack, Utf8Valid, ReadString, Forbidden;
    ForbiddenTail(b, i);
    assert !HasNul(b[i..]) by { assert b == b[..i] + b[i..]; HasNulJoin(b[..i], b[i..]); }
    StringSound(b[i..]);
  }

  // ---- identities in cursors ----

  /** A relationship cursor joins a gateway to a sensor of that gateway. */
  lemma LinkedMeans(source: string, target: string)
    ensures Linked(source, target) <==> exists g, x :: ValidGatewayId(g) && ValidId(x) && source == Print(G.GatewayUrn(g)) && target == Print(G.SensorUrn(g, x))
  {
    hide Parse, Print, ValidId, ValidGatewayId;
    if Linked(source, target) {
      var u, v := Parse(source).value, Parse(target).value;
      ParseExact(source, u);
      ParseExact(target, v);
      assert u == G.GatewayUrn(u.g) && v == G.SensorUrn(u.g, v.s);
    }
    if g, x :| ValidGatewayId(g) && ValidId(x) && source == Print(G.GatewayUrn(g)) && target == Print(G.SensorUrn(g, x)) {
      ParseExact(source, G.GatewayUrn(g));
      ParseExact(target, G.SensorUrn(g, x));
    }
  }

  /** A list cursor names an entity the filters admit: of the gateway and of the type they
      ask for, where they ask. */
  lemma MatchesMeans(k: string, gateway: Option<string>, kind: Option<string>)
    ensures EncodeList(k, gateway, kind).Some? <==> exists u ::
      && ValidUrn(u) && k == Print(u)
      && (gateway.Some? ==> u.g == gateway.value)
      && (kind.Some? ==> kind.value == if u.GatewayUrn? then "Gateway" else "Sensor")
  {
    ListRoundTrip(k, gateway, kind);
    hide EncodeList, DecodeList, ParseList, Parse, Print, ValidUrn;
    if Parse(k).Some? { ParseExact(k, Parse(k).value); }
    if u :| ValidUrn(u) && k == Print(u) && (gateway.Some? ==> u.g == gateway.value) && (kind.Some? ==> kind.value == if u.GatewayUrn? then "Gateway" else "Sensor") {
      ParseExact(k, u);
    }
  }

  /** Strings one after the other. */
  ghost function Glue(parts: seq<string>): string { if parts == [] then "" else parts[0] + Glue(parts[1..]) }

  lemma GlueSeven(a: string, b: string, c: string, d: string, e: string, f: string, g: string)
    ensures Glue([a, b, c, d, e, f, g]) == a + (b + (c + (d + (e + (f + g)))))
  {
    hide Glue;
    GlueThree(e, f, g);
    GlueCons(d, [e, f, g]);
    GlueCons(c, [d, e, f, g]);
    GlueCons(b, [c, d, e, f, g]);
    GlueCons(a, [b, c, d, e, f, g]);
    assert [d] + [e, f, g] == [d, e, f, g] && [c] + [d, e, f, g] == [c, d, e, f, g];
    assert [b] + [c, d, e, f, g] == [b, c, d, e, f, g] && [a] + [b, c, d, e, f, g] == [a, b, c, d, e, f, g];
  }

  lemma GlueCons(a: string, rest: seq<string>)
    ensures Glue([a] + rest) == a + Glue(rest)
  {
    assert ([a] + rest)[1..] == rest;
  }

  lemma GlueThree(a: string, b: string, c: string)
    ensures Glue([a, b, c]) == a + (b + c)
  {
    assert [a, b, c][1..] == [b, c] && [b, c][1..] == [c] && [c][1..] == [];
    assert Glue([c]) == c + "" == c;
  }

  lemma PairText(key: string, v: Value, rest: string)
    ensures ShowPair(key, v, rest) == ("\"" + key + "\":") + (Show(v) + rest)
  {
    hide Show;
  }

  lemma ThreeShown(a: (string, Value), b: (string, Value), c: (string, Value))
    ensures ShowObject([a, b, c]) == "{" + ShowPair(a.0, a.1, "," + ShowPair(b.0, b.1, "," + ShowPair(c.0, c.1, "}")))
  {
    hide ShowPair;
    assert [a, b, c][1..] == [b, c] && [b, c][1..] == [c] && [c][1..] == [];
    assert ShowMembers([c], false) == "," + ShowPair(c.0, c.1, "}");
    assert ShowMembers([b, c], false) == "," + ShowPair(b.0, b.1, "," + ShowPair(c.0, c.1, "}"));
  }

  /** `{"a":` x `,"b":` y `,"c":` z `}` */
  lemma ObjectText(a: (string, Value), b: (string, Value), c: (string, Value))
    ensures ShowObject([a, b, c]) ==
      Glue(["{\"" + a.0 + "\":", Show(a.1), ",\"" + b.0 + "\":", Show(b.1), ",\"" + c.0 + "\":", Show(c.1), "}"])
  {
    ThreeShown(a, b, c);
    var x, y, z := Show(a.1), Show(b.1), Show(c.1);
    var pc := ShowPair(c.0, c.1, "}");
    var pb := ShowPair(b.0, b.1, "," + pc);
    PairText(a.0, a.1, "," + pb);
    PairText(b.0, b.1, "," + pc);
    PairText(c.0, c.1, "}");
    GlueSeven("{\"" + a.0 + "\":", x, ",\"" + b.0 + "\":", y, ",\"" + c.0 + "\":", z, "}");
    hide ShowPair, Show, ShowObject, Glue;
    Comma(c.0, z + "}");
    Comma(b.0, y + ("," + pc));
    Brace(a.0, x + ("," + pb));
  }

  lemma Comma(key: string, rest: string)
    ensures "," + (("\"" + key + "\":") + rest) == (",\"" + key + "\":") + rest
  {}

  lemma Brace(key: string, rest: string)
    ensures "{" + (("\"" + key + "\":") + rest) == ("{\"" + key + "\":") + rest
  {}

  /** The canonical object inside a list cursor. */
  lemma ListText(k: string, gateway: Option<string>, kind: Option<string>)
    requires EncodeList(k, gateway, kind).Some?
    ensures var text := Glue(["{\"k\":", "\"" + k + "\"", ",\"g\":", if gateway.Some? then "\"" + gateway.value + "\"" else "null",
                              ",\"t\":", if kind.Some? then "\"" + kind.value + "\"" else "null", "}"]);
      B.IsBytes(text) && EncodeList(k, gateway, kind) == Some("v1." + B.Encode(text))
  {
    var ps := ListMembers(k, gateway, kind);
    ListFits(k, gateway, kind);
    hide Parse, Matches, B.IsBytes, B.Encode, Fresh, ShownSize, Glue, ShowObject;
    ObjectText(ps[0], ps[1], ps[2]);
    assert "{\"" + "k" + "\":" == "{\"k\":" && ",\"" + "g" + "\":" == ",\"g\":" && ",\"" + "t" + "\":" == ",\"t\":";
  }

  /** The canonical object inside a relationship cursor. */
  lemma RelationText(source: string, target: string)
    requires EncodeRelation(source, HAS_SENSOR, target).Some?
    ensures var text := Glue(["{\"s\":", "\"" + source + "\"", ",\"r\":", "\"hasSensor\"", ",\"k\":", "\"" + target + "\"", "}"]);
      B.IsBytes(text) && EncodeRelation(source, HAS_SENSOR, target) == Some("v1." + B.Encode(text))
  {
    var ps := RelationMembers(source, target);
    RelationFits(source, target);
    hide Linked, B.IsBytes, B.Encode, Fresh, ShownSize, Glue, ShowObject, RelationMembers;
    assert ps == [("s", Text(source)), ("r", Text(HAS_SENSOR)), ("k", Text(target))];
    ObjectText(ps[0], ps[1], ps[2]);
    RelationKeys();
  }

  lemma RelationKeys()
    ensures "{\"" + "s" + "\":" == "{\"s\":" && ",\"" + "r" + "\":" == ",\"r\":" && ",\"" + "k" + "\":" == ",\"k\":"
    ensures Show(Text(HAS_SENSOR)) == "\"hasSensor\""
  {}

  ghost function Repeat(n: nat): string { seq(n, i => 'a') }

  /** Which ids name a gateway: 1 to 64 letters, digits, underscores and hyphens, not led by
      a mark, and not the one name kept for the backend, which only gateways are denied. */
  lemma KnownIds()
    ensures ValidGatewayId("gw1") && ValidGatewayId("GW-01_a") && ValidGatewayId("9") && ValidGatewayId(Repeat(64))
    ensures !ValidGatewayId("") && !ValidGatewayId("_gw") && !ValidGatewayId("-gw") && !ValidGatewayId("gw.1") && !ValidGatewayId("gw 1") && !ValidGatewayId(Repeat(65))
    ensures ValidId("backend_service") && !ValidGatewayId("backend_service")
  {
    assert "gw.1"[2] == '.' && "gw 1"[2] == ' ';
  }

  lemma KnownUrns()
    ensures Parse("urn:ngsi-ld:Gateway:gw1") == Some(G.GatewayUrn("gw1"))
    ensures Parse("urn:ngsi-ld:Sensor:gw1:s1") == Some(G.SensorUrn("gw1", "s1"))
    ensures Parse("urn:ngsi-ld:Gateway:backend_service").None? && Parse("urn:ngsi-ld:Sensor:backend_service:s1").None?
    ensures Parse("urn:ngsi-ld:Sensor:gw1:backend_service") == Some(G.SensorUrn("gw1", "backend_service"))
  {
    hide Parse;
    KnownIds();
    KnownSensorIds();
    hide ValidId, ValidGatewayId;
    GatewayReads("gw1", "urn:ngsi-ld:Gateway:gw1");
    KnownSensors();
    KnownReserved();
  }

  lemma KnownSensors()
    requires ValidGatewayId("gw1") && ValidId("s1") && ValidId("backend_service")
    ensures Parse("urn:ngsi-ld:Sensor:gw1:s1") == Some(G.SensorUrn("gw1", "s1"))
    ensures Parse("urn:ngsi-ld:Sensor:gw1:backend_service") == Some(G.SensorUrn("gw1", "backend_service"))
  {
    hide ValidId, ValidGatewayId, Parse;
    SensorReads("gw1", "s1", "urn:ngsi-ld:Sensor:gw1:s1");
    SensorReads("gw1", "backend_service", "urn:ngsi-ld:Sensor:gw1:backend_service");
  }

  lemma GatewayReads(g: string, raw: string)
    requires ValidGatewayId(g) && |raw| == 20 + |g| && raw[..20] == "urn:ngsi-ld:Gateway:" && raw[20..] == g
    ensures Parse(raw) == Some(G.GatewayUrn(g))
  {
    hide ValidId, Parse;
    assert raw == raw[..20] + raw[20..];
    ParseExact(raw, G.GatewayUrn(g));
  }

  lemma SensorReads(g: string, x: string, raw: string)
    requires ValidGatewayId(g) && ValidId(x) && raw == "urn:ngsi-ld:Sensor:" + g + ":" + x
    ensures Parse(raw) == Some(G.SensorUrn(g, x))
  {
    hide ValidId, Parse;
    ParseExact(raw, G.SensorUrn(g, x));
  }

  lemma KnownReserved()
    ensures Parse("urn:ngsi-ld:Gateway:backend_service").None? && Parse("urn:ngsi-ld:Sensor:backend_service:s1").None?
  {
    hide Parse;
    var a, b := "urn:ngsi-ld:Gateway:backend_service", "urn:ngsi-ld:Sensor:backend_service:s1";
    ReservedGateway("s1");
    assert a == GATEWAY_PREFIX + "backend_service" && b == SENSOR_PREFIX + ("backend_service" + ":" + "s1");
  }

  lemma KnownSensorIds()
    ensures ValidId("s1")
  {}

  lemma ReservedGateway(x: string)
    ensures Parse(GATEWAY_PREFIX + "backend_service").None? && Parse(SENSOR_PREFIX + ("backend_service" + ":" + x)).None?
  {
    var a, b := GATEWAY_PREFIX + "backend_service", SENSOR_PREFIX + ("backend_service" + ":" + x);
    assert a[..|GATEWAY_PREFIX|] == GATEWAY_PREFIX && a[|GATEWAY_PREFIX|..] == "backend_service";
    assert b[..|SENSOR_PREFIX|] == SENSOR_PREFIX && b[|SENSOR_PREFIX|..] == "backend_service" + [':'] + x;
    PrefixesDiffer("backend_service" + ":" + x);
    T.SplitHead("backend_service", x, ':');
    hide ValidId, T.Split;
  }

  // ---- what a decoder takes ----

  lemma KeysPlain()
    ensures Plain("s") && Plain("r") && Plain("k") && Plain("g") && Plain("t")
  {}

  /** Whatever three plain texts stand under the keys of a relationship cursor, it decodes
      exactly if they are a gateway, `hasSensor` and a sensor of that gateway. */
  lemma RelationDecodesExactly(source: string, rel: string, target: string)
    requires Plain(source) && Plain(rel) && Plain(target) && |source| + |rel| + |target| <= 480
    ensures var text := ShowObject([("s", Text(source)), ("r", Text(rel)), ("k", Text(target))]);
      && B.IsBytes(text) && Pack(text).Some?
      && (DecodeRelation(Pack(text).value).Some? <==> rel == "hasSensor" && Linked(source, target))
  {
    var a, b, c := ("s", Text(source)), ("r", Text(rel)), ("k", Text(target));
    KeysPlain();
    hide Plain, Linked, Pack, Unpack, ReadObject, ShowObject, B.IsBytes, ShownSize, Fresh;
    FreshThree(RELATION_SHAPE, a, b, c);
    ThreeSize(a, b, c);
    ObjectRoundTrip(RELATION_SHAPE, [a, b, c]);
    ThreeMembers(a, b, c);
  }

  /** The same of a list cursor: an entity's URN, a gateway or null, a type or null. */
  lemma ListDecodesExactly(k: string, gateway: Option<string>, kind: Option<string>)
    requires Plain(k) && (gateway.Some? ==> Plain(gateway.value)) && (kind.Some? ==> Plain(kind.value))
    requires |k| + |Show(OrNull(gateway))| + |Show(OrNull(kind))| <= 480
    ensures var text := ShowObject([("k", Text(k)), ("g", OrNull(gateway)), ("t", OrNull(kind))]);
      && B.IsBytes(text) && Pack(text).Some?
      && (DecodeList(Pack(text).value).Some? <==> Parse(k).Some? && (kind.None? || kind.value == "Gateway" || kind.value == "Sensor"))
  {
    var a, b, c := ("k", Text(k)), ("g", OrNull(gateway)), ("t", OrNull(kind));
    KeysPlain();
    hide Plain, Parse, Pack, Unpack, ReadObject, ShowObject, B.IsBytes, ShownSize, Fresh;
    FreshThree(LIST_SHAPE, a, b, c);
    ThreeSize(a, b, c);
    ObjectRoundTrip(LIST_SHAPE, [a, b, c]);
    ThreeMembers(a, b, c);
  }

  lemma ThreeSize(a: (string, Value), b: (string, Value), c: (string, Value))
    requires |a.0| == |b.0| == |c.0| == 1 && |Show(a.1)| + |Show(b.1)| + |Show(c.1)| <= 490
    ensures ShownSize([a, b, c]) < 512
  {
    hide Show;
    assert [a, b, c][1..] == [b, c] && [b, c][1..] == [c] && [c][1..] == [];
    assert ShownSize([c]) == |c.0| + |Show(c.1)| + 4 + ShownSize([]);
    assert ShownSize([b, c]) == |b.0| + |Show(b.1)| + 4 + ShownSize([c]);
  }

  /** Line breaks a client adds are skipped, as long as the whole stays within the cap of 768
      bytes on what is sent; past it the same cursor is refused. */
  lemma LineBreaksAreSkipped(text: string, breaks: string)
    requires Packable(text) && B.LineBreaks(breaks)
    ensures Pack(text).Some?
    ensures Unpack(Pack(text).value + breaks) == if |Pack(text).value| + |breaks| <= 768 then Some(text) else None
  {
    UnpackPack(text);
    var cursor := Pack(text).value;
    var encoded := B.Encode(text);
    assert cursor == VERSION + encoded;
    assert (cursor + breaks)[..|VERSION|] == VERSION && (cursor + breaks)[|VERSION|..] == encoded + breaks && cursor[|VERSION|..] == encoded;
    EncodedHasNoPad(text);
    assert '=' !in encoded + breaks;
    B.EncodedLength(text);
    B.DecodeBreaks(encoded, breaks);
    hide B.Encode, B.Decode, Utf8Valid, Forbidden, HasNul;
  }
}
