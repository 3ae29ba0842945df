/** base64url without padding (section 5 of RFC 4648), as encoding/base64 does it: the
    decoder skips line breaks and ignores the unused low bits of the last digit. */
module Base64 {
  import opened Wrappers
  import opened Text

  predicate IsBytes(s: string) { forall i :: 0 <= i < |s| ==> (s[i] as int) < 256 }

  /** The 64 digits, in order. */
  function Digit(d: nat): char
    requires d < 64
  {
    if d < 26 then ('A' as int + d) as char
    else if d < 52 then ('a' as int + d - 26) as char
    else if d < 62 then ('0' as int + d - 52) as char
    else if d == 62 then '-' else '_'
  }

  function Value(c: char): (r: Option<nat>)
    ensures r.Some? ==> r.value < 64
  {
    if 'A' <= c <= 'Z' then Some(c as int - 'A' as int)
    else if 'a' <= c <= 'z' then Some(c as int - 'a' as int + 26)
    else if '0' <= c <= '9' then Some(c as int - '0' as int + 52)
    else if c == '-' then Some(62)
    else if c == '_' then Some(63)
    else None
  }

  lemma ValueDigit(d: nat)
    requires d < 64
    ensures Value(Digit(d)) == Some(d) && Digit(d) != '\r' && Digit(d) != '\n'
  {}

  /** Every three bytes as four 6-bit groups, most significant first; a rest of one or two
      bytes as two or three groups, filled up with zero bits. */
  function Sextets(s: string): (v: seq<nat>)
    requires IsBytes(s)
    ensures forall i :: 0 <= i < |v| ==> v[i] < 64
  {
    if s == "" then []
    else
      var a := s[0] as int;
      if |s| == 1 then [a / 4, a % 4 * 16]
      else
        var b := s[1] as int;
        if |s| == 2 then [a / 4, a % 4 * 16 + b / 16, b % 16 * 4]
        else
          var c := s[2] as int;
          [a / 4, a % 4 * 16 + b / 16, b % 16 * 4 + c / 64, c % 64] + Sextets(s[3..])
  }

  function Write(v: seq<nat>): (r: string)
    requires forall i :: 0 <= i < |v| ==> v[i] < 64
    ensures |r| == |v|
  {
    if v == [] then "" else [Digit(v[0])] + Write(v[1..])
  }

  function Encode(s: string): string
    requires IsBytes(s)
  {
    Write(Sextets(s))
  }

  /** One to three bytes from two to four digits; a single digit left over is an error. */
  function DecodeDigits(v: seq<nat>): (r: Option<string>)
    requires forall i :: 0 <= i < |v| ==> v[i] < 64
    decreases |v|
  {
    if |v| == 0 then Some("")
    else if |v| == 1 then None
    else
      var a := Byte(v[0] * 4 + v[1] / 16);
      if |v| == 2 then Some([a])
      else
        var b := Byte(v[1] % 16 * 16 + v[2] / 4);
        if |v| == 3 then Some([a, b])
        else
          var c := Byte(v[2] % 4 * 64 + v[3]);
          var rest := DecodeDigits(v[4..]);
          if rest.None? then None else Some([a, b, c] + rest.value)
  }

  /** The values of the digits, line breaks skipped. */
  function Digits(s: string): (r: Option<seq<nat>>)
    ensures r.Some? ==> forall i :: 0 <= i < |r.value| ==> r.value[i] < 64
  {
    if s == "" then Some([])
    else if s[0] == '\r' || s[0] == '\n' then Digits(s[1..])
    else
      var d, rest := Value(s[0]), Digits(s[1..]);
      if d.None? || rest.None? then None else Some([d.value] + rest.value)
  }

  function Decode(s: string): Option<string> {
    var v := Digits(s);
    if v.None? then None else DecodeDigits(v.value)
  }

  lemma DigitsCons(c: char, s: string)
    requires Value(c).Some? && c != '\r' && c != '\n' && Digits(s).Some?
    ensures Digits([c] + s) == Some([Value(c).value] + Digits(s).value)
  {
    hide Value;
    assert ([c] + s)[0] == c && ([c] + s)[1..] == s;
  }

  lemma {:induction false} DigitsWrite(v: seq<nat>)
    requires forall i :: 0 <= i < |v| ==> v[i] < 64
    ensures Digits(Write(v)) == Some(v)
  {
    hide Digit, Value, Digits;
    if v == [] {
      NoDigits();
    } else {
      DigitsWrite(v[1..]);
      ValueDigit(v[0]);
      DigitsCons(Digit(v[0]), Write(v[1..]));
      assert v == [v[0]] + v[1..];
    }
  }

  lemma NoDigits()
    ensures Digits("") == Some([])
  {}

  lemma Triple(a: nat, b: nat, c: nat)
    requires a < 256 && b < 256 && c < 256
    ensures a / 4 * 4 + (a % 4 * 16 + b / 16) / 16 == a
    ensures (a % 4 * 16 + b / 16) % 16 * 16 + (b % 16 * 4 + c / 64) / 4 == b
    ensures (b % 16 * 4 + c / 64) % 4 * 64 + c % 64 == c
  {}

  lemma {:induction false} DecodeSextets(s: string)
    requires IsBytes(s)
    ensures DecodeDigits(Sextets(s)) == Some(s)
  {
    if s != "" {
      var a := s[0] as int;
      if |s| == 1 {
        Triple(a, 0, 0);
        assert s == [s[0]];
      } else {
        var b := s[1] as int;
        if |s| == 2 {
          Triple(a, b, 0);
          assert s == [s[0], s[1]];
        } else {
          Triple(a, b, s[2] as int);
          DecodeSextets(s[3..]);
          assert Sextets(s)[4..] == Sextets(s[3..]);
          assert s == [s[0], s[1], s[2]] + s[3..];
        }
      }
    }
  }

  /** Decoding undoes encoding, for every byte string. */
  lemma DecodeEncode(s: string)
    requires IsBytes(s)
    ensures Decode(Encode(s)) == Some(s)
  {
    DigitsWrite(Sextets(s));
    DecodeSextets(s);
  }

  /** Four digits for every three bytes, rounded up. */
  lemma {:induction false} EncodedLength(s: string)
    requires IsBytes(s)
    ensures |Encode(s)| == (4 * |s| + 2) / 3
  {
    if |s| > 2 { EncodedLength(s[3..]); }
  }

  lemma {:induction false} WrittenDigits(v: seq<nat>)
    requires forall i :: 0 <= i < |v| ==> v[i] < 64
    ensures forall i :: 0 <= i < |Write(v)| ==> Value(Write(v)[i]).Some?
  {
    if v != [] {
      ValueDigit(v[0]);
      WrittenDigits(v[1..]);
    }
  }

  predicate LineBreaks(s: string) { forall i :: 0 <= i < |s| ==> s[i] == '\r' || s[i] == '\n' }

  lemma {:induction false} DigitsBreaks(s: string, breaks: string)
    requires LineBreaks(breaks)
    ensures Digits(s + breaks) == Digits(s)
    decreases |s|, |breaks|
  {
    hide Value;
    if s != "" {
      DigitsBreaks(s[1..], breaks);
      assert (s + breaks)[0] == s[0] && (s + breaks)[1..] == s[1..] + breaks;
    } else if breaks != "" {
      assert s + breaks == breaks && breaks[1..] == "" + breaks[1..];
      DigitsBreaks("", breaks[1..]);
    } else {
      assert s + breaks == s;
    }
  }

  /** Line breaks after the digits change nothing. */
  lemma DecodeBreaks(s: string, breaks: string)
    requires LineBreaks(breaks)
    ensures Decode(s + breaks) == Decode(s)
  {
    DigitsBreaks(s, breaks);
  }

  /** Any number of digits decodes but one that leaves a single digit over, to three bytes for
      every four digits, rounded down. */
  lemma {:induction false} DecodedLength(v: seq<nat>)
    requires forall i :: 0 <= i < |v| ==> v[i] < 64
    ensures DecodeDigits(v).Some? <==> |v| % 4 != 1
    ensures DecodeDigits(v).Some? ==> |DecodeDigits(v).value| == 3 * |v| / 4
    decreases |v|
  {
    if |v| >= 4 {
      DecodedLength(v[4..]);
      assert 3 * |v| / 4 == 3 + 3 * (|v| - 4) / 4 && |v| % 4 == (|v| - 4) % 4;
    }
    hide Byte;
  }

  // ---- the alphabet and the bits, against the standard ----

  /** The URL-safe alphabet of section 5 of RFC 4648: A to Z, a to z and 0 to 9, each run in
      order, then the hyphen and the underscore. */
  lemma AlphabetIs(d: nat)
    ensures Digit(0) == 'A' && Digit(25) == 'Z' && Digit(26) == 'a' && Digit(51) == 'z'
    ensures Digit(52) == '0' && Digit(61) == '9' && Digit(62) == '-' && Digit(63) == '_'
    ensures d < 61 && d != 25 && d != 51 ==> Digit(d + 1) as int == Digit(d) as int + 1
  {}

  /** Exactly the digits decode, each to its own value. */
  lemma ValueIs(c: char)
    ensures Value(c).Some? ==> Digit(Value(c).value) == c
    ensures Value(c).None? ==> forall d: nat :: d < 64 ==> Digit(d) != c
  {}

  /** Four digits carry the 24 bits of three bytes in order; two or three digits at the end
      carry those of one or two bytes and zeros. */
  lemma GroupBits(s: string)
    requires IsBytes(s)
    ensures |s| == 1 ==> var v := Sextets(s); |v| == 2 && v[0] * 64 + v[1] == s[0] as int * 16
    ensures |s| == 2 ==> var v := Sextets(s); |v| == 3 && v[0] * 4096 + v[1] * 64 + v[2] == s[0] as int * 1024 + s[1] as int * 4
    ensures |s| >= 3 ==> var v := Sextets(s); |v| >= 4 && v[4..] == Sextets(s[3..])
    ensures |s| >= 3 ==> var v := Sextets(s); v[0] * 262144 + v[1] * 4096 + v[2] * 64 + v[3] == s[0] as int * 65536 + s[1] as int * 256 + s[2] as int
  {}

  lemma {:induction false} WriteAt(v: seq<nat>, i: nat)
    requires (forall j :: 0 <= j < |v| ==> v[j] < 64) && i < |v|
    ensures Write(v)[i] == Digit(v[i])
  {
    hide Digit;
    if i > 0 { WriteAt(v[1..], i - 1); }
  }

  lemma Vector(s: string, v: seq<nat>, text: string)
    requires IsBytes(s) && Sextets(s) == v && |text| == |v| && forall i :: 0 <= i < |v| ==> Digit(v[i]) == text[i]
    ensures Encode(s) == text
  {
    hide Digit, Write;
    forall i | 0 <= i < |v| ensures Encode(s)[i] == text[i] { WriteAt(v, i); }
  }

  /** The test vectors of section 10 of RFC 4648, without their padding. */
  lemma TestVectors()
    ensures Encode("f") == "Zg" && Encode("fo") == "Zm8" && Encode("foo") == "Zm9v"
    ensures Encode("foob") == "Zm9vYg" && Encode("fooba") == "Zm9vYmE" && Encode("foobar") == "Zm9vYmFy"
  {
    hide Encode, Write, Sextets;
    ShortVectors();
    LongVectors();
  }

  lemma ShortVectors()
    ensures Encode("f") == "Zg" && Encode("fo") == "Zm8" && Encode("foo") == "Zm9v"
  {
    hide Encode, Write;
    assert "foo"[3..] == "";
    Vector("f", [25, 32], "Zg");
    Vector("fo", [25, 38, 60], "Zm8");
    Vector("foo", [25, 38, 61, 47], "Zm9v");
  }

  lemma LongVectors()
    ensures Encode("foob") == "Zm9vYg" && Encode("fooba") == "Zm9vYmE" && Encode("foobar") == "Zm9vYmFy"
  {
    hide Encode, Write;
    assert "foobar"[3..] == "bar" && "fooba"[3..] == "ba" && "foob"[3..] == "b" && "bar"[3..] == "";
    Vector("foob", [25, 38, 61, 47, 24, 32], "Zm9vYg");
    Vector("fooba", [25, 38, 61, 47, 24, 38, 4], "Zm9vYmE");
    Vector("foobar", [25, 38, 61, 47, 24, 38, 5, 50], "Zm9vYmFy");
  }
}
