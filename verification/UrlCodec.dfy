/** Percent decoding, as `HttpRequest::urlDecode` does it, and its inverse. */
module UrlCodec {
  import opened Bytes

  predicate IsHex(c: char) {
    IsDigit(c) || 'a' <= c <= 'f' || 'A' <= c <= 'F'
  }

  function HexValue(c: char): (v: nat)
    requires IsHex(c)
    ensures v < 16
  {
    if IsDigit(c) then c as int - '0' as int
    else if 'a' <= c <= 'f' then c as int - 'a' as int + 10
    else c as int - 'A' as int + 10
  }

  /** `static_cast<char>(strtol({a, b}, nullptr, 16))`: white space and a sign may stand for the first
      digit, parsing stops at the first character that is no digit, and the result is one byte. */
  function HexByte(a: char, b: char): (c: char)
    ensures (c as int) < 256
    ensures IsHex(a) && IsHex(b) ==> c as int == 16 * HexValue(a) + HexValue(b)
  {
    var second := if IsHex(b) then HexValue(b) else 0;
    if IsHex(a) then (if IsHex(b) then 16 * HexValue(a) + second else HexValue(a)) as char
    else if IsSpace(a) || a == '+' then second as char
    else if a == '-' then ((256 - second) % 256) as char
    else 0 as char
  }

  function UrlDecode(s: Text): Text {
    if s == [] then []
    else if s[0] == '%' && 2 < |s| then [HexByte(s[1], s[2])] + UrlDecode(s[3..])
    else if s[0] == '+' then [' '] + UrlDecode(s[1..])
    else [s[0]] + UrlDecode(s[1..])
  }

  /** Decoding from index `i` on takes one escape or one character off. */
  lemma DecodeStep(done: Text, src: Text, i: nat)
    requires i < |src|
    ensures done + UrlDecode(src[i..]) ==
            if src[i] == '%' && i + 2 < |src| then done + [HexByte(src[i + 1], src[i + 2])] + UrlDecode(src[i + 3..])
            else done + [if src[i] == '+' then ' ' else src[i]] + UrlDecode(src[i + 1..])
  {
    var s := src[i..];
    assert s[0] == src[i] && s[1..] == src[i + 1..];
    if i + 2 < |src| {
      assert s[1] == src[i + 1] && s[2] == src[i + 2] && s[3..] == src[i + 3..];
    }
  }

  method UrlDecodeLoop(src: Text) returns (result: Text)
    ensures result == UrlDecode(src)
  {
    hide UrlDecode, HexByte;
    DecodeNothing();
    result := [];
    var i := 0;
    assert src[0..] == src;
    while i < |src|
      invariant 0 <= i <= |src|
      invariant result + UrlDecode(src[i..]) == UrlDecode(src)
    {
      DecodeStep(result, src, i);
      if src[i] == '%' && i + 2 < |src| {
        result := result + [HexByte(src[i + 1], src[i + 2])];
        i := i + 2;
      } else if src[i] == '+' {
        result := result + [' '];
      } else {
        result := result + [src[i]];
      }
      i := i + 1;
    }
    assert src[i..] == [];
  }

  lemma DecodeNothing()
    ensures UrlDecode([]) == []
  {
  }

  // ---------- any escape ----------

  const LOWER_DIGITS: Text := "0123456789abcdef"
  const UPPER_DIGITS: Text := "0123456789ABCDEF"

  lemma HexValueIs(v: nat)
    requires v < 16
    ensures IsHex(LOWER_DIGITS[v]) && HexValue(LOWER_DIGITS[v]) == v
    ensures IsHex(UPPER_DIGITS[v]) && HexValue(UPPER_DIGITS[v]) == v
  {
  }

  function HexNumber(s: Text): nat
    requires AllOf(s, IsHex)
  {
    if s == [] then 0 else 16 * HexNumber(s[..|s| - 1]) + HexValue(s[|s| - 1])
  }

  /** `strtol(s, nullptr, 16)` (section 7.22.1.4 of ISO/IEC 9899:2011) of a string too short for a prefix `0x`
      to have a digit after it. */
  function Strtol(s: Text): int
    requires |s| <= 2
  {
    var start := SpanEnd(s, 0, IsSpace);
    var signed := start < |s| && (s[start] == '+' || s[start] == '-');
    var from := if signed then start + 1 else start;
    var number := HexNumber(s[from..SpanEnd(s, from, IsHex)]);
    if signed && s[start] == '-' then -(number as int) else number
  }

  lemma NumberOfOne(a: char)
    requires IsHex(a)
    ensures AllOf([a], IsHex) && HexNumber([a]) == HexValue(a)
  {
    assert [a][..0] == [];
  }

  lemma NumberOfTwo(a: char, b: char)
    requires IsHex(a) && IsHex(b)
    ensures AllOf([a, b], IsHex) && HexNumber([a, b]) == 16 * HexValue(a) + HexValue(b)
  {
    NumberOfOne(a);
    assert [a, b][..1] == [a];
  }

  /** The byte of an escape is what the library reads from its two characters, digits or not. */
  lemma HexByteIsRead(a: char, b: char)
    ensures HexByte(a, b) as int == Strtol([a, b]) % 256
  {
    hide HexNumber;
    var s: Text := [a, b];
    assert HexNumber([]) == 0 by {
      NumberOfNone();
    }
    if IsHex(a) {
      SpanEndIs(s, 0, IsSpace, 0);
      if IsHex(b) {
        SpanEndIs(s, 0, IsHex, 2);
        NumberOfTwo(a, b);
        assert s[0..2] == [a, b];
      } else {
        SpanEndIs(s, 0, IsHex, 1);
        NumberOfOne(a);
        assert s[0..1] == [a];
      }
    } else if IsSpace(a) || a == '+' || a == '-' {
      SecondAlone(a, b);
    } else {
      SpanEndIs(s, 0, IsSpace, 0);
      SpanEndIs(s, 0, IsHex, 0);
      assert s[0..0] == [];
    }
  }

  lemma NumberOfNone()
    ensures HexNumber([]) == 0
  {
  }

  /** Only the second character can be a digit. */
  lemma SecondAlone(a: char, b: char)
    requires IsSpace(a) || a == '+' || a == '-'
    ensures Strtol([a, b]) == (if !IsHex(b) then 0 else if a == '-' then -(HexValue(b) as int) else HexValue(b))
  {
    hide HexNumber;
    var s: Text := [a, b];
    NumberOfNone();
    if IsHex(b) {
      NumberOfOne(b);
      assert s[1..2] == [b];
    }
    SpanEndIs(s, 0, IsSpace, if !IsSpace(a) then 0 else if IsSpace(b) then 2 else 1);
    SpanEndIs(s, 1, IsHex, if IsHex(b) then 2 else 1);
    SpanEndIs(s, 2, IsHex, 2);
    assert s[1..1] == [] && s[2..2] == [];
  }

  /** A `%` with two more characters is one byte, whatever they are; one that lacks them stands for itself. */
  lemma AnyEscape(a: char, b: char, rest: Text)
    ensures UrlDecode(['%', a, b] + rest) == [(Strtol([a, b]) % 256) as char] + UrlDecode(rest)
    ensures |rest| < 2 ==> UrlDecode(['%'] + rest) == ['%'] + UrlDecode(rest)
  {
    hide HexByte, Strtol;
    HexByteIsRead(a, b);
    assert (['%', a, b] + rest)[3..] == rest;
    assert (['%'] + rest)[1..] == rest;
  }

  // ---------- encoding ----------

  /** One byte as an encoder may write it. */
  datatype Piece = Plain(c: char) | Plus | Escaped(hi: char, lo: char)
  {
    predicate Legal() {
      match this
      case Plain(c) => c != '%' && c != '+'
      case Plus => true
      case Escaped(hi, lo) => IsHex(hi) && IsHex(lo)
    }

    function Print(): Text {
      match this
      case Plain(c) => [c]
      case Plus => ['+']
      case Escaped(hi, lo) => ['%', hi, lo]
    }

    function Meaning(): char
      requires Legal()
    {
      match this
      case Plain(c) => c
      case Plus => ' '
      case Escaped(hi, lo) => (16 * HexValue(hi) + HexValue(lo)) as char
    }
  }

  predicate AllLegal(ps: seq<Piece>) {
    forall p :: p in ps ==> p.Legal()
  }

  function PrintAll(ps: seq<Piece>): Text {
    if ps == [] then [] else ps[0].Print() + PrintAll(ps[1..])
  }

  function MeaningAll(ps: seq<Piece>): Text
    requires AllLegal(ps)
  {
    if ps == [] then [] else [ps[0].Meaning()] + MeaningAll(ps[1..])
  }

  /** Decoding inverts every way of percent-encoding a byte string (section 2.1 of RFC 3986). */
  lemma {:induction false} DecodeInvertsEncoding(ps: seq<Piece>)
    requires AllLegal(ps)
    ensures UrlDecode(PrintAll(ps)) == MeaningAll(ps)
  {
    if ps != [] {
      DecodeInvertsEncoding(ps[1..]);
      var rest := PrintAll(ps[1..]);
      var head := ps[0].Print();
      assert ps[0].Legal();
      assert (head + rest)[|head|..] == rest;
      match ps[0]
      case Plain(c) => assert head + rest == [c] + rest;
      case Plus => assert head + rest == ['+'] + rest;
      case Escaped(hi, lo) => assert (head + rest)[0] == '%' && (head + rest)[1] == hi && (head + rest)[2] == lo;
    }
  }

  function HexDigit(v: nat): (c: char)
    requires v < 16
    ensures IsHex(c) && HexValue(c) == v
  {
    if v < 10 then Digit(v) else ('A' as int + v - 10) as char
  }

  function EncodeByte(c: char): (p: Piece)
    requires (c as int) < 256
    ensures p.Legal() && p.Meaning() == c
  {
    Escaped(HexDigit(c as int / 16), HexDigit(c as int % 16))
  }

  /** Every byte string has an encoding, so decoding is onto: escaping each byte is one. */
  lemma {:induction false} EveryByteStringEncodes(s: Text) returns (ps: seq<Piece>)
    requires forall c :: c in s ==> (c as int) < 256
    ensures AllLegal(ps) && |ps| == |s|
    ensures MeaningAll(ps) == s && UrlDecode(PrintAll(ps)) == s
  {
    ps := [];
    if s != [] {
      assert s[0] in s && forall c :: c in s[1..] ==> c in s;
      var rest := EveryByteStringEncodes(s[1..]);
      ps := [EncodeByte(s[0])] + rest;
      assert ps[1..] == rest;
    }
    DecodeInvertsEncoding(ps);
  }

  // ---------- concatenation ----------

  /** The scan of `s` ends on a `%` that lacks one of its two digits. */
  predicate Dangling(s: Text) {
    if s == [] then false
    else if s[0] == '%' then |s| <= 2 || Dangling(s[3..])
    else Dangling(s[1..])
  }

  lemma {:induction false} DecodeConcat(a: Text, b: Text)
    requires !Dangling(a)
    ensures UrlDecode(a + b) == UrlDecode(a) + UrlDecode(b)
  {
    if a == [] {
      assert a + b == b;
    } else if a[0] == '%' {
      assert (a + b)[3..] == a[3..] + b;
      DecodeConcat(a[3..], b);
    } else {
      assert (a + b)[1..] == a[1..] + b;
      DecodeConcat(a[1..], b);
    }
  }

  lemma {:induction false} DanglingSplits(a: Text)
    requires Dangling(a)
    ensures |UrlDecode(a + "00")| < |UrlDecode(a) + UrlDecode("00")|
  {
    var b: Text := "00";
    assert UrlDecode(b[1..]) == "0";
    assert |UrlDecode(b)| == 2;
    if a[0] == '%' && |a| <= 2 {
      assert (a + b)[3..] == b[3 - |a|..];
      if |a| == 2 {
        assert UrlDecode(a[2..]) == [];
        assert |UrlDecode(a[1..])| == 1;
        assert b[1..] == "0";
        assert UrlDecode(b[1..]) == "0";
      } else {
        assert b[2..] == [];
        assert a[1..] == [];
      }
    } else if a[0] == '%' {
      assert (a + b)[3..] == a[3..] + b;
      DanglingSplits(a[3..]);
    } else {
      assert (a + b)[1..] == a[1..] + b;
      DanglingSplits(a[1..]);
    }
  }

  /** Decoding distributes over concatenation, whatever follows, exactly when the left part does not
      end inside an escape. */
  lemma DecodeDistributes(a: Text)
    ensures !Dangling(a) <==> forall b: Text :: UrlDecode(a + b) == UrlDecode(a) + UrlDecode(b)
  {
    if Dangling(a) {
      DanglingSplits(a);
      assert UrlDecode(a + "00") != UrlDecode(a) + UrlDecode("00");
    } else {
      forall b: Text
        ensures UrlDecode(a + b) == UrlDecode(a) + UrlDecode(b)
      {
        DecodeConcat(a, b);
      }
    }
  }
}
