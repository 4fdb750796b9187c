/** The base 64 encoding of section 4 of RFC 4648 (alphabet `A`-`Z`,
    `a`-`z`, `0`-`9`, `+`, `/`, padding with `=`), which is what the
    browser's `btoa` produces from a string of Latin-1 characters, and the
    matching decoder, which the server applies to the credential. */
module Base64 {
  import opened JsValues

  newtype Byte = b: int | 0 <= b < 256

  /** The character of the base 64 alphabet for a 6-bit value. */
  function Sextet(v: int): (c: char)
    requires 0 <= v < 64
    ensures c != '='
  {
    if v < 26 then ('A' as int + v) as char
    else if v < 52 then ('a' as int + (v - 26)) as char
    else if v < 62 then ('0' as int + (v - 52)) as char
    else if v == 62 then '+'
    else '/'
  }

  /** The 6-bit value of an alphabet character; `None` for any other character. */
  function SextetValue(c: char): (r: Option<int>)
    ensures r.Some? ==> 0 <= r.value < 64
  {
    if 'A' <= c <= 'Z' then Some(c as int - 'A' as int)
    else if 'a' <= c <= 'z' then Some(c as int - 'a' as int + 26)
    else if '0' <= c <= '9' then Some(c as int - '0' as int + 52)
    else if c == '+' then Some(62)
    else if c == '/' then Some(63)
    else None
  }

  lemma SextetValueOfSextet(v: int)
    requires 0 <= v < 64
    ensures SextetValue(Sextet(v)) == Some(v)
  {
  }

  /** Three bytes become four characters. */
  function EncodeTriple(a: Byte, b: Byte, c: Byte): string {
    [Sextet(a as int / 4), Sextet((a as int % 4) * 16 + b as int / 16),
     Sextet((b as int % 16) * 4 + c as int / 64), Sextet(c as int % 64)]
  }

  /** A final group of two bytes: three characters and one `=`. */
  function EncodePair(a: Byte, b: Byte): string {
    [Sextet(a as int / 4), Sextet((a as int % 4) * 16 + b as int / 16),
     Sextet((b as int % 16) * 4), '=']
  }

  /** A final single byte: two characters and `==`. */
  function EncodeSingle(a: Byte): string {
    [Sextet(a as int / 4), Sextet((a as int % 4) * 16), '=', '=']
  }

  /** The encoding of a byte string: four characters for every started
      group of three bytes. */
  function Encode(bs: seq<Byte>): (s: string)
    ensures |s| == 4 * ((|bs| + 2) / 3)
    decreases |bs|
  {
    if |bs| == 0 then ""
    else if |bs| == 1 then EncodeSingle(bs[0])
    else if |bs| == 2 then EncodePair(bs[0], bs[1])
    else EncodeTriple(bs[0], bs[1], bs[2]) + Encode(bs[3..])
  }

  /** One group of four characters; `last` tells whether padding may occur. */
  function DecodeQuad(q: string, last: bool): Option<seq<Byte>>
    requires |q| == 4
  {
    var v0, v1, v2, v3 := SextetValue(q[0]), SextetValue(q[1]), SextetValue(q[2]), SextetValue(q[3]);
    if v0.None? || v1.None? then None
    else
      var a := (v0.value * 4 + v1.value / 16) as Byte;
      if last && q[2] == '=' && q[3] == '=' then Some([a])
      else if v2.None? then None
      else
        var b := ((v1.value % 16) * 16 + v2.value / 4) as Byte;
        if last && q[3] == '=' then Some([a, b])
        else if v3.None? then None
        else Some([a, b, ((v2.value % 4) * 64 + v3.value) as Byte])
  }

  /** The decoding of a padded base 64 string; `None` when it is malformed. */
  function Decode(s: string): Option<seq<Byte>>
    decreases |s|
  {
    if s == "" then Some([])
    else if |s| < 4 then None
    else match DecodeQuad(s[..4], |s| == 4)
      case None => None
      case Some(head) =>
        match Decode(s[4..])
        case None => None
        case Some(tail) => Some(head + tail)
  }

  lemma DecodeTriple(a: Byte, b: Byte, c: Byte, last: bool)
    ensures DecodeQuad(EncodeTriple(a, b, c), last) == Some([a, b, c])
  {
    var x, y, z := a as int, b as int, c as int;
    SextetValueOfSextet(x / 4);
    SextetValueOfSextet((x % 4) * 16 + y / 16);
    SextetValueOfSextet((y % 16) * 4 + z / 64);
    SextetValueOfSextet(z % 64);
    assert ((x % 4) * 16 + y / 16) / 16 == x % 4;
    assert ((x % 4) * 16 + y / 16) % 16 == y / 16;
    assert ((y % 16) * 4 + z / 64) / 4 == y % 16;
    assert ((y % 16) * 4 + z / 64) % 4 == z / 64;
  }

  lemma DecodePair(a: Byte, b: Byte)
    ensures DecodeQuad(EncodePair(a, b), true) == Some([a, b])
  {
    var x, y := a as int, b as int;
    SextetValueOfSextet(x / 4);
    SextetValueOfSextet((x % 4) * 16 + y / 16);
    SextetValueOfSextet((y % 16) * 4);
    assert ((x % 4) * 16 + y / 16) / 16 == x % 4;
    assert ((x % 4) * 16 + y / 16) % 16 == y / 16;
    assert ((y % 16) * 4) / 4 == y % 16;
  }

  lemma DecodeSingle(a: Byte)
    ensures DecodeQuad(EncodeSingle(a), true) == Some([a])
  {
    var x := a as int;
    SextetValueOfSextet(x / 4);
    SextetValueOfSextet((x % 4) * 16);
    assert ((x % 4) * 16) / 16 == x % 4;
  }

  /** Decoding a string is decoding its first group, then the rest. */
  lemma DecodeGroup(q: string, rest: string, head: seq<Byte>, tail: seq<Byte>)
    requires |q| == 4
    requires DecodeQuad(q, rest == "") == Some(head)
    requires Decode(rest) == Some(tail)
    ensures Decode(q + rest) == Some(head + tail)
  {
    var s := q + rest;
    assert s[..4] == q && s[4..] == rest;
  }

  lemma DecodeEncodeSingle(a: Byte)
    ensures Decode(EncodeSingle(a)) == Some([a])
  {
    DecodeSingle(a);
    DecodeGroup(EncodeSingle(a), "", [a], []);
    assert EncodeSingle(a) + "" == EncodeSingle(a);
    assert [a] + [] == [a];
  }

  lemma DecodeEncodePair(a: Byte, b: Byte)
    ensures Decode(EncodePair(a, b)) == Some([a, b])
  {
    DecodePair(a, b);
    DecodeGroup(EncodePair(a, b), "", [a, b], []);
    assert EncodePair(a, b) + "" == EncodePair(a, b);
    assert [a, b] + [] == [a, b];
  }

  /** A full group in front of an encoding that decodes decodes as well. */
  lemma DecodeEncodeTriple(bs: seq<Byte>)
    requires |bs| >= 3
    requires Decode(Encode(bs[3..])) == Some(bs[3..])
    ensures Decode(Encode(bs)) == Some(bs)
  {
    var q, rest := EncodeTriple(bs[0], bs[1], bs[2]), Encode(bs[3..]);
    assert Encode(bs) == q + rest;
    DecodeTriple(bs[0], bs[1], bs[2], rest == "");
    DecodeGroup(q, rest, [bs[0], bs[1], bs[2]], bs[3..]);
    SplitThree(bs);
  }

  lemma SplitThree(bs: seq<Byte>)
    requires |bs| >= 3
    ensures [bs[0], bs[1], bs[2]] + bs[3..] == bs
  {
    assert bs[..3] == [bs[0], bs[1], bs[2]];
    assert bs[..3] + bs[3..] == bs;
  }

  /** Decoding undoes encoding: the encoding loses nothing. */
  lemma {:induction false} DecodeEncode(bs: seq<Byte>)
    ensures Decode(Encode(bs)) == Some(bs)
    decreases |bs|
  {
    if |bs| == 1 {
      DecodeEncodeSingle(bs[0]);
      assert [bs[0]] == bs;
    } else if |bs| == 2 {
      DecodeEncodePair(bs[0], bs[1]);
      assert [bs[0], bs[1]] == bs;
    } else if |bs| >= 3 {
      DecodeEncode(bs[3..]);
      DecodeEncodeTriple(bs);
    }
  }

  /** Every character `btoa` accepts: code points below 256. */
  predicate IsLatin1(s: string) {
    forall i :: 0 <= i < |s| ==> s[i] as int < 256
  }

  /** The bytes of a Latin-1 string, one per character. */
  function Latin1Bytes(s: string): (bs: seq<Byte>)
    requires IsLatin1(s)
    ensures |bs| == |s|
    ensures forall i :: 0 <= i < |s| ==> bs[i] as int == s[i] as int
  {
    seq(|s|, i requires 0 <= i < |s| => s[i] as int as Byte)
  }

  /** `btoa(s)`: the base 64 encoding of the Latin-1 bytes of `s`; `None`
      stands for the InvalidCharacterError it throws on any other character. */
  function Btoa(s: string): (r: Option<string>)
    ensures r.Some? <==> IsLatin1(s)
    ensures r.Some? ==> Decode(r.value) == Some(Latin1Bytes(s))
    ensures r.Some? ==> (r.value == "" <==> s == "")
  {
    if IsLatin1(s) then
      DecodeEncode(Latin1Bytes(s));
      Some(Encode(Latin1Bytes(s)))
    else None
  }
}
