/** Standard base64 with padding, section 4 of RFC 4648. */
module Base64 {
  import opened Wrappers

  type Byte = x: int | 0 <= x < 256
  type Sextet = x: int | 0 <= x < 64

  function Symbol(v: Sextet): char {
    if v < 26 then 'A' + v as char
    else if v < 52 then 'a' + (v - 26) as char
    else if v < 62 then '0' + (v - 52) as char
    else if v == 62 then '+' else '/'
  }

  function ValueOf(c: char): Option<Sextet> {
    if 'A' <= c <= 'Z' then Some(c as int - 'A' as int)
    else if 'a' <= c <= 'z' then Some(c as int - 'a' as int + 26)
    else if '0' <= c <= '9' then Some(c as int - '0' as int + 52)
    else if c == '+' then Some(62)
    else if c == '/' then Some(63)
    else None
  }

  lemma SymbolRoundTrip(v: Sextet)
    ensures ValueOf(Symbol(v)) == Some(v) && Symbol(v) != '=' && '+' <= Symbol(v) <= 'z'
  {
  }

  function Encode(b: seq<Byte>): string {
    if |b| == 0 then ""
    else if |b| == 1 then [Symbol(b[0] / 4), Symbol(b[0] % 4 * 16), '=', '=']
    else if |b| == 2 then [Symbol(b[0] / 4), Symbol(b[0] % 4 * 16 + b[1] / 16), Symbol(b[1] % 16 * 4), '=']
    else [Symbol(b[0] / 4), Symbol(b[0] % 4 * 16 + b[1] / 16), Symbol(b[1] % 16 * 4 + b[2] / 64), Symbol(b[2] % 64)]
         + Encode(b[3..])
  }

  /** One group of four symbols: one to three bytes, padding only at the end. */
  function DecodeGroup(s: string): Option<seq<Byte>>
    requires |s| == 4
  {
    var v0 :- ValueOf(s[0]);
    var v1 :- ValueOf(s[1]);
    var b0 := v0 * 4 + v1 / 16;
    if s[2] == '=' && s[3] == '=' then Some([b0])
    else
      var v2 :- ValueOf(s[2]);
      var b1 := v1 % 16 * 16 + v2 / 4;
      if s[3] == '=' then Some([b0, b1])
      else
        var v3 :- ValueOf(s[3]);
        Some([b0, b1, v2 % 4 * 64 + v3])
  }

  function Decode(s: string): Option<seq<Byte>> {
    if s == "" then Some([])
    else if |s| < 4 then None
    else
      var group :- DecodeGroup(s[..4]);
      if |group| < 3 && |s| > 4 then None
      else
        var rest :- Decode(s[4..]);
        Some(group + rest)
  }

  lemma Regroup(x: Byte, y: Byte, z: Byte)
    ensures x / 4 * 4 + (x % 4 * 16 + y / 16) / 16 == x
    ensures (x % 4 * 16 + y / 16) % 16 * 16 + (y % 16 * 4 + z / 64) / 4 == y
    ensures (y % 16 * 4 + z / 64) % 4 * 64 + z % 64 == z
  {
    assert (x % 4 * 16 + y / 16) / 16 == x % 4;
    assert (y % 16 * 4 + z / 64) / 4 == y % 16;
  }

  lemma ThreeBytes(x: Byte, y: Byte, z: Byte, s: string)
    requires s == [Symbol(x / 4), Symbol(x % 4 * 16 + y / 16), Symbol(y % 16 * 4 + z / 64), Symbol(z % 64)]
    ensures DecodeGroup(s) == Some([x, y, z])
  {
    SymbolRoundTrip(x / 4);
    SymbolRoundTrip(x % 4 * 16 + y / 16);
    SymbolRoundTrip(y % 16 * 4 + z / 64);
    SymbolRoundTrip(z % 64);
    Regroup(x, y, z);
  }

  lemma TwoBytes(x: Byte, y: Byte, s: string)
    requires s == [Symbol(x / 4), Symbol(x % 4 * 16 + y / 16), Symbol(y % 16 * 4), '=']
    ensures DecodeGroup(s) == Some([x, y])
  {
    SymbolRoundTrip(x / 4);
    SymbolRoundTrip(x % 4 * 16 + y / 16);
    SymbolRoundTrip(y % 16 * 4);
    Regroup(x, y, 0);
  }

  lemma OneByte(x: Byte, s: string)
    requires s == [Symbol(x / 4), Symbol(x % 4 * 16), '=', '=']
    ensures DecodeGroup(s) == Some([x])
  {
    SymbolRoundTrip(x / 4);
    SymbolRoundTrip(x % 4 * 16);
    Regroup(x, 0, 0);
  }

  lemma DecodeStep(group: string, more: string, bytes: seq<Byte>, rest: seq<Byte>)
    requires |group| == 4 && DecodeGroup(group) == Some(bytes) && Decode(more) == Some(rest)
    requires |bytes| == 3 || more == ""
    ensures Decode(group + more) == Some(bytes + rest)
  {
    assert (group + more)[..4] == group && (group + more)[4..] == more;
  }

  lemma ShortRoundTrip(b: seq<Byte>)
    requires |b| < 3
    ensures Decode(Encode(b)) == Some(b)
  {
    if |b| == 1 {
      assert b == [b[0]];
      OneByte(b[0], Encode(b));
      DecodeLast(Encode(b), b);
    } else if |b| == 2 {
      assert b == [b[0], b[1]];
      TwoBytes(b[0], b[1], Encode(b));
      DecodeLast(Encode(b), b);
    }
  }

  lemma DecodeLast(group: string, bytes: seq<Byte>)
    requires |group| == 4 && DecodeGroup(group) == Some(bytes)
    ensures Decode(group) == Some(bytes)
  {
    assert group[..4] == group && group[4..] == "" && bytes + [] == bytes;
  }

  lemma {:induction false} RoundTrip(b: seq<Byte>)
    ensures Decode(Encode(b)) == Some(b)
  {
    if |b| < 3 {
      ShortRoundTrip(b);
    } else {
      var group := [Symbol(b[0] / 4), Symbol(b[0] % 4 * 16 + b[1] / 16), Symbol(b[1] % 16 * 4 + b[2] / 64), Symbol(b[2] % 64)];
      ThreeBytes(b[0], b[1], b[2], group);
      RoundTrip(b[3..]);
      DecodeStep(group, Encode(b[3..]), [b[0], b[1], b[2]], b[3..]);
      assert [b[0], b[1], b[2]] + b[3..] == b;
    }
  }

  /** Encoded text uses only printable symbols, so it holds no whitespace. */
  lemma {:induction false} EncodePrintable(b: seq<Byte>, i: nat)
    requires i < |Encode(b)|
    ensures '+' <= Encode(b)[i] <= 'z'
  {
    if |b| >= 3 {
      SymbolRoundTrip(b[0] / 4);
      SymbolRoundTrip(b[0] % 4 * 16 + b[1] / 16);
      SymbolRoundTrip(b[1] % 16 * 4 + b[2] / 64);
      SymbolRoundTrip(b[2] % 64);
      if i >= 4 { EncodePrintable(b[3..], i - 4); }
    } else if |b| == 2 {
      SymbolRoundTrip(b[0] / 4);
      SymbolRoundTrip(b[0] % 4 * 16 + b[1] / 16);
      SymbolRoundTrip(b[1] % 16 * 4);
    } else {
      SymbolRoundTrip(b[0] / 4);
      SymbolRoundTrip(b[0] % 4 * 16);
    }
  }
}
