/** The STANDARD base64 engine: section 4 of RFC 4648, with padding required and
    the unused trailing bits required to be zero (section 3.5). */
module Base64 {
  import opened Wrappers
  import opened Bytes

  type sextet = v: int | 0 <= v < 64

  function Symbol(v: sextet): (c: char)
    ensures c < '\U{80}'
    ensures c != '='
  {
    if v < 26 then (v + 65) as char
    else if v < 52 then (v + 71) as char
    else if v < 62 then (v - 4) as char
    else if v == 62 then '+'
    else '/'
  }

  function Value(c: char): Option<sextet> {
    if 'A' <= c <= 'Z' then Some(c as int - 65)
    else if 'a' <= c <= 'z' then Some(c as int - 71)
    else if '0' <= c <= '9' then Some(c as int + 4)
    else if c == '+' then Some(62)
    else if c == '/' then Some(63)
    else None
  }

  lemma SymbolValue(v: sextet)
    ensures Value(Symbol(v)) == Some(v)
  {
  }

  lemma ValueSymbol(c: char)
    requires Value(c).Some?
    ensures Symbol(Value(c).value) == c
  {
  }

  // Three bytes are four groups of six bits: the groups, and the bytes back from them.
  function First(a: byte): sextet { a / 4 }
  function Second(a: byte, b: byte): sextet { a % 4 * 16 + b / 16 }
  function Third(b: byte, c: byte): sextet { b % 16 * 4 + c / 64 }
  function Fourth(c: byte): sextet { c % 64 }
  function Byte0(x: sextet, y: sextet): byte { x * 4 + y / 16 }
  function Byte1(y: sextet, z: sextet): byte { y % 16 * 16 + z / 4 }
  function Byte2(z: sextet, w: sextet): byte { z % 4 * 64 + w }

  lemma Regroup(a: byte, b: byte, c: byte)
    ensures Byte0(First(a), Second(a, b)) == a
    ensures Byte1(Second(a, b), Third(b, c)) == b
    ensures Byte2(Third(b, c), Fourth(c)) == c
  {
  }

  lemma Ungroup(x: sextet, y: sextet, z: sextet, w: sextet)
    ensures First(Byte0(x, y)) == x
    ensures Second(Byte0(x, y), Byte1(y, z)) == y
    ensures Third(Byte1(y, z), Byte2(z, w)) == z
    ensures Fourth(Byte2(z, w)) == w
  {
  }

  function Quad(a: byte, b: byte, c: byte): (r: string)
    ensures |r| == 4
  {
    [Symbol(First(a)), Symbol(Second(a, b)), Symbol(Third(b, c)), Symbol(Fourth(c))]
  }

  function Encode(s: seq<byte>): (r: string)
    ensures |r| == (|s| + 2) / 3 * 4
  {
    if |s| == 0 then ""
    else if |s| == 1 then [Symbol(First(s[0])), Symbol(Second(s[0], 0)), '=', '=']
    else if |s| == 2 then
      [Symbol(First(s[0])), Symbol(Second(s[0], s[1])), Symbol(Third(s[1], 0)), '=']
    else Quad(s[0], s[1], s[2]) + Encode(s[3..])
  }

  /** Four symbols, none of them padding. */
  function DecodeQuad(q: string): Option<seq<byte>>
    requires |q| == 4
  {
    match (Value(q[0]), Value(q[1]), Value(q[2]), Value(q[3]))
    case (Some(x), Some(y), Some(z), Some(w)) => Some([Byte0(x, y), Byte1(y, z), Byte2(z, w)])
    case _ => None
  }

  /** The last four symbols, which may be padded; the bits that encode nothing must be zero. */
  function DecodeLast(q: string): Option<seq<byte>>
    requires |q| == 4
  {
    if q[3] != '=' then DecodeQuad(q)
    else if q[2] != '=' then
      match (Value(q[0]), Value(q[1]), Value(q[2]))
      case (Some(x), Some(y), Some(z)) =>
        if z % 4 == 0 then Some([Byte0(x, y), Byte1(y, z)]) else None
      case _ => None
    else
      match (Value(q[0]), Value(q[1]))
      case (Some(x), Some(y)) => if y % 16 == 0 then Some([Byte0(x, y)]) else None
      case _ => None
  }

  function Decode(s: string): (r: Option<seq<byte>>)
    ensures r.Some? ==> |r.value| <= |s|
  {
    if |s| == 0 then Some([])
    else if |s| < 4 then None
    else if |s| == 4 then DecodeLast(s)
    else
      match (DecodeQuad(s[..4]), Decode(s[4..]))
      case (Some(a), Some(b)) => Some(a + b)
      case _ => None
  }

  /** Four symbols are read as their values. */
  lemma DecodeFour(x: sextet, y: sextet, z: sextet, w: sextet)
    ensures DecodeQuad([Symbol(x), Symbol(y), Symbol(z), Symbol(w)]) == Some([Byte0(x, y), Byte1(y, z), Byte2(z, w)])
  {
    hide Symbol, Value;
    SymbolValue(x);
    SymbolValue(y);
    SymbolValue(z);
    SymbolValue(w);
  }

  lemma QuadRoundTrip(a: byte, b: byte, c: byte)
    ensures DecodeQuad(Quad(a, b, c)) == Some([a, b, c])
  {
    hide DecodeQuad, Symbol;
    Regroup(a, b, c);
    DecodeFour(First(a), Second(a, b), Third(b, c), Fourth(c));
  }

  lemma OneByteTail(a: byte)
    ensures Second(a, 0) % 16 == 0 && Byte0(First(a), Second(a, 0)) == a
  {
  }

  lemma TwoByteTail(a: byte, b: byte)
    ensures Third(b, 0) % 4 == 0
    ensures Byte0(First(a), Second(a, b)) == a && Byte1(Second(a, b), Third(b, 0)) == b
  {
    Regroup(a, b, 0);
  }

  /** So are two or three of them before the padding. */
  lemma DecodePadded1(x: sextet, y: sextet)
    requires y % 16 == 0
    ensures DecodeLast([Symbol(x), Symbol(y), '=', '=']) == Some([Byte0(x, y)])
  {
    hide Symbol, Value;
    SymbolValue(x);
    SymbolValue(y);
  }

  lemma DecodePadded2(x: sextet, y: sextet, z: sextet)
    requires z % 4 == 0
    ensures DecodeLast([Symbol(x), Symbol(y), Symbol(z), '=']) == Some([Byte0(x, y), Byte1(y, z)])
  {
    hide Symbol, Value;
    SymbolValue(x);
    SymbolValue(y);
    SymbolValue(z);
  }

  /** Decoding undoes encoding, for all bytes. */
  lemma {:induction false} DecodeEncode(s: seq<byte>)
    ensures Decode(Encode(s)) == Some(s)
  {
    hide Symbol, Value, DecodeQuad, First, Second, Third, Fourth, Byte0, Byte1, Byte2;
    if |s| == 0 {
    } else if |s| == 1 {
      OneByteTail(s[0]);
      DecodePadded1(First(s[0]), Second(s[0], 0));
      assert s == [s[0]];
    } else if |s| == 2 {
      TwoByteTail(s[0], s[1]);
      DecodePadded2(First(s[0]), Second(s[0], s[1]), Third(s[1], 0));
      assert s == [s[0], s[1]];
    } else if |s| == 3 {
      QuadRoundTrip(s[0], s[1], s[2]);
      assert Encode(s[3..]) == "" && Encode(s) == Quad(s[0], s[1], s[2]);
      assert s == [s[0], s[1], s[2]];
    } else {
      QuadRoundTrip(s[0], s[1], s[2]);
      DecodeEncode(s[3..]);
      var q, r := Quad(s[0], s[1], s[2]), Encode(s[3..]);
      assert (q + r)[..4] == q && (q + r)[4..] == r;
      assert s == [s[0], s[1], s[2]] + s[3..];
    }
  }

  lemma DecodeQuadInverse(q: string)
    requires |q| == 4 && DecodeQuad(q).Some?
    ensures |DecodeQuad(q).value| == 3
    ensures var d := DecodeQuad(q).value; Quad(d[0], d[1], d[2]) == q
  {
    Ungroup(Value(q[0]).value, Value(q[1]).value, Value(q[2]).value, Value(q[3]).value);
    ValueSymbol(q[0]);
    ValueSymbol(q[1]);
    ValueSymbol(q[2]);
    ValueSymbol(q[3]);
  }

  lemma TailInverse(x: sextet, y: sextet, z: sextet)
    ensures y % 16 == 0 ==> First(Byte0(x, y)) == x && Second(Byte0(x, y), 0) == y
    ensures z % 4 == 0 ==> Third(Byte1(y, z), 0) == z
  {
  }

  lemma EncodeOne(x: sextet, y: sextet)
    requires y % 16 == 0
    ensures Encode([Byte0(x, y)]) == [Symbol(x), Symbol(y), '=', '=']
  {
    TailInverse(x, y, 0);
  }

  lemma DecodeLastInverse1(q: string)
    requires |q| == 4 && DecodeLast(q).Some? && q[3] == '=' && q[2] == '='
    ensures Encode(DecodeLast(q).value) == q
  {
    var x, y := Value(q[0]).value, Value(q[1]).value;
    ValueSymbol(q[0]);
    ValueSymbol(q[1]);
    EncodeOne(x, y);
    assert q == [Symbol(x), Symbol(y), '=', '='];
  }

  lemma DecodeLastInverse2(q: string)
    requires |q| == 4 && DecodeLast(q).Some? && q[3] == '=' && q[2] != '='
    ensures Encode(DecodeLast(q).value) == q
  {
    var x, y, z := Value(q[0]).value, Value(q[1]).value, Value(q[2]).value;
    Ungroup(x, y, z, 0);
    TailInverse(x, y, z);
    ValueSymbol(q[0]);
    ValueSymbol(q[1]);
    ValueSymbol(q[2]);
    assert DecodeLast(q).value == [Byte0(x, y), Byte1(y, z)];
    assert Encode([Byte0(x, y), Byte1(y, z)]) == [Symbol(x), Symbol(y), Symbol(z), '='];
  }

  lemma DecodeLastInverse(q: string)
    requires |q| == 4 && DecodeLast(q).Some?
    ensures Encode(DecodeLast(q).value) == q
  {
    if q[3] != '=' {
      DecodeQuadInverse(q);
      var d := DecodeQuad(q).value;
      assert Encode(d[3..]) == "";
      assert Encode(d) == Quad(d[0], d[1], d[2]);
    } else if q[2] != '=' {
      DecodeLastInverse2(q);
    } else {
      DecodeLastInverse1(q);
    }
  }

  /** Strictness: an accepted text is the one and only encoding of its bytes. */
  lemma {:induction false} EncodeDecode(s: string)
    requires Decode(s).Some?
    ensures Encode(Decode(s).value) == s
  {
    if |s| == 0 {
    } else if |s| == 4 {
      DecodeLastInverse(s);
    } else {
      DecodeQuadInverse(s[..4]);
      EncodeDecode(s[4..]);
      var a, b := DecodeQuad(s[..4]).value, Decode(s[4..]).value;
      assert (a + b)[3..] == b;
      assert s == s[..4] + s[4..];
    }
  }

  /** So accepted texts are equal exactly when their bytes are. */
  lemma DecodeInjective(s: string, t: string)
    requires Decode(s).Some? && Decode(t).Some?
    ensures s == t <==> Decode(s) == Decode(t)
  {
    EncodeDecode(s);
    EncodeDecode(t);
  }
}
