/** Byte strings: UTF-8 and the length-prefixed encoding that both the integrity
    payload (src/server.rs) and the audit hash (src/audit.rs) are built from. */
module Bytes {
  import opened Wrappers

  type byte = x: int | 0 <= x < 256

  /** 2^64: `usize as u64` lengths never reach it. */
  const U64 := 0x1_0000_0000_0000_0000

  // ---------------------------------------------------------------- UTF-8

  /** The bytes of one Unicode scalar value (`char` in Dafny and in Rust). */
  function Utf8Char(c: char): (r: seq<byte>)
    ensures 1 <= |r| <= 4
  {
    var n := c as int;
    if n < 0x80 then [n]
    else if n < 0x800 then [0xC0 + n / 64, 0x80 + n % 64]
    else if n < 0x10000 then [0xE0 + n / 4096, 0x80 + n / 64 % 64, 0x80 + n % 64]
    else [0xF0 + n / 262144, 0x80 + n / 4096 % 64, 0x80 + n / 64 % 64, 0x80 + n % 64]
  }

  function Utf8(s: string): (r: seq<byte>)
    ensures |s| <= |r| <= 4 * |s|
  {
    if s == "" then [] else Utf8Char(s[0]) + Utf8(s[1..])
  }

  /** A byte that goes on with a character: ten in front, then six bits of the code. */
  predicate Continues(b: byte) {
    0x80 <= b <= 0xBF
  }

  /** The bits behind the marker. */
  function Behind(b: byte, marker: int): int {
    b - marker
  }

  /** The encoding as section 3 of RFC 3629 tabulates it: an ASCII character is the one byte of its code;
      otherwise the first byte tells the length, and the code is made up of the bits that follow the
      markers. */
  lemma Utf8CharIs(c: char)
    ensures var n, r := c as int, Utf8Char(c);
      if n <= 0x7F then r == [n]
      else if n <= 0x7FF then
        && |r| == 2 && 0xC2 <= r[0] <= 0xDF && Continues(r[1])
        && n == Behind(r[0], 0xC0) * 64 + Behind(r[1], 0x80)
      else if n <= 0xFFFF then
        && |r| == 3 && 0xE0 <= r[0] <= 0xEF && Continues(r[1]) && Continues(r[2])
        && n == Behind(r[0], 0xE0) * 4096 + Behind(r[1], 0x80) * 64 + Behind(r[2], 0x80)
      else
        && |r| == 4 && 0xF0 <= r[0] <= 0xF4 && Continues(r[1]) && Continues(r[2]) && Continues(r[3])
        && n == Behind(r[0], 0xF0) * 262144 + Behind(r[1], 0x80) * 4096 + Behind(r[2], 0x80) * 64 + Behind(r[3], 0x80)
  {
    var n := c as int;
    assert n / 64 / 64 == n / 4096 && n / 4096 / 64 == n / 262144;
    assert n / 64 == n / 4096 * 64 + n / 64 % 64 && n / 4096 == n / 262144 * 64 + n / 4096 % 64;
  }

  /** A text's bytes are those of its characters, one after the other. */
  lemma {:induction false} Utf8Concat(s: string, t: string)
    ensures Utf8(s + t) == Utf8(s) + Utf8(t)
    ensures |s| == 1 ==> Utf8(s) == Utf8Char(s[0])
  {
    hide Utf8Char;
    if s == "" {
      assert s + t == t;
    } else {
      assert (s + t)[1..] == s[1..] + t;
      Utf8Concat(s[1..], t);
    }
  }

  /** An ASCII text has one byte per character, and it is the character's code. */
  lemma {:induction false} Utf8Ascii(s: string)
    requires forall i :: 0 <= i < |s| ==> s[i] as int <= 0x7F
    ensures |Utf8(s)| == |s| && forall i :: 0 <= i < |s| ==> Utf8(s)[i] == s[i] as int
  {
    if s != "" {
      Utf8CharIs(s[0]);
      Utf8Ascii(s[1..]);
      forall i | 0 <= i < |s| ensures Utf8(s)[i] == s[i] as int {
        if i > 0 {
          assert s[i] == s[1..][i - 1];
        }
      }
    }
  }

  lemma SameDigits(n: nat, m: nat)
    requires n / 64 == m / 64 && n % 64 == m % 64
    ensures n == m
  {
  }

  lemma Utf8CharInjective(c: char, d: char)
    requires Utf8Char(c) == Utf8Char(d)
    ensures c == d
  {
    var n, m := c as int, d as int;
    if n >= 0x10000 {
      assert n / 64 / 64 == n / 4096 && m / 64 / 64 == m / 4096;
      assert n / 4096 / 64 == n / 262144 && m / 4096 / 64 == m / 262144;
      SameDigits(n / 4096, m / 4096);
      SameDigits(n / 64, m / 64);
    } else if n >= 0x800 {
      assert n / 64 / 64 == n / 4096 && m / 64 / 64 == m / 4096;
      SameDigits(n / 64, m / 64);
    }
    SameDigits(n, m);
  }

  /** The first byte fixes the length, so no character's bytes start another's. */
  lemma Utf8CharPrefixFree(c: char, d: char, x: seq<byte>, y: seq<byte>)
    requires Utf8Char(c) + x == Utf8Char(d) + y
    ensures c == d && x == y
  {
    var a, b := Utf8Char(c), Utf8Char(d);
    assert a[0] == (a + x)[0] == (b + y)[0] == b[0];
    SameLength(c, d);
    assert a == (a + x)[..|a|] == (b + y)[..|b|] == b;
    assert x == (a + x)[|a|..] == (b + y)[|b|..] == y;
    Utf8CharInjective(c, d);
  }

  lemma SameLength(c: char, d: char)
    requires Utf8Char(c)[0] == Utf8Char(d)[0]
    ensures |Utf8Char(c)| == |Utf8Char(d)|
  {
  }

  /** Two strings with the same UTF-8 bytes are the same string. */
  lemma {:induction false} Utf8Injective(s: string, t: string)
    requires Utf8(s) == Utf8(t)
    ensures s == t
  {
    if s == "" || t == "" {
    } else {
      Utf8CharPrefixFree(s[0], t[0], Utf8(s[1..]), Utf8(t[1..]));
      Utf8Injective(s[1..], t[1..]);
      assert s == [s[0]] + s[1..] && t == [t[0]] + t[1..];
    }
  }

  // ------------------------------------------------- Big-endian integers

  function Pow256(k: nat): (r: nat)
    ensures r > 0
  {
    if k == 0 then 1 else 256 * Pow256(k - 1)
  }

  /** The low `k` bytes of `n`, most significant first (higher bits are cut off). */
  function BigEndian(n: nat, k: nat): (r: seq<byte>)
    ensures |r| == k
  {
    if k == 0 then [] else BigEndian(n / 256, k - 1) + [n % 256]
  }

  function FromBigEndian(s: seq<byte>): nat {
    if s == [] then 0 else 256 * FromBigEndian(s[..|s| - 1]) + s[|s| - 1]
  }

  /** Byte `i` counts for 256 to the number of bytes behind it. */
  lemma {:induction false} BigEndianAt(n: nat, k: nat, i: nat)
    requires i < k
    ensures BigEndian(n, k)[i] == n / Pow256(k - 1 - i) % 256
  {
    if i < k - 1 {
      BigEndianAt(n / 256, k - 1, i);
      DivTwice(n, Pow256(k - 2 - i));
    }
  }

  lemma DivTwice(n: nat, b: nat)
    requires b > 0
    ensures n / 256 / b == n / (256 * b)
  {
    var m, x := n / 256, n % 256;
    var q, r := m / b, m % b;
    assert (256 * b) * q == 256 * (b * q);
    DivUnique(n, 256 * b, q, 256 * r + x);
  }

  lemma DivUnique(n: int, d: int, q: int, r: int)
    requires n == d * q + r && 0 <= r < d
    ensures n / d == q
  {
    var p, m := n / d, n % d;
    assert d * (p - q) == r - m;
    MultiplesApart(d, p - q);
  }

  lemma MultiplesApart(d: int, x: int)
    requires d > 0
    ensures x != 0 ==> d * x >= d || d * x <= -d
  {
    assert d * x == d + d * (x - 1) == d * (x + 1) - d;
    if x >= 1 {
      assert d * (x - 1) >= 0;
    } else if x <= -1 {
      assert d * (x + 1) <= 0;
    }
  }

  lemma {:induction false} BigEndianRoundTrip(n: nat, k: nat)
    requires n < Pow256(k)
    ensures FromBigEndian(BigEndian(n, k)) == n
  {
    if k > 0 {
      BigEndianRoundTrip(n / 256, k - 1);
      var s := BigEndian(n, k);
      assert s[..|s| - 1] == BigEndian(n / 256, k - 1);
    }
  }

  lemma {:induction false} FromBigEndianRoundTrip(s: seq<byte>)
    ensures FromBigEndian(s) < Pow256(|s|)
    ensures BigEndian(FromBigEndian(s), |s|) == s
  {
    if s != [] {
      FromBigEndianRoundTrip(s[..|s| - 1]);
      assert s == s[..|s| - 1] + [s[|s| - 1]];
    }
  }

  /** `(n as u64).to_be_bytes()`. */
  function U64Be(n: nat): (r: seq<byte>)
    ensures |r| == 8
  {
    BigEndian(n, 8)
  }

  // -------------------------------------------- Length-prefixed encoding

  function EncodePart(p: seq<byte>): seq<byte> {
    U64Be(|p|) + p
  }

  function EncodeParts(parts: seq<seq<byte>>): seq<byte> {
    if parts == [] then [] else EncodePart(parts[0]) + EncodeParts(parts[1..])
  }

  /** Every part is shorter than 2^64 bytes, as every Rust slice is. */
  ghost predicate Fit(parts: seq<seq<byte>>) {
    forall i :: 0 <= i < |parts| ==> |parts[i]| < U64
  }

  /** Read one length-prefixed part off the front. */
  function ParsePart(s: seq<byte>): (r: Option<(seq<byte>, seq<byte>)>)
    ensures r.Some? ==> |r.value.1| < |s|
  {
    if |s| < 8 then None
    else
      var n := FromBigEndian(s[..8]);
      if |s| - 8 < n then None else Some((s[8..8 + n], s[8 + n..]))
  }

  function ParseParts(s: seq<byte>): Option<seq<seq<byte>>>
    decreases |s|
  {
    if s == [] then Some([])
    else match ParsePart(s)
      case None => None
      case Some((p, rest)) =>
        match ParseParts(rest)
        case None => None
        case Some(ps) => Some([p] + ps)
  }

  lemma Pow256Of8()
    ensures Pow256(8) == U64
  {
    assert Pow256(4) == 0x1_0000_0000;
  }

  lemma ParsePartOfEncoding(p: seq<byte>, rest: seq<byte>)
    requires |p| < U64
    ensures ParsePart(EncodePart(p) + rest) == Some((p, rest))
  {
    Pow256Of8();
    BigEndianRoundTrip(|p|, 8);
    var s := EncodePart(p) + rest;
    assert s[..8] == U64Be(|p|);
    assert s[8..8 + |p|] == p;
    assert s[8 + |p|..] == rest;
  }

  /** Prefix-free per part: no encoded part is the beginning of another one. */
  lemma EncodePartPrefixFree(p: seq<byte>, q: seq<byte>, x: seq<byte>, y: seq<byte>)
    requires |p| < U64 && |q| < U64
    requires EncodePart(p) + x == EncodePart(q) + y
    ensures p == q && x == y
  {
    ParsePartOfEncoding(p, x);
    ParsePartOfEncoding(q, y);
  }

  /** The parser recovers every list of parts. */
  lemma {:induction false} ParseEncode(parts: seq<seq<byte>>)
    requires Fit(parts)
    ensures ParseParts(EncodeParts(parts)) == Some(parts)
  {
    if parts != [] {
      ParsePartOfEncoding(parts[0], EncodeParts(parts[1..]));
      ParseEncode(parts[1..]);
      assert parts == [parts[0]] + parts[1..];
    }
  }

  lemma ParsedPart(s: seq<byte>)
    requires ParsePart(s).Some?
    ensures var (p, rest) := ParsePart(s).value; |p| < U64 && s == EncodePart(p) + rest
  {
    hide BigEndian, FromBigEndian;
    var (p, rest) := ParsePart(s).value;
    FromBigEndianRoundTrip(s[..8]);
    Pow256Of8();
    assert s == s[..8] + (p + rest);
  }

  /** And every accepted byte string is the encoding of what was read: the code is canonical. */
  lemma {:induction false} EncodeParse(s: seq<byte>)
    ensures ParseParts(s).Some? ==> Fit(ParseParts(s).value) && EncodeParts(ParseParts(s).value) == s
    decreases |s|
  {
    hide ParsePart, EncodePart;
    if s != [] && ParseParts(s).Some? {
      ParsedPart(s);
      EncodeParse(ParsePart(s).value.1);
      var ps := ParseParts(s).value;
      assert ps[1..] == ParseParts(ParsePart(s).value.1).value;
    }
  }

  lemma EncodePartsInjective(a: seq<seq<byte>>, b: seq<seq<byte>>)
    requires Fit(a) && Fit(b)
    requires EncodeParts(a) == EncodeParts(b)
    ensures a == b
  {
    ParseEncode(a);
    ParseEncode(b);
  }

  /** Feeding one more part at the end, as the loops of the program do. */
  lemma {:induction false} EncodePartsSnoc(parts: seq<seq<byte>>, p: seq<byte>)
    ensures EncodeParts(parts + [p]) == EncodeParts(parts) + EncodePart(p)
  {
    if parts == [] {
      assert parts + [p] == [p];
      assert [p][1..] == [];
    } else {
      assert (parts + [p])[1..] == parts[1..] + [p];
      EncodePartsSnoc(parts[1..], p);
    }
  }

  /** The loop shared by `integrity_payload` and `entry_hash`: length, then bytes, part by part. */
  method FeedParts(parts: seq<seq<byte>>) returns (out: seq<byte>)
    ensures out == EncodeParts(parts)
  {
    out := [];
    for i := 0 to |parts|
      invariant out == EncodeParts(parts[..i])
    {
      out := out + U64Be(|parts[i]|);
      out := out + parts[i];
      EncodePartsSnoc(parts[..i], parts[i]);
      assert parts[..i + 1] == parts[..i] + [parts[i]];
    }
    assert parts[..|parts|] == parts;
  }
}
