/** Bytes and the big-endian unsigned integers of Node's Buffer
    (`writeUIntBE`, `writeUInt32BE`). */
module Bytes {

  newtype byte = b: int | 0 <= b < 256

  /** 256 to the power `n`: one more than the largest `n`-byte unsigned value. */
  function Pow256(n: nat): (r: nat)
    ensures r >= 1
  {
    if n == 0 then 1 else 256 * Pow256(n - 1)
  }

  /** The `width`-byte big-endian encoding of `n`, most significant byte first. */
  function BigEndian(n: nat, width: nat): (r: seq<byte>)
    ensures |r| == width
  {
    if width == 0 then [] else BigEndian(n / 256, width - 1) + [(n % 256) as byte]
  }

  /** The unsigned value of a big-endian byte string. */
  function FromBigEndian(s: seq<byte>): (n: nat)
    ensures n < Pow256(|s|)
  {
    if s == [] then 0
    else
      var high := FromBigEndian(s[..|s| - 1]);
      assert high <= Pow256(|s| - 1) - 1;
      assert high * 256 <= Pow256(|s|) - 256;
      high * 256 + s[|s| - 1] as int
  }

  /** Decoding an encoding gives the value back, whenever it fits the width. */
  lemma {:induction false} DecodeEncode(n: nat, width: nat)
    requires n < Pow256(width)
    ensures FromBigEndian(BigEndian(n, width)) == n
  {
    if width > 0 {
      var e := BigEndian(n, width);
      assert e[..|e| - 1] == BigEndian(n / 256, width - 1);
      assert n / 256 < Pow256(width - 1);
      DecodeEncode(n / 256, width - 1);
    }
  }

  /** Encoding a decoded byte string at its own width gives the bytes back. */
  lemma {:induction false} EncodeDecode(s: seq<byte>)
    ensures BigEndian(FromBigEndian(s), |s|) == s
  {
    if s != [] {
      var prefix := s[..|s| - 1];
      var n := FromBigEndian(s);
      assert n / 256 == FromBigEndian(prefix);
      assert (n % 256) as byte == s[|s| - 1];
      EncodeDecode(prefix);
      assert s == prefix + [s[|s| - 1]];
    }
  }

  /** Byte `i` of the encoding holds bits 8*(width-1-i) .. 8*(width-1-i)+7 of `n`:
      the `(n >> k) & 0xFF` that the source computes by hand. */
  lemma {:induction false} BigEndianByte(n: nat, width: nat, i: nat)
    requires i < width
    ensures BigEndian(n, width)[i] as int == n / Pow256(width - 1 - i) % 256
  {
    if i < width - 1 {
      BigEndianByte(n / 256, width - 1, i);
      DivDiv(n, 256, Pow256(width - 2 - i));
    }
  }

  lemma DivDiv(n: nat, a: nat, b: nat)
    requires a > 0 && b > 0
    ensures n / a / b == n / (a * b)
  {
    var q, r := n / (a * b), n % (a * b);
    var s, t := r / a, r % a;
    assert s < b;
    assert n == q * (a * b) + r;
    assert q * (a * b) == (q * b) * a;
    assert n == (q * b + s) * a + t;
    DivUnique(n, a, q * b + s, t);
    DivUnique(q * b + s, b, q, s);
  }

  lemma DivUnique(n: int, d: int, q: int, r: int)
    requires d > 0 && 0 <= r < d && n == q * d + r
    ensures n / d == q
  {
    var q', r' := n / d, n % d;
    assert (q' - q) * d == r - r';
    if q' > q {
      MulMonotone(q' - q, 1, d);
    } else if q' < q {
      MulMonotone(q - q', 1, d);
    }
  }

  lemma MulMonotone(x: nat, y: nat, k: nat)
    requires x >= y
    ensures x * k >= y * k
  {
  }

}
