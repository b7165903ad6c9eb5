/** Fixed-width big-endian integers, as `to_be_bytes` and `from_be_bytes`. */
module BigEndian {

  newtype Byte = x: int | 0 <= x < 256

  function Pow256(width: nat): (r: nat)
    ensures r > 0
  {
    if width == 0 then 1 else 256 * Pow256(width - 1)
  }

  function Encode(n: nat, width: nat): (r: seq<Byte>)
    ensures |r| == width
  {
    if width == 0 then [] else Encode(n / 256, width - 1) + [(n % 256) as Byte]
  }

  function Decode(bytes: seq<Byte>): nat {
    if bytes == [] then 0 else Decode(bytes[..|bytes| - 1]) * 256 + bytes[|bytes| - 1] as nat
  }

  lemma DecodeSnoc(high: seq<Byte>, low: Byte)
    ensures Decode(high + [low]) == Decode(high) * 256 + low as nat
  {
    assert (high + [low])[..|high|] == high;
  }

  lemma {:induction false} DecodeEncode(n: nat, width: nat)
    requires n < Pow256(width)
    ensures Decode(Encode(n, width)) == n
  {
    if width > 0 {
      var high := Encode(n / 256, width - 1);
      DecodeEncode(n / 256, width - 1);
      DecodeSnoc(high, (n % 256) as Byte);
      hide Decode;
    }
  }

  lemma {:induction false} EncodeDecode(bytes: seq<Byte>)
    ensures Decode(bytes) < Pow256(|bytes|)
    ensures Encode(Decode(bytes), |bytes|) == bytes
  {
    if bytes != [] {
      var front, last := bytes[..|bytes| - 1], bytes[|bytes| - 1];
      EncodeDecode(front);
      assert Decode(bytes) / 256 == Decode(front) && Decode(bytes) % 256 == last as nat;
      assert bytes == front + [last];
    }
  }

  /** The first byte is the most significant one. */
  lemma {:induction false} EncodeAt(n: nat, width: nat, i: nat)
    requires i < width
    ensures Encode(n, width)[i] as nat == n / Pow256(width - 1 - i) % 256
  {
    if i < width - 1 {
      EncodeAt(n / 256, width - 1, i);
      DivideTwice(n, Pow256(width - 2 - i));
    }
  }

  lemma DivideTwice(n: nat, p: nat)
    requires p > 0
    ensures n / 256 / p == n / (256 * p)
  {
    var q, r := n / 256, n % 256;
    var x, y := q / p, q % p;
    assert n == 256 * q + r && q == p * x + y;
    assert n == (256 * p) * x + (256 * y + r) by { Regroup(p, x, y); }
    assert 256 * y + r < 256 * p;
    Quotient(n, 256 * p, x, 256 * y + r);
  }

  lemma Regroup(p: nat, x: nat, y: nat)
    ensures 256 * (p * x + y) == (256 * p) * x + 256 * y
  {
  }

  lemma Quotient(n: nat, c: nat, x: nat, r: nat)
    requires n == c * x + r && r < c
    ensures n / c == x
  {
    var y := n / c;
    assert n == c * y + n % c;
    if y < x { Grows(c, y + 1, x); }
    if x < y { Grows(c, x + 1, y); }
  }

  lemma Grows(c: nat, a: nat, b: nat)
    requires a <= b
    ensures c * a <= c * b && c * a == c * (a - 1) + c
  {
  }
}
