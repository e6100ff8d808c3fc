/** Bytes, and struct.pack("<Q"). */
module ByteStrings {
  import opened Numbers

  newtype Byte = x: int | 0 <= x < 256

  type Bytes = seq<Byte>

  const NEWLINE: Byte := 10
  const SPACE: Byte := 32

  function Pow256(width: nat): (p: nat)
    ensures 0 < p
  {
    if width == 0 then 1 else 256 * Pow256(width - 1)
  }

  function LittleEndian(n: nat, width: nat): (b: Bytes)
    ensures |b| == width
  {
    if width == 0 then [] else [(n % 256) as Byte] + LittleEndian(n / 256, width - 1)
  }

  function FromLittleEndian(b: Bytes): nat {
    if b == [] then 0 else b[0] as nat + 256 * FromLittleEndian(b[1..])
  }

  /** The least significant byte comes first. */
  lemma {:induction false} LittleEndianBytes(n: nat, width: nat, k: nat)
    requires k < width
    ensures LittleEndian(n, width)[k] as nat == n / Pow256(k) % 256
  {
    if k > 0 {
      LittleEndianBytes(n / 256, width - 1, k - 1);
      DivideTwice(n, Pow256(k - 1));
    }
  }

  lemma DivideTwice(n: nat, p: nat)
    requires 0 < p
    ensures n / 256 / p == n / (256 * p)
  {
    var q, r := n / 256, n % 256;
    var a, b := q / p, q % p;
    assert q == a * p + b && n == 256 * q + r;
    assert a * (256 * p) == 256 * (a * p);
    QuotientIs(n, 256 * p, a);
  }

  lemma {:induction false} LittleEndianRoundTrips(n: nat, width: nat)
    requires n < Pow256(width)
    ensures FromLittleEndian(LittleEndian(n, width)) == n
  {
    if width > 0 {
      LittleEndianRoundTrips(n / 256, width - 1);
    }
  }
}
