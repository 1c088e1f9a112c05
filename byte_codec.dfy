/** Bytes, fixed-size byte arrays and the big-endian integer encoding that Go's
    `binary.Write(w, binary.BigEndian, v)` and `big.Int.FillBytes` produce. */
module ByteCodec {

  type Byte = x: int | 0 <= x < 256
  type Bytes = seq<Byte>

  /** `[32]byte` (`common.Hash`) and `[20]byte` (`common.Address`). */
  type Hash = s: Bytes | |s| == 32 witness Zeros(32)
  type Address = s: Bytes | |s| == 20 witness Zeros(20)

  const MaxUint32: nat := 0xFFFF_FFFF
  const MaxUint64: nat := 0xFFFF_FFFF_FFFF_FFFF

  type Uint32 = x: int | 0 <= x <= MaxUint32
  type Uint64 = x: int | 0 <= x <= MaxUint64

  function Zeros(n: nat): (r: Bytes)
    ensures |r| == n && forall i | 0 <= i < n :: r[i] == 0
  {
    seq(n, _ => 0)
  }

  function Pow256(n: nat): (r: nat)
    ensures r >= 1
  {
    if n == 0 then 1 else 256 * Pow256(n - 1)
  }

  /** The low `n` bytes of `v`, most significant first. */
  function BigEndian(v: nat, n: nat): (r: Bytes)
    ensures |r| == n
  {
    if n == 0 then [] else BigEndian(v / 256, n - 1) + [v % 256]
  }

  /** The value of a big-endian byte string. */
  function FromBigEndian(s: Bytes): nat {
    if s == [] then 0 else FromBigEndian(s[..|s| - 1]) * 256 + s[|s| - 1]
  }

  /** Eight bytes, as `binary.Write` writes a `uint64`. */
  function Be64(v: Uint64): (r: Bytes)
    ensures |r| == 8
  {
    BigEndian(v, 8)
  }

  lemma {:induction false} DivBound(v: nat, p: nat)
    requires v < 256 * p
    ensures v / 256 < p
  {
  }

  /** Decoding the `n`-byte big-endian encoding of a value that fits gives the value back. */
  lemma {:induction false} BigEndianRoundTrip(v: nat, n: nat)
    requires v < Pow256(n)
    ensures FromBigEndian(BigEndian(v, n)) == v
  {
    if n > 0 {
      DivBound(v, Pow256(n - 1));
      BigEndianRoundTrip(v / 256, n - 1);
      var s := BigEndian(v, n);
      assert s[..|s| - 1] == BigEndian(v / 256, n - 1);
    }
  }

  /** A value that fits in `n` bytes is determined by its encoding. */
  lemma BigEndianInjective(v: nat, w: nat, n: nat)
    requires v < Pow256(n) && w < Pow256(n)
    requires BigEndian(v, n) == BigEndian(w, n)
    ensures v == w
  {
    BigEndianRoundTrip(v, n);
    BigEndianRoundTrip(w, n);
  }

  lemma Pow256Eight()
    ensures Pow256(8) == MaxUint64 + 1
  {
    assert Pow256(4) == 0x1_0000_0000;
  }

  /** The eight-byte encoding of a uint64 decodes back to it. */
  lemma Be64RoundTrip(v: Uint64)
    ensures FromBigEndian(Be64(v)) == v
  {
    Pow256Eight();
    BigEndianRoundTrip(v, 8);
  }
}
