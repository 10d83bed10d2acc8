/** Little-endian byte encoding of unsigned integers (`u64::to_le_bytes`), used for the
    deployer's instantiation salt. */
module LeBytes {
  import opened Runtime

  function Pow256(n: nat): (r: nat)
    ensures r >= 1
  {
    if n == 0 then 1 else 256 * Pow256(n - 1)
  }

  /** The `n` low-order bytes of `x`, least significant first. */
  function Encode(x: nat, n: nat): (r: Bytes)
    ensures |r| == n
  {
    if n == 0 then [] else [x % 256] + Encode(x / 256, n - 1)
  }

  /** Reads bytes back as a little-endian number. */
  function Decode(b: Bytes): (r: nat)
    ensures r < Pow256(|b|)
  {
    if b == [] then 0 else b[0] + 256 * Decode(b[1..])
  }

  lemma {:induction false} DecodeEncode(x: nat, n: nat)
    requires x < Pow256(n)
    ensures Decode(Encode(x, n)) == x
  {
    if n > 0 {
      var lo, hi := x % 256, x / 256;
      DivMod256(lo, hi);
      assert x == lo + 256 * hi;
      var e := Encode(x, n);
      assert e[0] == lo;
      assert e[1..] == Encode(hi, n - 1);
      DecodeEncode(hi, n - 1);
    }
  }

  lemma {:induction false} EncodeDecode(b: Bytes)
    ensures Encode(Decode(b), |b|) == b
  {
    if b != [] {
      var lo, hi := b[0], Decode(b[1..]);
      assert Decode(b) == lo + 256 * hi;
      DivMod256(lo, hi);
      EncodeDecode(b[1..]);
    }
  }

  /** Splitting a number into its low byte and the rest. */
  lemma DivMod256(lo: nat, hi: nat)
    requires lo < 256
    ensures (lo + 256 * hi) % 256 == lo
    ensures (lo + 256 * hi) / 256 == hi
  {
  }

  /** `salt.to_le_bytes()`: eight bytes from which the salt can be read back. */
  function ToLeBytes(salt: U64): (r: Bytes)
    ensures |r| == 8
    ensures Decode(r) == salt
  {
    assert Pow256(8) == U64_MAX + 1;
    DecodeEncode(salt, 8);
    Encode(salt, 8)
  }
}
