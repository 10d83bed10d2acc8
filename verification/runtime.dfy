/** Primitive types of the ink! execution environment and the outcome of a contract call.
    Rust's `u128` and `u64` are written out as bounded subsets of `nat`, account ids and
    hashes are 32-byte sequences, and a call either returns (with the storage it leaves
    behind) or traps, in which case the runtime reverts everything it did. */
module Runtime {

  type Byte = x: nat | x < 256
  type Bytes = seq<Byte>

  const U128_MAX: nat := 0xFFFF_FFFF_FFFF_FFFF_FFFF_FFFF_FFFF_FFFF
  const U64_MAX: nat := 0xFFFF_FFFF_FFFF_FFFF

  type U128 = x: nat | x <= U128_MAX
  type U64 = x: nat | x <= U64_MAX

  /** The runtime's 32-byte account identifier. */
  type AccountId = b: Bytes | |b| == 32 witness seq(32, _ => 0)

  /** The runtime's 32-byte hash (used for code hashes and for resolver names). */
  type Hash = b: Bytes | |b| == 32 witness seq(32, _ => 0)

  datatype Option<+T> = None | Some(value: T)

  datatype Result<+T, +E> = Ok(value: T) | Err(error: E)

  /** What a contract call ends with: it returns `ret` leaving storage `post`, or it
      panics (`unwrap` of `None`, a failed instantiation) and the runtime rolls it back. */
  datatype Exec<+S, +R> = Done(post: S, ret: R) | Trapped

  /** `u128::checked_add`. */
  function CheckedAdd(a: U128, b: U128): (r: Option<U128>)
    ensures r.Some? <==> a + b <= U128_MAX
    ensures r.Some? ==> r.value == a + b
  {
    if a + b <= U128_MAX then Some(a + b) else None
  }

  /** `u128::checked_sub`. */
  function CheckedSub(a: U128, b: U128): (r: Option<U128>)
    ensures r.Some? <==> b <= a
    ensures r.Some? ==> r.value == a - b
  {
    if b <= a then Some(a - b) else None
  }
}
