/**
  Shared vocabulary of the model: bytes, digests, identities, results.

  A cryptographic hash is never interpreted outside the `Sha256` module. Every
  definition that hashes takes the hash as a parameter of type `HashFn`, so what
  is proved holds of any hash function whatsoever and no collision-freedom is
  assumed anywhere.
 */
module Types {

  type byte = x: int | 0 <= x < 0x100
  type Bytes = seq<byte>

  const DIGEST_BYTES := 32
  type Digest = d: Bytes | |d| == DIGEST_BYTES witness seq(DIGEST_BYTES, _ => 0)
  type HashFn = Bytes -> Digest

  const ID_BYTES := 16
  /** MovementId, TransferAttemptId and BootId: sixteen bytes. */
  type Id16 = d: Bytes | |d| == ID_BYTES witness seq(ID_BYTES, _ => 0)

  const U16_LIMIT := 0x1_0000
  const U32_LIMIT := 0x1_0000_0000
  const U64_LIMIT := 0x1_0000_0000_0000_0000
  type u16 = x: int | 0 <= x < U16_LIMIT
  type u32 = x: int | 0 <= x < U32_LIMIT
  type u64 = x: int | 0 <= x < U64_LIMIT
  type i64 = x: int | -0x8000_0000_0000_0000 <= x < 0x8000_0000_0000_0000

  datatype Option<+T> = None | Some(value: T)

  /** `is_zero`: every byte is zero. */
  predicate IsZero(d: Bytes) {
    forall i | 0 <= i < |d| :: d[i] == 0
  }

  function Zeros(n: nat): (z: Bytes)
    ensures |z| == n && IsZero(z)
  {
    seq(n, _ => 0)
  }
}
