/**
 * Shared vocabulary of the model: fixed-width integers, the Pallas base
 * field, opaque curve values, and the cryptographic primitives that the
 * consensus code calls but whose internals are not modelled.
 *
 * The primitives are module constants of function type without a
 * definition: the model assumes nothing about them (not even injectivity),
 * so every property proved below holds for any choice of hash, commitment
 * or Merkle accumulator.
 */
module Primitives {

  datatype Option<+T> = None | Some(value: T)

  // Rust's fixed-width unsigned integers.
  const U32_MAX: int := 0xFFFF_FFFF
  const U64_MAX: int := 0xFFFF_FFFF_FFFF_FFFF
  type u8 = x: int | 0 <= x < 0x100
  type u32 = x: int | 0 <= x <= U32_MAX
  type u64 = x: int | 0 <= x <= U64_MAX

  /** The Pallas base field modulus (pallas::Base). */
  const P: int := 28948022309329048855892746252171976963363056481941560715954676764349967630337

  /** A canonical representative of an element of the Pallas base field. */
  type Fp = x: int | 0 <= x < P

  function FpAdd(a: Fp, b: Fp): Fp { (a + b) % P }

  function FpMul(a: Fp, b: Fp): Fp { (a * b) % P }

  /**
   * pallas::Base::from(u64), as a definition: the field element is the
   * value itself. The subset type checks that every 64-bit value is below
   * the modulus.
   */
  function FpFromU64(v: u64): Fp
  {
    v
  }

  /** An element of the Pallas scalar field; its arithmetic is never used here. */
  datatype Scalar = Scalar(repr: nat)

  /** A point of the Pallas curve, only ever passed to the primitives below. */
  datatype Point = Point(id: nat)

  /** A Merkle tree node wraps one base-field element. */
  datatype MerkleNode = MerkleNode(inner: Fp)

  /** MERKLE_DEPTH_ORCHARD, the depth of every incremental Merkle tree. */
  const MERKLE_DEPTH_ORCHARD: nat

  /** A fixed-size authentication path `[MerkleNode; MERKLE_DEPTH_ORCHARD]`. */
  type AuthPath = s: seq<MerkleNode> | |s| == MERKLE_DEPTH_ORCHARD
    witness seq(MERKLE_DEPTH_ORCHARD, _ => MerkleNode(0))

  /** Poseidon (P128Pow5T3) over a constant-length message; the length is that of the sequence. */
  const Poseidon: seq<Fp> -> Fp

  /** pedersen_commitment_u64(value, blind). */
  const PedersenU64: (u64, Scalar) -> Point

  /** pedersen_commitment_base(value, blind). */
  const PedersenBase: (Fp, Scalar) -> Point

  /** Affine (x, y) coordinates of a point. */
  const Coordinates: Point -> (Fp, Fp)

  /** mod_r_p: reinterpret a base-field element as a scalar. */
  const ModRP: Fp -> Scalar

  /** The public key of a secret key (Keypair::new). */
  const PublicKeyOf: Fp -> Point

  /**
   * The root of an incremental Merkle tree (BridgeTree) holding exactly the
   * given leaves, in insertion order.
   */
  const TreeRoot: seq<MerkleNode> -> MerkleNode

  /** The authentication path of the leaf at a position, against TreeRoot of the same leaves. */
  const TreeAuthPath: (seq<MerkleNode>, nat) -> AuthPath
}
