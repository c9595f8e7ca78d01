/** Primitive types shared by the trusted operation engine: bytes, 32-byte
    identifiers, the u32 account index and the encointer scheduling types. */
module Types {

  newtype byte = x: int | 0 <= x < 256

  type Bytes = seq<byte>

  /** A fixed 32-byte value: AccountId32, H256 shard identifiers, mrenclave. */
  type Hash32 = s: Bytes | |s| == 32 witness seq(32, _ => 0 as byte)

  type AccountId = Hash32

  type ShardIdentifier = Hash32

  type MrEnclave = Hash32

  /** The account index (nonce) type of the sidechain runtime, a u32. */
  newtype u32 = x: int | 0 <= x < 0x1_0000_0000

  type Index = u32

  /** Balances are u128 in the runtime; the model keeps them unbounded. */
  type Balance = nat

  /** Two-byte pallet/call index used to address the unshield call on the parentchain. */
  type CallIndex = s: Bytes | |s| == 2 witness [0, 0]

  datatype Option<+T> = None | Some(value: T)

  datatype Result<+T, +E> = Ok(value: T) | Err(error: E)

  /** Encointer community identifier: a geohash and a digest. */
  datatype CommunityIdentifier = CommunityIdentifier(geohash: Bytes, digest: Bytes)

  type CeremonyIndexType = u32

  /** A (community, ceremony index) pair, the key of every per-ceremony registry. */
  type CommunityCeremony = (CommunityIdentifier, CeremonyIndexType)

  /** Encointer ceremony phases, in their declaration order. */
  datatype CeremonyPhaseType = Registering | Assigning | Attesting

  /** The 32-byte zero value (`[0u8; 32]`, `ShardIdentifier::default()`). */
  const ZERO_HASH: Hash32 := seq(32, _ => 0 as byte)
}

/** SCALE encoding of the fixed-width u32: four bytes, little-endian. */
module Scale {
  import opened Types

  function EncodeU32(n: u32): (b: Bytes)
    ensures |b| == 4
  {
    var x := n as int;
    [(x % 256) as byte, (x / 0x100 % 256) as byte, (x / 0x1_0000 % 256) as byte, (x / 0x100_0000) as byte]
  }

  function DecodeU32(b: Bytes): (n: u32)
    requires |b| == 4
  {
    (b[0] as int + 0x100 * b[1] as int + 0x1_0000 * b[2] as int + 0x100_0000 * b[3] as int) as u32
  }

  lemma DecodeEncodeU32(n: u32)
    ensures DecodeU32(EncodeU32(n)) == n
  {
    var x := n as int;
    var b := EncodeU32(n);
    assert b[0] as int == x % 256;
    assert b[1] as int == x / 0x100 % 256;
    assert b[2] as int == x / 0x1_0000 % 256;
    assert b[3] as int == x / 0x100_0000;
    assert x == x % 256 + 0x100 * (x / 0x100);
    assert x / 0x100 == x / 0x100 % 256 + 0x100 * (x / 0x1_0000);
    assert x / 0x1_0000 == x / 0x1_0000 % 256 + 0x100 * (x / 0x100_0000);
  }

  /** Distinct nonces never share an encoding. */
  lemma EncodeU32Injective(n: u32, m: u32)
    requires EncodeU32(n) == EncodeU32(m)
    ensures n == m
  {
    DecodeEncodeU32(n);
    DecodeEncodeU32(m);
  }
}
