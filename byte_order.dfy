/**
 * 64-bit host/network byte-order conversion (src/tools/Bytetransfrom.cpp).
 *
 * `ntoh64` and `hton64` byte-swap their argument on a little-endian host and
 * return it unchanged on a big-endian one. The host's byte order is a
 * compile-time property of the target; here it is a parameter.
 *
 * The reference meaning is stated through the byte layout of a value in
 * memory: network byte order is big-endian, so `hton64(v)` is the value whose
 * in-memory bytes are the big-endian bytes of `v`, and `ntoh64(x)` reads the
 * in-memory bytes of `x` as a big-endian number.
 */
module ByteOrder {

  datatype Endianness = LittleEndian | BigEndian

  /** The bytes of `x`, least significant first. */
  function LittleEndianBytes(x: bv64): (s: seq<bv8>)
    ensures |s| == 8
  {
    [ (x & 0xff) as bv8, ((x >> 8) & 0xff) as bv8, ((x >> 16) & 0xff) as bv8, ((x >> 24) & 0xff) as bv8,
      ((x >> 32) & 0xff) as bv8, ((x >> 40) & 0xff) as bv8, ((x >> 48) & 0xff) as bv8, ((x >> 56) & 0xff) as bv8 ]
  }

  /** Eight bytes in the opposite order. */
  function Reverse8(b: seq<bv8>): (s: seq<bv8>)
    requires |b| == 8
    ensures |s| == 8
    ensures forall i | 0 <= i < 8 :: s[i] == b[7 - i]
  {
    [b[7], b[6], b[5], b[4], b[3], b[2], b[1], b[0]]
  }

  lemma Reverse8Involution(b: seq<bv8>)
    requires |b| == 8
    ensures Reverse8(Reverse8(b)) == b
  {
  }

  /** The bytes of `x`, most significant first: network byte order. */
  function BigEndianBytes(x: bv64): (s: seq<bv8>)
    ensures |s| == 8
    ensures forall i | 0 <= i < 8 :: s[i] == LittleEndianBytes(x)[7 - i]
  {
    Reverse8(LittleEndianBytes(x))
  }

  /** How a host with byte order `host` lays `x` out in memory, lowest address first. */
  function MemoryBytes(x: bv64, host: Endianness): (s: seq<bv8>)
    ensures |s| == 8
  {
    match host
    case LittleEndian => LittleEndianBytes(x)
    case BigEndian => BigEndianBytes(x)
  }

  /** The value whose big-endian bytes are `s`. */
  function FromBigEndian(s: seq<bv8>): bv64
    requires |s| == 8
  {
    (s[0] as bv64 << 56) | (s[1] as bv64 << 48) | (s[2] as bv64 << 40) | (s[3] as bv64 << 32)
    | (s[4] as bv64 << 24) | (s[5] as bv64 << 16) | (s[6] as bv64 << 8) | (s[7] as bv64)
  }

  lemma FromBigEndianInverts(x: bv64)
    ensures FromBigEndian(BigEndianBytes(x)) == x
  {
  }

  /** glibc's `bswap_64`: the eight byte lanes of `x`, each moved to the mirrored lane. */
  function Bswap64(x: bv64): (r: bv64)
    ensures LittleEndianBytes(r) == Reverse8(LittleEndianBytes(x))
  {
    ((x & 0xff00000000000000) >> 56) | ((x & 0x00ff000000000000) >> 40)
    | ((x & 0x0000ff0000000000) >> 24) | ((x & 0x000000ff00000000) >> 8)
    | ((x & 0x00000000ff000000) << 8) | ((x & 0x0000000000ff0000) << 24)
    | ((x & 0x000000000000ff00) << 40) | ((x & 0x00000000000000ff) << 56)
  }

  /** `bswap_64` reverses the bytes: byte i of the result is byte 7 - i of the input. */
  lemma Bswap64ReversesBytes(x: bv64)
    ensures LittleEndianBytes(Bswap64(x)) == BigEndianBytes(x)
    ensures forall i | 0 <= i < 8 :: LittleEndianBytes(Bswap64(x))[i] == LittleEndianBytes(x)[7 - i]
  {
  }

  /** Network to host order: the in-memory bytes of `net64`, read in network order. */
  function Ntoh64(net64: bv64, host: Endianness): (r: bv64)
    ensures BigEndianBytes(r) == MemoryBytes(net64, host)
    ensures r == FromBigEndian(MemoryBytes(net64, host))
  {
    var r := if host == LittleEndian then Bswap64(net64) else net64;
    Bswap64ReversesBytes(net64);
    Reverse8Involution(LittleEndianBytes(net64));
    FromBigEndianInverts(r);
    r
  }

  /** Host to network order: a value whose in-memory bytes are `host64` in network order. */
  function Hton64(host64: bv64, host: Endianness): (r: bv64)
    ensures MemoryBytes(r, host) == BigEndianBytes(host64)
  {
    Bswap64ReversesBytes(host64);
    if host == LittleEndian then Bswap64(host64) else host64
  }

  /** Byte swapping is an involution. */
  lemma Bswap64Involution(x: bv64)
    ensures Bswap64(Bswap64(x)) == x
  {
  }

  /** The two directions compute the same function on either host. */
  lemma NtohIsHton(x: bv64, host: Endianness)
    ensures Ntoh64(x, host) == Hton64(x, host)
  {
  }

  /** On a big-endian host both conversions are the identity. */
  lemma BigEndianHostIsIdentity(x: bv64)
    ensures Ntoh64(x, BigEndian) == x && Hton64(x, BigEndian) == x
  {
  }

  /** On a little-endian host byte i of the result is byte 7 - i of the input. */
  lemma LittleEndianHostReversesBytes(x: bv64, i: nat)
    requires i < 8
    ensures LittleEndianBytes(Ntoh64(x, LittleEndian))[i] == LittleEndianBytes(x)[7 - i]
    ensures LittleEndianBytes(Hton64(x, LittleEndian))[i] == LittleEndianBytes(x)[7 - i]
  {
    Bswap64ReversesBytes(x);
  }

  /** Converting to network order and back gives the original value, on either host. */
  lemma RoundTrip(x: bv64, host: Endianness)
    ensures Ntoh64(Hton64(x, host), host) == x
    ensures Hton64(Ntoh64(x, host), host) == x
  {
    Bswap64Involution(x);
  }
}
