/** Byte-order helpers for the console's big-endian PowerPC host.

    A value's bytes are given most significant first (BigEndianBytes) and least
    significant first (LittleEndianBytes). On this host a value is laid out in
    memory most significant byte first, so HostBytes is its big-endian encoding.
    Every conversion is specified by the memory layout it produces or reads. */
module Endian {

  function BigEndianBytes16(x: bv16): seq<bv8> {
    [(x >> 8) as bv8, (x & 0xFF) as bv8]
  }

  function LittleEndianBytes16(x: bv16): seq<bv8> {
    [(x & 0xFF) as bv8, (x >> 8) as bv8]
  }

  function BigEndianBytes32(x: bv32): seq<bv8> {
    [(x >> 24) as bv8, ((x >> 16) & 0xFF) as bv8, ((x >> 8) & 0xFF) as bv8, (x & 0xFF) as bv8]
  }

  function LittleEndianBytes32(x: bv32): seq<bv8> {
    [(x & 0xFF) as bv8, ((x >> 8) & 0xFF) as bv8, ((x >> 16) & 0xFF) as bv8, (x >> 24) as bv8]
  }

  function BigEndianBytes64(x: bv64): seq<bv8> {
    [(x >> 56) as bv8, ((x >> 48) & 0xFF) as bv8, ((x >> 40) & 0xFF) as bv8, ((x >> 32) & 0xFF) as bv8,
     ((x >> 24) & 0xFF) as bv8, ((x >> 16) & 0xFF) as bv8, ((x >> 8) & 0xFF) as bv8, (x & 0xFF) as bv8]
  }

  function LittleEndianBytes64(x: bv64): seq<bv8> {
    [(x & 0xFF) as bv8, ((x >> 8) & 0xFF) as bv8, ((x >> 16) & 0xFF) as bv8, ((x >> 24) & 0xFF) as bv8,
     ((x >> 32) & 0xFF) as bv8, ((x >> 40) & 0xFF) as bv8, ((x >> 48) & 0xFF) as bv8, (x >> 56) as bv8]
  }

  /** How this big-endian host stores a value in memory. */
  function HostBytes16(x: bv16): seq<bv8> { BigEndianBytes16(x) }
  function HostBytes32(x: bv32): seq<bv8> { BigEndianBytes32(x) }
  function HostBytes64(x: bv64): seq<bv8> { BigEndianBytes64(x) }

  // Byte swaps: byte i of the result is byte (n - 1 - i) of the argument.

  function Bswap16(x: bv16): (r: bv16)
    ensures var b := HostBytes16(x); HostBytes16(r) == [b[1], b[0]]
  {
    (x << 8) | (x >> 8)
  }

  function Bswap32(x: bv32): (r: bv32)
    ensures var b := HostBytes32(x); HostBytes32(r) == [b[3], b[2], b[1], b[0]]
  {
    (x << 24) | ((x << 8) & 0x00FF_0000) | ((x >> 8) & 0x0000_FF00) | (x >> 24)
  }

  function Bswap64(x: bv64): (r: bv64)
    ensures var b := HostBytes64(x); HostBytes64(r) == [b[7], b[6], b[5], b[4], b[3], b[2], b[1], b[0]]
  {
    (x << 56)
    | ((x << 40) & 0x00FF_0000_0000_0000)
    | ((x << 24) & 0x0000_FF00_0000_0000)
    | ((x << 8) & 0x0000_00FF_0000_0000)
    | ((x >> 8) & 0x0000_0000_FF00_0000)
    | ((x >> 24) & 0x0000_0000_00FF_0000)
    | ((x >> 40) & 0x0000_0000_0000_FF00)
    | (x >> 56)
  }

  // Big-endian conversions: host order already is big-endian order.

  /** big16 as stored is the big-endian encoding of the result. */
  function Be16toh(big16: bv16): (r: bv16)
    ensures BigEndianBytes16(r) == HostBytes16(big16)
  {
    big16
  }

  function Be32toh(big32: bv32): (r: bv32)
    ensures BigEndianBytes32(r) == HostBytes32(big32)
  {
    big32
  }

  function Be64toh(big64: bv64): (r: bv64)
    ensures BigEndianBytes64(r) == HostBytes64(big64)
  {
    big64
  }

  /** The result, as stored, is the big-endian encoding of host16. */
  function Htobe16(host16: bv16): (r: bv16)
    ensures HostBytes16(r) == BigEndianBytes16(host16)
  {
    host16
  }

  function Htobe32(host32: bv32): (r: bv32)
    ensures HostBytes32(r) == BigEndianBytes32(host32)
  {
    host32
  }

  function Htobe64(host64: bv64): (r: bv64)
    ensures HostBytes64(r) == BigEndianBytes64(host64)
  {
    host64
  }

  // Little-endian conversions: a byte swap on this host.

  /** The result, as stored, is the little-endian encoding of host16. */
  function Htole16(host16: bv16): (r: bv16)
    ensures HostBytes16(r) == LittleEndianBytes16(host16)
  {
    Bswap16(host16)
  }

  function Htole32(host32: bv32): (r: bv32)
    ensures HostBytes32(r) == LittleEndianBytes32(host32)
  {
    Bswap32(host32)
  }

  function Htole64(host64: bv64): (r: bv64)
    ensures HostBytes64(r) == LittleEndianBytes64(host64)
  {
    Bswap64(host64)
  }

  /** little16 as stored is the little-endian encoding of the result. */
  function Le16toh(little16: bv16): (r: bv16)
    ensures LittleEndianBytes16(r) == HostBytes16(little16)
  {
    Bswap16(little16)
  }

  function Le32toh(little32: bv32): (r: bv32)
    ensures LittleEndianBytes32(r) == HostBytes32(little32)
  {
    Bswap32(little32)
  }

  function Le64toh(little64: bv64): (r: bv64)
    ensures LittleEndianBytes64(r) == HostBytes64(little64)
  {
    Bswap64(little64)
  }

  // Properties relating the conversions.

  lemma BswapReversesBytes16(x: bv16)
    ensures forall i :: 0 <= i < 2 ==> HostBytes16(Bswap16(x))[i] == HostBytes16(x)[1 - i]
  {
    var b := HostBytes16(x);
    assert HostBytes16(Bswap16(x)) == [b[1], b[0]];
  }

  lemma BswapReversesBytes32(x: bv32)
    ensures forall i :: 0 <= i < 4 ==> HostBytes32(Bswap32(x))[i] == HostBytes32(x)[3 - i]
  {
    var b := HostBytes32(x);
    assert HostBytes32(Bswap32(x)) == [b[3], b[2], b[1], b[0]];
  }

  lemma BswapReversesBytes64(x: bv64)
    ensures forall i :: 0 <= i < 8 ==> HostBytes64(Bswap64(x))[i] == HostBytes64(x)[7 - i]
  {
    var b, r := HostBytes64(x), HostBytes64(Bswap64(x));
    assert r == [b[7], b[6], b[5], b[4], b[3], b[2], b[1], b[0]];
    forall i | 0 <= i < 8
      ensures r[i] == b[7 - i]
    {
    }
  }

  lemma BswapInvolution(a: bv16, b: bv32, c: bv64)
    ensures Bswap16(Bswap16(a)) == a
    ensures Bswap32(Bswap32(b)) == b
    ensures Bswap64(Bswap64(c)) == c
  {
  }

  lemma BigEndianIsIdentity(a: bv16, b: bv32, c: bv64)
    ensures Be16toh(a) == a && Htobe16(a) == a
    ensures Be32toh(b) == b && Htobe32(b) == b
    ensures Be64toh(c) == c && Htobe64(c) == c
  {
  }

  lemma LittleEndianIsBswap(a: bv16, b: bv32, c: bv64)
    ensures Htole16(a) == Bswap16(a) && Le16toh(a) == Bswap16(a)
    ensures Htole32(b) == Bswap32(b) && Le32toh(b) == Bswap32(b)
    ensures Htole64(c) == Bswap64(c) && Le64toh(c) == Bswap64(c)
  {
  }

  lemma LittleEndianRoundTrip(a: bv16, b: bv32, c: bv64)
    ensures Le16toh(Htole16(a)) == a && Htole16(Le16toh(a)) == a
    ensures Le32toh(Htole32(b)) == b && Htole32(Le32toh(b)) == b
    ensures Le64toh(Htole64(c)) == c && Htole64(Le64toh(c)) == c
  {
  }

  lemma BigToLittleIsBswap(a: bv16, b: bv32, c: bv64)
    ensures Htole16(Htobe16(a)) == Bswap16(a)
    ensures Htole32(Htobe32(b)) == Bswap32(b)
    ensures Htole64(Htobe64(c)) == Bswap64(c)
  {
  }
}
