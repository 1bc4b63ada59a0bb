/** The byte strings the driver clocks out between one CSN-low and the next CSN-high
    (src/rf24.c:145-170, 230-251, 403-472, 522-547), and the little-endian
    encoding of the 5-byte pipe addresses it keeps in a `uint64`. */
module Frames {
  import opened Nrf24

  /** A 5-byte address register value, least-significant byte first. */
  type Address = s: seq<byte> | |s| == 5 witness [0, 0, 0, 0, 0]

  /** The 40 bits of a `uint64` address that reach the chip. */
  const ADDRESS_MASK: bv64 := 0xFF_FFFF_FFFF

  /** `n` copies of `x`: the padding and dummy bytes of a frame. */
  function Repeat<T>(x: T, n: nat): (r: seq<T>)
    ensures |r| == n
    ensures forall i :: 0 <= i < n ==> r[i] == x
  {
    if n == 0 then [] else Repeat(x, n - 1) + [x]
  }

  /** Byte `i` of a `uint64` as stored on a little-endian host. */
  function AddressByte(a: bv64, i: nat): byte
    requires i < 5
  {
    var shifted := if i == 0 then a else if i == 1 then a >> 8 else if i == 2 then a >> 16
                   else if i == 3 then a >> 24 else a >> 32;
    (shifted & 0xFF) as byte
  }

  /** The `uint64` that rf24_read_address assembles from the five bytes it reads
      into the low bytes of a zeroed variable (src/rf24.c:415-429). */
  function AddressValue(bs: Address): (a: bv64)
    ensures a & !ADDRESS_MASK == 0
    ensures AddressByte(a, 0) == bs[0] && AddressByte(a, 1) == bs[1] && AddressByte(a, 2) == bs[2]
    ensures AddressByte(a, 3) == bs[3] && AddressByte(a, 4) == bs[4]
  {
    (bs[0] as bv64) | ((bs[1] as bv64) << 8) | ((bs[2] as bv64) << 16)
    | ((bs[3] as bv64) << 24) | ((bs[4] as bv64) << 32)
  }

  /** The five bytes rf24_write_address sends for `a` (src/rf24.c:431-445):
      the low five bytes, least-significant first. */
  function AddressBytes(a: bv64): Address {
    [AddressByte(a, 0), AddressByte(a, 1), AddressByte(a, 2), AddressByte(a, 3), AddressByte(a, 4)]
  }

  /** Reading back what was written gives the address with its top three bytes
      dropped. */
  lemma AddressValueOfBytes(a: bv64)
    ensures AddressValue(AddressBytes(a)) == a & ADDRESS_MASK
  {
  }

  /** Writing an address and reading it back returns it unchanged, whatever bytes
      are written: the encoding is a bijection between Address and 40-bit values. */
  lemma AddressBytesOfValue(bs: Address)
    ensures AddressBytes(AddressValue(bs)) == bs
  {
    var a := AddressValue(bs);
    assert AddressBytes(a)[..5] == bs[..5];
  }

  /** Two `uint64` addresses are written identically iff their low 40 bits agree. */
  lemma AddressBytesInjective(a: bv64, b: bv64)
    ensures AddressBytes(a) == AddressBytes(b) <==> a & ADDRESS_MASK == b & ADDRESS_MASK
  {
    AddressValueOfBytes(a);
    AddressValueOfBytes(b);
    if AddressBytes(a) == AddressBytes(b) {
      assert AddressValue(AddressBytes(a)) == AddressValue(AddressBytes(b));
    }
  }

  /** R_REGISTER | reg, then one dummy 0xFF (src/rf24.c:403-413). */
  function ReadRegisterFrame(r: byte): seq<byte> {
    [R_REGISTER | (REGISTER_MASK & r), 0xFF]
  }

  /** W_REGISTER | reg, then the value (src/rf24.c:452-462). */
  function WriteRegisterFrame(r: byte, v: byte): seq<byte> {
    [W_REGISTER | (REGISTER_MASK & r), v]
  }

  /** R_REGISTER | reg, then five dummy 0xFF (src/rf24.c:415-429). */
  function ReadAddressFrame(r: byte): seq<byte> {
    [R_REGISTER | (REGISTER_MASK & r)] + Repeat(0xFF, 5)
  }

  /** W_REGISTER | reg, then the five address bytes (src/rf24.c:431-445). */
  function WriteAddressFrame(r: byte, a: bv64): seq<byte> {
    [W_REGISTER | (REGISTER_MASK & r)] + AddressBytes(a)
  }

  /** The ACTIVATE sequence of rf24_enable_features (src/rf24.c:522-528). */
  function ActivateFrame(): seq<byte> {
    [ACTIVATE, ACTIVATE_KEY]
  }

  /** R_RX_PAYLOAD, then `n` dummy 0xFF (src/rf24.c:238-248). */
  function ReceiveFrame(n: nat): (f: seq<byte>)
    ensures |f| == 1 + n && f[0] == R_RX_PAYLOAD
    ensures forall i :: 1 <= i < |f| ==> f[i] == 0xFF
  {
    [R_RX_PAYLOAD] + Repeat(0xFF, n)
  }

  /** One more dummy byte extends a receive frame by one. */
  lemma ReceiveFrameGrows(n: nat)
    ensures ReceiveFrame(n) + [0xFF] == ReceiveFrame(n + 1)
  {
    assert Repeat(0xFF, n + 1) == Repeat(0xFF, n) + [0xFF];
  }

  /** The payload frame of rf24_write_payload (src/rf24.c:156-168): the command,
      the caller's bytes, then `blanks` zero bytes, which only W_TX_PAYLOAD pads. */
  function PayloadFrame(cmd: byte, buf: seq<byte>, blanks: nat): (f: seq<byte>)
    ensures |f| == 1 + |buf| + (if cmd == W_TX_PAYLOAD then blanks else 0)
    ensures f[0] == cmd && f[1..1 + |buf|] == buf
    ensures forall i :: 1 + |buf| <= i < |f| ==> f[i] == 0
  {
    [cmd] + buf + (if cmd == W_TX_PAYLOAD then Repeat(0, blanks) else [])
  }

  /** The padding count of rf24_write_payload (src/rf24.c:153), in `uint8_t`
      arithmetic: none once `dynamic_payloads_enabled` is non-zero at all. */
  function TxBlanks(dyn: byte, payloadSize: byte, len: nat): (n: nat)
    requires len <= 255
    ensures dyn != 0 ==> n == 0
    ensures dyn == 0 && len <= payloadSize as int ==> len + n == payloadSize as int
    ensures n < 256
  {
    if dyn != 0 then 0 else (payloadSize as int - len) % 256
  }

  /** The padding count of rf24_receive (src/rf24.c:236), in `uint8_t` arithmetic:
      none only when `dynamic_payloads_enabled` is exactly 1, so a read longer than
      the fixed size in any other mode wraps round to a long drain. */
  function RxBlanks(dyn: byte, payloadSize: byte, len: nat): (n: nat)
    requires len <= 255
    ensures dyn == 1 ==> n == 0
    ensures dyn != 1 && len <= payloadSize as int ==> len + n == payloadSize as int
    ensures dyn != 1 && len > payloadSize as int ==> len + n == payloadSize as int + 256
    ensures n < 256
  {
    if dyn == 1 then 0 else (payloadSize as int - len) % 256
  }
}
