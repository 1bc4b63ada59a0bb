/** Command bytes, register addresses and bit masks of the nRF24L01(+) transceiver.

    Values are those of the Nordic nRF24L01+ Product Specification v1.0:
    section 8.3.1 (SPI command set) and section 9.1 (register map). ACTIVATE is
    the command of the original nRF24L01 (Product Specification v2.0, section 8.3.1),
    which the plus variant no longer needs. Bit masks are named after the bit they
    select and hold `1 << position`, as the driver's `_BV(...)` does. */
module Nrf24 {

  /** One byte on the bus or in a chip register. */
  type byte = bv8

  // SPI commands
  const R_REGISTER: byte := 0x00      // 000A_AAAA
  const W_REGISTER: byte := 0x20      // 001A_AAAA
  const REGISTER_MASK: byte := 0x1F
  const ACTIVATE: byte := 0x50
  const ACTIVATE_KEY: byte := 0x73
  const R_RX_PL_WID: byte := 0x60
  const R_RX_PAYLOAD: byte := 0x61
  const W_TX_PAYLOAD: byte := 0xA0
  const W_ACK_PAYLOAD: byte := 0xA8   // 1010_1PPP
  const FLUSH_TX: byte := 0xE1
  const FLUSH_RX: byte := 0xE2
  const NOP: byte := 0xFF

  // Register map
  const CONFIG: byte := 0x00
  const EN_AA: byte := 0x01
  const EN_RXADDR: byte := 0x02
  const SETUP_RETR: byte := 0x04
  const RF_CH: byte := 0x05
  const RF_SETUP: byte := 0x06
  const STATUS: byte := 0x07
  const OBSERVE_TX: byte := 0x08
  const RX_ADDR_P0: byte := 0x0A
  const RX_ADDR_P1: byte := 0x0B
  const RX_ADDR_P2: byte := 0x0C
  const RX_ADDR_P3: byte := 0x0D
  const RX_ADDR_P4: byte := 0x0E
  const RX_ADDR_P5: byte := 0x0F
  const TX_ADDR: byte := 0x10
  const RX_PW_P0: byte := 0x11
  const RX_PW_P1: byte := 0x12
  const RX_PW_P2: byte := 0x13
  const RX_PW_P3: byte := 0x14
  const RX_PW_P4: byte := 0x15
  const RX_PW_P5: byte := 0x16
  const FIFO_STATUS: byte := 0x17
  const DYNPD: byte := 0x1C
  const FEATURE: byte := 0x1D

  // CONFIG bits
  const MASK_RX_DR: byte := 0x40
  const MASK_TX_DS: byte := 0x20
  const MASK_MAX_RT: byte := 0x10
  const EN_CRC: byte := 0x08
  const CRCO: byte := 0x04
  const PWR_UP: byte := 0x02
  const PRIM_RX: byte := 0x01

  // STATUS bits; RX_P_NO occupies bits 3..1
  const RX_DR: byte := 0x40
  const TX_DS: byte := 0x20
  const MAX_RT: byte := 0x10
  const RX_P_NO_SHIFT: byte := 1
  const TX_FULL: byte := 0x01
  /** The three event flags, cleared by writing 1 to them. */
  const EVENT_FLAGS: byte := 0x70

  // FIFO_STATUS bits
  const FIFO_TX_FULL: byte := 0x20
  const TX_EMPTY: byte := 0x10
  const RX_FULL: byte := 0x02
  const RX_EMPTY: byte := 0x01

  // RF_SETUP bits
  const RF_DR_LOW: byte := 0x20
  const RF_DR_HIGH: byte := 0x08
  const RF_PWR_HIGH: byte := 0x04
  const RF_PWR_LOW: byte := 0x02

  // SETUP_RETR fields: ARD in bits 7..4, ARC in bits 3..0
  const ARD: byte := 4
  const ARC: byte := 0

  // OBSERVE_TX fields: PLOS_CNT in bits 7..4, ARC_CNT in bits 3..0
  const PLOS_CNT_SHIFT: byte := 4
  const ARC_CNT_BITS: byte := 0x0F

  // FEATURE bits
  const EN_DPL: byte := 0x04
  const EN_ACK_PAY: byte := 0x02

  // DYNPD bits
  const DPL_P0: byte := 0x01
  const DPL_ALL_PIPES: byte := 0x3F

  /** The three 5-byte address registers; RX_ADDR_P2..P5 hold one byte each. */
  predicate IsAddressRegister(r: byte) {
    r == RX_ADDR_P0 || r == RX_ADDR_P1 || r == TX_ADDR
  }

  /** The address register of pipe `p`: the driver's `pipe_address_registers`, whose
      entries are consecutive. */
  function PipeAddressRegister(p: byte): (r: byte)
    requires p <= 5
    ensures p <= 1 <==> IsAddressRegister(r)
    ensures r & REGISTER_MASK == r && RX_ADDR_P0 <= r <= RX_ADDR_P5
  {
    RX_ADDR_P0 + p
  }

  /** The payload width register of pipe `p`: the driver's
      `pipe_payload_size_registers`, whose entries are consecutive. */
  function PipeWidthRegister(p: byte): (r: byte)
    requires p <= 5
    ensures r & REGISTER_MASK == r && RX_PW_P0 <= r <= RX_PW_P5
  {
    RX_PW_P0 + p
  }

  /** The enable bit of pipe `p` in EN_RXADDR, EN_AA and DYNPD (ERX_Pn, ENAA_Pn, DPL_Pn are bit n). */
  function PipeBit(p: byte): (m: byte)
    requires p <= 5
    ensures m != 0 && m & (m - 1) == 0
    ensures m & 0xC0 == 0
  {
    (1 as byte) << p
  }

  /** Distinct pipes have distinct registers and disjoint enable bits, so setting
      or clearing one pipe's bit keeps every other pipe's. */
  lemma PipesDistinct(p: byte, q: byte)
    requires p <= 5 && q <= 5 && p != q
    ensures PipeBit(p) & PipeBit(q) == 0
    ensures PipeAddressRegister(p) != PipeAddressRegister(q)
    ensures PipeWidthRegister(p) != PipeWidthRegister(q)
  {
  }
}
