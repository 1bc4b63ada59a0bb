/** The transceiver on the far side of the bus, as the driver sees it: registers
    that answer reads and take writes, three 5-byte address registers, the receive
    and transmit FIFOs, and the feature-activation latch of the original nRF24L01.

    Every bus frame (the bytes clocked between CSN low and CSN high) is one call of
    `Response` per byte and, at CSN high, one call of `Apply`. What happens over
    the air (a packet arriving, a transmission finishing) is `Deliver` and
    `TransmitDone`; nothing else changes the chip. */
module Chip {
  import opened Nrf24
  import opened Frames

  /** A received payload: at most 32 bytes (nRF24L01+ section 7.3.4). */
  type Payload = s: seq<byte> | |s| <= 32

  /** A receive pipe number. */
  type Pipe = p: byte | p <= 5

  /** A packet waiting in the RX FIFO, tagged with the pipe that received it. */
  datatype Packet = Packet(pipe: Pipe, data: Payload)

  /** Depth of each FIFO (nRF24L01+ section 7.5.2). */
  const FIFO_DEPTH: nat := 3

  /** A register number as a map key. */
  datatype RegKey = At(r: byte)

  /** `featureActive` and `plusVariant` are independent: an nRF24L01+, which has no
      ACTIVATE latch, is a state with `featureActive` true from the start. The
      combinations that no real chip has are allowed too; every lemma holds for
      all of them. */
  datatype ChipState = ChipState(
    regs: map<RegKey, byte>,        // one-byte registers; one never written reads 0
    addrs: map<RegKey, Address>,    // RX_ADDR_P0, RX_ADDR_P1, TX_ADDR
    featureActive: bool,            // FEATURE is writable (toggled by ACTIVATE, 0x73)
    plusVariant: bool,              // nRF24L01+: RF_DR_LOW (250 kbps) is implemented
    rxFifo: seq<Packet>,
    txFifo: seq<seq<byte>>)
  {
    /** The stored value of register `r`. */
    function Reg(r: byte): byte {
      if At(r) in regs then regs[At(r)] else 0
    }

    /** The stored value of address register `r`. */
    function Addr(r: byte): Address {
      if At(r) in addrs then addrs[At(r)] else [0, 0, 0, 0, 0]
    }

    /** STATUS as the chip reports it: the three event flags, RX_P_NO (the pipe of
        the packet at the head of the RX FIFO, 0b111 when it is empty) and TX_FULL. */
    function Status(): byte {
      (Reg(STATUS) & EVENT_FLAGS)
      | ((if rxFifo == [] then 7 else rxFifo[0].pipe) << RX_P_NO_SHIFT)
      | (if |txFifo| >= FIFO_DEPTH then TX_FULL else 0)
    }

    function FifoStatus(): byte {
      (if rxFifo == [] then RX_EMPTY else 0)
      | (if |rxFifo| >= FIFO_DEPTH then RX_FULL else 0)
      | (if txFifo == [] then TX_EMPTY else 0)
      | (if |txFifo| >= FIFO_DEPTH then FIFO_TX_FULL else 0)
    }

    /** The value a one-byte read of register `r` returns. */
    function RegisterValue(r: byte): byte {
      if r == STATUS then Status()
      else if r == FIFO_STATUS then FifoStatus()
      else if r == FEATURE && !featureActive then 0
      else if IsAddressRegister(r) then Addr(r)[0]
      else Reg(r)
    }

    /** Byte `k` of a multi-byte read of register `r`. */
    function RegisterByte(r: byte, k: nat): byte {
      if IsAddressRegister(r) then (if k < 5 then Addr(r)[k] else 0)
      else if k == 0 then RegisterValue(r)
      else 0
    }

    /** The five bytes a 5-byte read of register `r` returns. */
    function RegisterBytes(r: byte): Address {
      [RegisterByte(r, 0), RegisterByte(r, 1), RegisterByte(r, 2), RegisterByte(r, 3), RegisterByte(r, 4)]
    }

    /** The answer to R_RX_PL_WID: the length of the payload at the head of the RX FIFO. */
    function RxWidth(): byte {
      if rxFifo == [] then 0 else |rxFifo[0].data| as byte
    }

    /** Byte `k` of the payload at the head of the RX FIFO; 0 past its end. */
    function PayloadByte(k: nat): byte {
      if rxFifo != [] && k < |rxFifo[0].data| then rxFifo[0].data[k] else 0
    }

    /** The byte the chip shifts out on MISO while the host shifts out the byte
        that follows `sofar` in the current frame (nRF24L01+ section 8.3.2): STATUS
        first, then the data the command reads. */
    function Response(sofar: seq<byte>): byte {
      if sofar == [] then Status()
      else if sofar[0] < W_REGISTER then RegisterByte(sofar[0] & REGISTER_MASK, |sofar| - 1)
      else if sofar[0] == R_RX_PAYLOAD then PayloadByte(|sofar| - 1)
      else if sofar[0] == R_RX_PL_WID then RxWidth()
      else 0
    }

    /** The value register `r` holds after a write of `v`: event flags are cleared
        by writing 1 (section 9.1, STATUS), OBSERVE_TX and FIFO_STATUS are read-only,
        FEATURE ignores writes until activated, and the original nRF24L01 keeps
        RF_DR_LOW at 0. */
    function Stored(r: byte, v: byte): byte {
      if r == STATUS then Reg(STATUS) & !(v & EVENT_FLAGS)
      else if r == OBSERVE_TX || r == FIFO_STATUS || (r == FEATURE && !featureActive) then Reg(r)
      else if r == RF_SETUP && !plusVariant then v & !RF_DR_LOW
      else v
    }

    /** The effect of writing `v` to one-byte register `r`. A write to RF_CH also
        resets PLOS_CNT, the lost-packet count in OBSERVE_TX (section 9.1 of the
        nRF24L01+ Product Specification); ARC_CNT is kept. */
    function StoreRegister(r: byte, v: byte): ChipState {
      var stored := regs[At(r) := Stored(r, v)];
      this.(regs := if r == RF_CH then stored[At(OBSERVE_TX) := Reg(OBSERVE_TX) & ARC_CNT_BITS] else stored)
    }

    /** Address register `r` now holds `bs`. */
    function StoreAddress(r: byte, bs: Address): ChipState {
      this.(addrs := addrs[At(r) := bs])
    }

    /** The effect of one complete frame, applied when CSN goes high. */
    function Apply(frame: seq<byte>): ChipState {
      if frame == [] then this
      else
        var cmd, data := frame[0], frame[1..];
        if W_REGISTER <= cmd < 0x40 then
          var r := cmd & REGISTER_MASK;
          if IsAddressRegister(r) then
            var n := if |data| < 5 then |data| else 5;
            StoreAddress(r, data[..n] + Addr(r)[n..])
          else if data == [] then this
          else StoreRegister(r, data[0])
        else if cmd == ACTIVATE then
          (if data != [] && data[0] == ACTIVATE_KEY then this.(featureActive := !featureActive) else this)
        else if cmd == R_RX_PAYLOAD then
          this.(rxFifo := if rxFifo == [] then [] else rxFifo[1..])
        else if cmd == W_TX_PAYLOAD || cmd & 0xF8 == W_ACK_PAYLOAD then
          this.(txFifo := txFifo + [data])
        else if cmd == FLUSH_TX then this.(txFifo := [])
        else if cmd == FLUSH_RX then this.(rxFifo := [])
        else this
    }

    /** A packet arrives over the air on pipe `p.pipe`: it is queued and RX_DR is
        raised, unless the RX FIFO is full, in which case it is lost. */
    function Deliver(p: Packet): ChipState {
      if |rxFifo| >= FIFO_DEPTH then this
      else this.(rxFifo := rxFifo + [p], regs := regs[At(STATUS) := Reg(STATUS) | RX_DR])
    }

    /** The head of the TX FIFO has been sent and acknowledged (TX_DS), which
        removes it from the FIFO; or it has been given up after the last
        retransmission (MAX_RT), which leaves it at the head of the FIFO and counts
        one more lost packet in PLOS_CNT, saturating at 15 (the auto retransmission
        of the nRF24L01+ Product Specification, and OBSERVE_TX in its section 9.1). */
    function TransmitDone(acked: bool): ChipState {
      var observe := Reg(OBSERVE_TX);
      var lost := observe >> PLOS_CNT_SHIFT;
      var observe' := if acked || lost == 15 then observe else observe + 0x10;
      this.(txFifo := if acked && txFifo != [] then txFifo[1..] else txFifo,
            regs := regs[At(STATUS) := Reg(STATUS) | (if acked then TX_DS else MAX_RT)][At(OBSERVE_TX) := observe'])
    }
  }

  /** `d` differs from `c` at most in the one-byte registers `regs` (as stored) and
      the address registers `addrs`. */
  ghost predicate OnlyChanged(c: ChipState, d: ChipState, regs: set<byte>, addrs: set<byte>) {
    && d.featureActive == c.featureActive && d.plusVariant == c.plusVariant
    && d.rxFifo == c.rxFifo && d.txFifo == c.txFifo
    && (forall r: byte :: r !in regs ==> d.Reg(r) == c.Reg(r))
    && (forall r: byte :: r !in addrs ==> d.Addr(r) == c.Addr(r))
  }

  /** Writing a one-byte register changes that register only, and OBSERVE_TX
      besides when it is RF_CH. */
  lemma StoreRegisterOnly(c: ChipState, r: byte, v: byte)
    ensures OnlyChanged(c, c.StoreRegister(r, v), {r} + (if r == RF_CH then {OBSERVE_TX} else {}), {})
    ensures r != RF_CH ==> OnlyChanged(c, c.StoreRegister(r, v), {r}, {})
  {
  }

  /** Writing RF_CH stores the channel, clears the lost-packet count and keeps the
      retransmit count. */
  lemma ChannelResetsLostCount(c: ChipState, channel: byte)
    ensures var d := c.StoreRegister(RF_CH, channel);
            && d.Reg(RF_CH) == channel
            && d.Reg(OBSERVE_TX) >> PLOS_CNT_SHIFT == 0
            && d.Reg(OBSERVE_TX) & ARC_CNT_BITS == c.Reg(OBSERVE_TX) & ARC_CNT_BITS
  {
  }

  /** Writing an address register changes that register only. */
  lemma StoreAddressOnly(c: ChipState, r: byte, bs: Address)
    ensures OnlyChanged(c, c.StoreAddress(r, bs), {}, {r})
    ensures c.StoreAddress(r, bs).Addr(r) == bs
  {
  }

  /** Changes compose: two steps change at most what either step changes. */
  lemma OnlyChangedTrans(c: ChipState, d: ChipState, e: ChipState,
                         regs1: set<byte>, addrs1: set<byte>, regs2: set<byte>, addrs2: set<byte>)
    requires OnlyChanged(c, d, regs1, addrs1) && OnlyChanged(d, e, regs2, addrs2)
    ensures OnlyChanged(c, e, regs1 + regs2, addrs1 + addrs2)
  {
  }

  /** Emptying both FIFOs on either side keeps what changed between the registers. */
  lemma OnlyChangedFlushed(c: ChipState, d: ChipState, regs: set<byte>, addrs: set<byte>)
    requires OnlyChanged(c, d, regs, addrs)
    ensures OnlyChanged(c.(rxFifo := []).(txFifo := []), d.(rxFifo := []).(txFifo := []), regs, addrs)
  {
  }

  /** Reading registers leaves the chip as it was. */
  lemma ReadFrameKeeps(c: ChipState, f: seq<byte>)
    requires f != [] && f[0] < W_REGISTER
    ensures c.Apply(f) == c
  {
  }

  /** During an R_RX_PAYLOAD transaction the chip shifts out the payload in order,
      byte `k` after the command and `k` dummies. */
  lemma PayloadResponse(c: ChipState, f: seq<byte>)
    requires f != [] && f[0] == R_RX_PAYLOAD
    ensures c.Response(f) == c.PayloadByte(|f| - 1)
  {
  }

  /** Writing a register through the bus is `StoreRegister` of its low five bits. */
  lemma WriteRegisterFrameStores(c: ChipState, r: byte, v: byte)
    requires !IsAddressRegister(r & REGISTER_MASK)
    ensures c.Apply(WriteRegisterFrame(r, v)) == c.StoreRegister(r & REGISTER_MASK, v)
  {
  }

  /** Writing an address register stores exactly the five bytes of the address,
      which a 5-byte read then returns in order. */
  lemma WriteAddressFrameStores(c: ChipState, r: byte, a: bv64)
    requires IsAddressRegister(r)
    ensures c.Apply(WriteAddressFrame(r, a)) == c.StoreAddress(r, AddressBytes(a))
    ensures c.Apply(WriteAddressFrame(r, a)).RegisterBytes(r) == AddressBytes(a)
  {
    var f := WriteAddressFrame(r, a);
    assert f[1..][..5] + c.Addr(r)[5..] == AddressBytes(a);
    var c' := c.Apply(f);
    assert c'.Addr(r) == AddressBytes(a);
  }

  /** Writing 1s to the event flags clears all three (the write of
      rf24_reset_status, src/rf24.c:226), and leaves the RX_P_NO and TX_FULL fields. */
  lemma ClearEventsClearsStatus(c: ChipState)
    ensures c.StoreRegister(STATUS, EVENT_FLAGS).Status() & EVENT_FLAGS == 0
    ensures c.StoreRegister(STATUS, EVENT_FLAGS).Status() & !EVENT_FLAGS == c.Status() & !EVENT_FLAGS
  {
    var c' := c.StoreRegister(STATUS, EVENT_FLAGS);
    assert c'.Reg(STATUS) & EVENT_FLAGS == 0;
    var pipe: byte := if c.rxFifo == [] then 7 else c.rxFifo[0].pipe;
    assert pipe <= 7;
    assert (pipe << RX_P_NO_SHIFT) & EVENT_FLAGS == 0;
  }

  /** The pipe field of STATUS names the pipe of the packet at the head of the RX
      FIFO, and reads 0b111 when the FIFO is empty. */
  lemma StatusPipeField(c: ChipState)
    ensures c.rxFifo != [] ==> (c.Status() >> RX_P_NO_SHIFT) & 7 == c.rxFifo[0].pipe
    ensures c.rxFifo == [] ==> (c.Status() >> RX_P_NO_SHIFT) & 7 == 7
  {
  }
}
