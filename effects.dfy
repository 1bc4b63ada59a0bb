/** What the calls of src/rf24.c do to the chip, as functions of the chip they
    start from, together with what each of those changes means: which registers
    end up holding what, and which are left alone. The methods of `Rf24.Radio`
    are proved to leave the chip in exactly these states. */
module Effects {
  import opened Nrf24
  import opened Frames
  import opened Chip
  import opened Fields

  /** What the driver does on its wires: one `Frame` per CSN-low..CSN-high
      transaction, one `CeLevel` per write of the CE pin. */
  datatype BusEvent = Frame(bytes: seq<byte>) | CeLevel(high: bool)

  function ReadEvent(r: byte): BusEvent {
    Frame(ReadRegisterFrame(r))
  }

  function WriteEvent(r: byte, v: byte): BusEvent {
    Frame(WriteRegisterFrame(r, v))
  }

  /** The transactions of rf24_sync_status (src/rf24.c:211-222): STATUS, then the
      payload width only when `dynamic_payloads_enabled` is exactly 1. */
  function SyncEvents(dyn: byte): seq<BusEvent> {
    [ReadEvent(STATUS)] + (if dyn == 1 then [Frame([R_RX_PL_WID, 0xFF])] else [])
  }

  /** The snapshot rf24_sync_status takes of chip `c`. */
  function SnapshotOf(c: ChipState, dyn: byte, payloadSize: byte): Snapshot {
    Synced(c.Status(), dyn, payloadSize, c.RxWidth())
  }

  // ----- opening pipes, listening (src/rf24.c:48-93) -----

  /** The chip after the address step of rf24_open_reading_pipe (src/rf24.c:52-61):
      pipes 0 and 1 take the five low bytes of the address, pipes 2..5 its lowest byte. */
  function PipeAddressSet(c: ChipState, pipe: byte, address: bv64): ChipState
    requires pipe <= 5
  {
    if pipe <= 1 then c.StoreAddress(PipeAddressRegister(pipe), AddressBytes(address))
    else c.StoreRegister(PipeAddressRegister(pipe), AddressByte(address, 0))
  }

  /** The transaction of that step. */
  function PipeAddressEvent(pipe: byte, address: bv64): BusEvent
    requires pipe <= 5
  {
    if pipe <= 1 then Frame(WriteAddressFrame(PipeAddressRegister(pipe), address))
    else WriteEvent(PipeAddressRegister(pipe), AddressByte(address, 0))
  }

  /** The chip after rf24_open_reading_pipe (src/rf24.c:48-64): the address, then
      the pipe's payload width, then its bit in EN_RXADDR, set over the value read back. */
  function ReadingPipeOpened(c: ChipState, pipe: byte, address: bv64, payloadSize: byte): ChipState
    requires pipe <= 5
  {
    var c2 := PipeAddressSet(c, pipe, address).StoreRegister(PipeWidthRegister(pipe), payloadSize);
    c2.StoreRegister(EN_RXADDR, c2.Reg(EN_RXADDR) | PipeBit(pipe))
  }

  /** An opened reading pipe reads back the address: all five bytes for pipes 0
      and 1, the low byte for pipes 2..5. */
  lemma ReadingPipeAddress(c: ChipState, pipe: byte, address: bv64, payloadSize: byte)
    requires pipe <= 5
    ensures var d := ReadingPipeOpened(c, pipe, address, payloadSize);
            && (pipe <= 1 ==> d.RegisterBytes(PipeAddressRegister(pipe)) == AddressBytes(address))
            && (pipe >= 2 ==> d.RegisterValue(PipeAddressRegister(pipe)) == AddressByte(address, 0))
  {
    var r := PipeAddressRegister(pipe);
    var c1 := PipeAddressSet(c, pipe, address);
    var c2 := c1.StoreRegister(PipeWidthRegister(pipe), payloadSize);
    var d := ReadingPipeOpened(c, pipe, address, payloadSize);
    if pipe <= 1 {
      assert c1.Addr(r) == AddressBytes(address);
      assert d.Addr(r) == c2.Addr(r) == c1.Addr(r);
    } else {
      assert d.Reg(r) == c2.Reg(r) == c1.Reg(r) == AddressByte(address, 0);
    }
  }

  /** An opened reading pipe's width is the fixed payload size. */
  lemma ReadingPipeWidth(c: ChipState, pipe: byte, address: bv64, payloadSize: byte)
    requires pipe <= 5
    ensures ReadingPipeOpened(c, pipe, address, payloadSize).RegisterValue(PipeWidthRegister(pipe)) == payloadSize
  {
    var c2 := PipeAddressSet(c, pipe, address).StoreRegister(PipeWidthRegister(pipe), payloadSize);
    assert c2.Reg(PipeWidthRegister(pipe)) == payloadSize;
  }

  /** Opening a pipe sets its bit in EN_RXADDR and keeps every other bit. */
  lemma ReadingPipeEnables(c: ChipState, pipe: byte, address: bv64, payloadSize: byte)
    requires pipe <= 5
    ensures var d := ReadingPipeOpened(c, pipe, address, payloadSize);
            && d.Reg(EN_RXADDR) == c.Reg(EN_RXADDR) | PipeBit(pipe)
            && d.Reg(EN_RXADDR) & PipeBit(pipe) != 0
            && d.Reg(EN_RXADDR) & !PipeBit(pipe) == c.Reg(EN_RXADDR) & !PipeBit(pipe)
  {
    var c1 := PipeAddressSet(c, pipe, address);
    assert c1.Reg(EN_RXADDR) == c.Reg(EN_RXADDR);
    var c2 := c1.StoreRegister(PipeWidthRegister(pipe), payloadSize);
    assert c2.Reg(EN_RXADDR) == c.Reg(EN_RXADDR);
  }

  /** Opening a pipe changes its address, its width and EN_RXADDR, and nothing else. */
  lemma ReadingPipeOnly(c: ChipState, pipe: byte, address: bv64, payloadSize: byte)
    requires pipe <= 5
    ensures OnlyChanged(c, ReadingPipeOpened(c, pipe, address, payloadSize),
              (if pipe <= 1 then {} else {PipeAddressRegister(pipe)}) + {PipeWidthRegister(pipe), EN_RXADDR},
              if pipe <= 1 then {PipeAddressRegister(pipe)} else {})
  {
    var r := PipeAddressRegister(pipe);
    var c1 := PipeAddressSet(c, pipe, address);
    if pipe <= 1 {
      StoreAddressOnly(c, r, AddressBytes(address));
    } else {
      StoreRegisterOnly(c, r, AddressByte(address, 0));
    }
    var c2 := c1.StoreRegister(PipeWidthRegister(pipe), payloadSize);
    StoreRegisterOnly(c1, PipeWidthRegister(pipe), payloadSize);
    var d := c2.StoreRegister(EN_RXADDR, c2.Reg(EN_RXADDR) | PipeBit(pipe));
    StoreRegisterOnly(c2, EN_RXADDR, c2.Reg(EN_RXADDR) | PipeBit(pipe));
    var a1: set<byte> := if pipe <= 1 then {r} else {};
    var r1: set<byte> := if pipe <= 1 then {} else {r};
    OnlyChangedTrans(c, c1, c2, r1, a1, {PipeWidthRegister(pipe)}, {});
    OnlyChangedTrans(c, c2, d, r1 + {PipeWidthRegister(pipe)}, a1 + {}, {EN_RXADDR}, {});
    assert r1 + {PipeWidthRegister(pipe)} + {EN_RXADDR} == r1 + {PipeWidthRegister(pipe), EN_RXADDR};
    assert a1 + {} + {} == a1;
  }

  /** The chip after rf24_open_writing_pipe (src/rf24.c:66-71). */
  function WritingPipeOpened(c: ChipState, address: bv64, payloadSize: byte): ChipState {
    c.StoreAddress(RX_ADDR_P0, AddressBytes(address))
     .StoreAddress(TX_ADDR, AddressBytes(address))
     .StoreRegister(RX_PW_P0, payloadSize)
  }

  /** The writing address goes to TX_ADDR and, for the acknowledgement, to pipe 0,
      whose width becomes the fixed payload size; nothing else changes. */
  lemma WritingPipeEffect(c: ChipState, address: bv64, payloadSize: byte)
    ensures var d := WritingPipeOpened(c, address, payloadSize);
            && d.RegisterBytes(TX_ADDR) == AddressBytes(address)
            && d.RegisterBytes(RX_ADDR_P0) == AddressBytes(address)
            && d.RegisterValue(RX_PW_P0) == payloadSize
            && OnlyChanged(c, d, {RX_PW_P0}, {RX_ADDR_P0, TX_ADDR})
  {
    var c1 := c.StoreAddress(RX_ADDR_P0, AddressBytes(address));
    var c2 := c1.StoreAddress(TX_ADDR, AddressBytes(address));
    StoreAddressOnly(c, RX_ADDR_P0, AddressBytes(address));
    StoreAddressOnly(c1, TX_ADDR, AddressBytes(address));
    StoreRegisterOnly(c2, RX_PW_P0, payloadSize);
    OnlyChangedTrans(c, c1, c2, {}, {RX_ADDR_P0}, {}, {TX_ADDR});
    OnlyChangedTrans(c, c2, c2.StoreRegister(RX_PW_P0, payloadSize), {}, {RX_ADDR_P0, TX_ADDR}, {RX_PW_P0}, {});
    assert {} + {RX_PW_P0} == {RX_PW_P0};
  }

  /** The chip after rf24_start_listening (src/rf24.c:73-86): powered up as primary
      receiver, event flags written with 1s, and pipe 0's remembered reading
      address written back when there is one. */
  function Listening(c: ChipState, pipe0Address: bv64): ChipState {
    var c1 := c.StoreRegister(CONFIG, RxConfig(c.Reg(CONFIG))).StoreRegister(STATUS, EVENT_FLAGS);
    if pipe0Address != 0 then c1.StoreAddress(RX_ADDR_P0, AddressBytes(pipe0Address)) else c1
  }

  /** Listening: CONFIG gains PWR_UP and PRIM_RX, every other bit kept. */
  lemma ListeningConfig(c: ChipState, pipe0Address: bv64)
    ensures Listening(c, pipe0Address).Reg(CONFIG) == RxConfig(c.Reg(CONFIG))
  {
    var c0 := c.StoreRegister(CONFIG, RxConfig(c.Reg(CONFIG)));
    assert c0.StoreRegister(STATUS, EVENT_FLAGS).Reg(CONFIG) == c0.Reg(CONFIG);
  }

  /** Listening: all three event flags are clear, and the rest of STATUS (the pipe
      of the next packet, TX_FULL) is as it was. */
  lemma ListeningStatus(c: ChipState, pipe0Address: bv64)
    ensures Listening(c, pipe0Address).Status() & EVENT_FLAGS == 0
    ensures Listening(c, pipe0Address).Status() & !EVENT_FLAGS == c.Status() & !EVENT_FLAGS
  {
    var c0 := c.StoreRegister(CONFIG, RxConfig(c.Reg(CONFIG)));
    var c1 := c0.StoreRegister(STATUS, EVENT_FLAGS);
    ClearEventsClearsStatus(c0);
    assert c0.Status() == c.Status();
    assert Listening(c, pipe0Address).Status() == c1.Status();
  }

  /** Listening: RX_ADDR_P0 holds the remembered reading address iff there is one. */
  lemma ListeningAddress(c: ChipState, pipe0Address: bv64)
    ensures pipe0Address != 0 ==> Listening(c, pipe0Address).RegisterBytes(RX_ADDR_P0) == AddressBytes(pipe0Address)
    ensures pipe0Address == 0 ==> Listening(c, pipe0Address).RegisterBytes(RX_ADDR_P0) == c.RegisterBytes(RX_ADDR_P0)
  {
    var c1 := c.StoreRegister(CONFIG, RxConfig(c.Reg(CONFIG))).StoreRegister(STATUS, EVENT_FLAGS);
    assert c1.Addr(RX_ADDR_P0) == c.Addr(RX_ADDR_P0);
  }

  /** Listening changes CONFIG, STATUS and (with a remembered address) RX_ADDR_P0 only. */
  lemma ListeningOnly(c: ChipState, pipe0Address: bv64)
    ensures OnlyChanged(c, Listening(c, pipe0Address), {CONFIG, STATUS}, if pipe0Address != 0 then {RX_ADDR_P0} else {})
  {
    var c0 := c.StoreRegister(CONFIG, RxConfig(c.Reg(CONFIG)));
    var c1 := c0.StoreRegister(STATUS, EVENT_FLAGS);
    StoreRegisterOnly(c, CONFIG, RxConfig(c.Reg(CONFIG)));
    StoreRegisterOnly(c0, STATUS, EVENT_FLAGS);
    OnlyChangedTrans(c, c0, c1, {CONFIG}, {}, {STATUS}, {});
    assert {CONFIG} + {STATUS} == {CONFIG, STATUS};
    if pipe0Address != 0 {
      StoreAddressOnly(c1, RX_ADDR_P0, AddressBytes(pipe0Address));
      OnlyChangedTrans(c, c1, c1.StoreAddress(RX_ADDR_P0, AddressBytes(pipe0Address)),
        {CONFIG, STATUS}, {}, {}, {RX_ADDR_P0});
      assert {CONFIG, STATUS} + {} == {CONFIG, STATUS};
    }
  }

  /** Opening pipe 0 for reading and then a writing pipe overwrites RX_ADDR_P0
      with the writing address; start_listening puts the reading address back,
      and the writing address stays in TX_ADDR. */
  lemma ListeningRestoresPipe0(c: ChipState, reading: bv64, writing: bv64, payloadSize: byte)
    requires reading != 0
    ensures var d := Listening(WritingPipeOpened(ReadingPipeOpened(c, 0, reading, payloadSize), writing, payloadSize), reading);
            && d.RegisterBytes(RX_ADDR_P0) == AddressBytes(reading)
            && d.RegisterBytes(TX_ADDR) == AddressBytes(writing)
  {
    var w := WritingPipeOpened(ReadingPipeOpened(c, 0, reading, payloadSize), writing, payloadSize);
    WritingPipeEffect(ReadingPipeOpened(c, 0, reading, payloadSize), writing, payloadSize);
    ListeningAddress(w, reading);
    ListeningOnly(w, reading);
    assert Listening(w, reading).Addr(TX_ADDR) == w.Addr(TX_ADDR);
  }

  // ----- transmitting (src/rf24.c:183-209) -----

  /** The chip rf24_send hands over to the air: CONFIG written powered up as primary
      transmitter (src/rf24.c:190), then the W_TX_PAYLOAD frame (src/rf24.c:191). */
  function Armed(c: ChipState, buf: seq<byte>, dyn: byte, payloadSize: byte): ChipState
    requires |buf| <= 255
  {
    c.StoreRegister(CONFIG, TxConfig(c.Reg(CONFIG)))
     .Apply(PayloadFrame(W_TX_PAYLOAD, buf, TxBlanks(dyn, payloadSize, |buf|)))
  }

  /** Arming queues the caller's bytes, padded with zeros to the fixed payload size
      unless dynamic payloads are on, and changes CONFIG's mode bits and nothing else. */
  lemma ArmedEffect(c: ChipState, buf: seq<byte>, dyn: byte, payloadSize: byte)
    requires |buf| <= 255
    ensures var d := Armed(c, buf, dyn, payloadSize);
            && d.Reg(CONFIG) == TxConfig(c.Reg(CONFIG))
            && d.txFifo == c.txFifo + [buf + Repeat(0, TxBlanks(dyn, payloadSize, |buf|))]
            && (dyn == 0 && |buf| <= payloadSize as int ==> |d.txFifo[|c.txFifo|]| == payloadSize as int)
            && (dyn != 0 ==> d.txFifo[|c.txFifo|] == buf)
            && OnlyChanged(c.(txFifo := d.txFifo), d, {CONFIG}, {})
  {
    var blanks := TxBlanks(dyn, payloadSize, |buf|);
    var f := PayloadFrame(W_TX_PAYLOAD, buf, blanks);
    assert f[1..] == buf + Repeat(0, blanks);
    var c1 := c.StoreRegister(CONFIG, TxConfig(c.Reg(CONFIG)));
    assert c1.Apply(f) == c1.(txFifo := c1.txFifo + [buf + Repeat(0, blanks)]);
    StoreRegisterOnly(c, CONFIG, TxConfig(c.Reg(CONFIG)));
  }

  /** What happens over the air while rf24_send polls: nothing, or the payload is
      sent (acknowledged or given up) before poll number `afterPolls + 1`. */
  datatype AirEvent = Quiet | Completes(afterPolls: nat, acked: bool)

  /** The chip as poll number `k` of rf24_send finds it. */
  function ChipAtPoll(armed: ChipState, air: AirEvent, k: nat): ChipState {
    if air.Completes? && k > air.afterPolls then armed.TransmitDone(air.acked) else armed
  }

  /** Readings of the millisecond clock during rf24_send: `clock[0]` is `sent_at`,
      `clock[k]` the reading after poll `k`. The clock does not run backwards past
      `sent_at`, and it eventually reaches the timeout. */
  predicate ClockRunsPast(clock: seq<nat>, timeout: nat) {
    && |clock| >= 2
    && (forall k :: 0 <= k < |clock| ==> clock[0] <= clock[k])
    && clock[|clock| - 1] - clock[0] >= timeout
  }

  /** The do-while test of rf24_send (src/rf24.c:205) after poll `k`: neither flag
      bit is set in the OBSERVE_TX just read, and the timeout has not passed. */
  predicate PollContinues(armed: ChipState, air: AirEvent, clock: seq<nat>, timeout: nat, k: nat)
    requires k < |clock|
  {
    !PollFlag(ChipAtPoll(armed, air, k).Reg(OBSERVE_TX)) && clock[k] - clock[0] < timeout
  }

  /** The first poll, from poll `k` on, after which rf24_send stops polling. */
  function FirstStop(armed: ChipState, air: AirEvent, clock: seq<nat>, timeout: nat, k: nat): (n: nat)
    requires ClockRunsPast(clock, timeout) && 1 <= k < |clock|
    ensures k <= n < |clock|
    ensures !PollContinues(armed, air, clock, timeout, n)
    ensures forall j :: k <= j < n ==> PollContinues(armed, air, clock, timeout, j)
    decreases |clock| - k
  {
    if !PollContinues(armed, air, clock, timeout, k) then k
    else FirstStop(armed, air, clock, timeout, k + 1)
  }

  /** An acknowledged transmission leaves OBSERVE_TX as it was, so a poll that
      starts without those bits set can only end by the timeout: the do-while
      never sees the success. */
  lemma AckedSendWaitsForTimeout(armed: ChipState, air: AirEvent, clock: seq<nat>, timeout: nat)
    requires ClockRunsPast(clock, timeout)
    requires air.Completes? && air.acked
    requires !PollFlag(armed.Reg(OBSERVE_TX))
    ensures var n := FirstStop(armed, air, clock, timeout, 1);
            clock[n] - clock[0] >= timeout
  {
    var n := FirstStop(armed, air, clock, timeout, 1);
    assert ChipAtPoll(armed, air, n).Reg(OBSERVE_TX) == armed.Reg(OBSERVE_TX);
  }

  /** A transmission given up after the last retry counts one lost packet; starting
      from PLOS_CNT = 0 that sets bit 4 of OBSERVE_TX, and the poll right after ends. */
  lemma LostSendEndsPoll(armed: ChipState, m: nat, clock: seq<nat>, timeout: nat)
    requires ClockRunsPast(clock, timeout)
    requires armed.Reg(OBSERVE_TX) >> PLOS_CNT_SHIFT == 0
    requires m + 1 < |clock|
    ensures FirstStop(armed, Completes(m, false), clock, timeout, 1) <= m + 1
  {
    var air := Completes(m, false);
    var done := armed.TransmitDone(false);
    assert done.Reg(OBSERVE_TX) == armed.Reg(OBSERVE_TX) + 0x10;
    assert PollFlag(done.Reg(OBSERVE_TX));
    assert !PollContinues(armed, air, clock, timeout, m + 1);
  }

  /** A transmission given up after the last retry raises MAX_RT and leaves the
      payload at the head of the TX FIFO; an acknowledged one raises TX_DS and
      leaves the FIFO. Besides the FIFO, only STATUS and OBSERVE_TX change. */
  lemma TransmitDoneEffect(c: ChipState, acked: bool)
    ensures var d := c.TransmitDone(acked);
            && (!acked ==> d.txFifo == c.txFifo && d.Status() & MAX_RT != 0)
            && (acked && c.txFifo != [] ==> d.txFifo == c.txFifo[1..] && d.Status() & TX_DS != 0)
            && OnlyChanged(c.(txFifo := d.txFifo), d, {STATUS, OBSERVE_TX}, {})
  {
    var d := c.TransmitDone(acked);
    forall r: byte | r !in {STATUS, OBSERVE_TX}
      ensures d.Reg(r) == c.Reg(r)
    {
    }
  }

  /** The exit test the poll evidently means: TX_DS or MAX_RT of STATUS, the flags
      those masks belong to. */
  predicate SendFinished(status: byte) {
    status & (TX_DS | MAX_RT) != 0
  }

  /** With that test the poll ends right after the transmission completes, acked or
      not, on either chip and whatever OBSERVE_TX holds. */
  lemma IntendedPollSeesCompletion(armed: ChipState, m: nat, acked: bool)
    ensures SendFinished(ChipAtPoll(armed, Completes(m, acked), m + 1).Status())
  {
    var done := armed.TransmitDone(acked);
    assert done.Reg(STATUS) & (if acked then TX_DS else MAX_RT) != 0;
  }

  // ----- receiving and the event flags (src/rf24.c:224-289) -----

  /** R_RX_PAYLOAD takes the packet at the head of the RX FIFO off it, whatever
      number of bytes is clocked. */
  lemma ReceiveFramePops(c: ChipState, n: nat)
    ensures c.Apply(ReceiveFrame(n)) == c.(rxFifo := if c.rxFifo == [] then [] else c.rxFifo[1..])
  {
  }

  /** The chip after rf24_data_available_on_pipe with a pipe pointer
      (src/rf24.c:276-285): RX_DR written with 1, then TX_DS when STATUS showed it. */
  function EventsAcknowledged(c: ChipState): ChipState {
    var c1 := c.StoreRegister(STATUS, RX_DR);
    if c.Status() & TX_DS != 0 then c1.StoreRegister(STATUS, TX_DS) else c1
  }

  /** RX_DR and TX_DS end up clear, MAX_RT and the rest of STATUS are kept, and no
      other register changes. */
  lemma EventsAcknowledgedEffect(c: ChipState)
    ensures var d := EventsAcknowledged(c);
            && d.Status() & (RX_DR | TX_DS) == 0
            && d.Status() & MAX_RT == c.Status() & MAX_RT
            && d.Status() & !EVENT_FLAGS == c.Status() & !EVENT_FLAGS
            && OnlyChanged(c, d, {STATUS}, {})
  {
    var c1 := c.StoreRegister(STATUS, RX_DR);
    StoreRegisterOnly(c, STATUS, RX_DR);
    assert c1.Status() & !EVENT_FLAGS == c.Status() & !EVENT_FLAGS;
    if c.Status() & TX_DS != 0 {
      StoreRegisterOnly(c1, STATUS, TX_DS);
      OnlyChangedTrans(c, c1, c1.StoreRegister(STATUS, TX_DS), {STATUS}, {}, {STATUS}, {});
      assert {STATUS} + {STATUS} == {STATUS};
    }
  }

  // ----- optional features (src/rf24.c:483-528) -----

  /** The FEATURE step of rf24_enable_ack_payload and rf24_enable_dynamic_payloads
      (src/rf24.c:485-490, 506-513): `bits` written over the value read; when the
      register then reads back 0, ACTIVATE and the same write once more. */
  function FeatureSet(c: ChipState, bits: byte): ChipState {
    var v := c.RegisterValue(FEATURE) | bits;
    var c1 := c.StoreRegister(FEATURE, v);
    if c1.RegisterValue(FEATURE) == 0 then c1.(featureActive := !c1.featureActive).StoreRegister(FEATURE, v)
    else c1
  }

  /** FEATURE reads back 0 after the first write exactly when the chip had not been
      activated: the fallback runs then and only then. */
  lemma FeatureFallback(c: ChipState, bits: byte)
    requires bits != 0
    ensures c.StoreRegister(FEATURE, c.RegisterValue(FEATURE) | bits).RegisterValue(FEATURE) == 0
            <==> !c.featureActive
  {
  }

  /** The chip `FeatureSet` leaves: `c` activated, with FEATURE written once with
      the value the first read showed, ORed with `bits`. */
  lemma FeatureSetStores(c: ChipState, bits: byte)
    requires bits != 0
    ensures FeatureSet(c, bits)
            == c.(featureActive := true).StoreRegister(FEATURE, c.RegisterValue(FEATURE) | bits)
  {
    FeatureFallback(c, bits);
    var v := c.RegisterValue(FEATURE) | bits;
    if !c.featureActive {
      var c1 := c.StoreRegister(FEATURE, v);
      var a := c.(featureActive := true);
      assert c1.(featureActive := true).StoreRegister(FEATURE, v).regs == a.StoreRegister(FEATURE, v).regs;
    }
  }

  /** Either way the chip ends activated with `bits` set in FEATURE over what it
      showed before, and nothing else changes. */
  lemma FeatureSetEffect(c: ChipState, bits: byte)
    requires bits != 0
    ensures var d := FeatureSet(c, bits);
            && d.featureActive
            && (c.featureActive ==> d.Reg(FEATURE) == c.Reg(FEATURE) | bits)
            && (!c.featureActive ==> d.Reg(FEATURE) == bits)
            && OnlyChanged(c.(featureActive := true), d, {FEATURE}, {})
  {
    FeatureSetStores(c, bits);
    var a := c.(featureActive := true);
    var v := c.RegisterValue(FEATURE) | bits;
    StoreRegisterOnly(a, FEATURE, v);
    assert a.StoreRegister(FEATURE, v).Reg(FEATURE) == v;
  }

  /** The transactions of that step, given the value written and whether the
      read-back came out 0. */
  function FeatureEvents(v: byte, fallback: bool): seq<BusEvent> {
    [ReadEvent(FEATURE), WriteEvent(FEATURE, v), ReadEvent(FEATURE)]
    + (if fallback then [Frame(ActivateFrame()), WriteEvent(FEATURE, v)] else [])
  }

  /** The chip after rf24_enable_dynamic_payloads (src/rf24.c:503-520). */
  function DynamicPayloadsOn(c: ChipState): ChipState {
    var c2 := FeatureSet(c, EN_DPL);
    c2.StoreRegister(DYNPD, c2.Reg(DYNPD) | DPL_ALL_PIPES)
  }

  /** Dynamic payloads: EN_DPL set, all six DPL_Pn bits ORed into DYNPD. */
  lemma DynamicPayloadsEffect(c: ChipState)
    ensures var d := DynamicPayloadsOn(c);
            && d.featureActive && d.Reg(FEATURE) & EN_DPL != 0
            && d.Reg(DYNPD) == c.Reg(DYNPD) | DPL_ALL_PIPES
            && OnlyChanged(c.(featureActive := true), d, {FEATURE, DYNPD}, {})
  {
    var c2 := FeatureSet(c, EN_DPL);
    FeatureSetEffect(c, EN_DPL);
    StoreRegisterOnly(c2, DYNPD, c2.Reg(DYNPD) | DPL_ALL_PIPES);
    OnlyChangedTrans(c.(featureActive := true), c2, DynamicPayloadsOn(c), {FEATURE}, {}, {DYNPD}, {});
    assert {FEATURE} + {DYNPD} == {FEATURE, DYNPD};
  }

  /** The chip after rf24_enable_ack_payload (src/rf24.c:483-501). */
  function AckPayloadOn(c: ChipState): ChipState {
    var c2 := FeatureSet(c, EN_ACK_PAY | EN_DPL);
    c2.StoreRegister(DYNPD, c2.Reg(DYNPD) | DPL_P0)
  }

  /** Acknowledgement payloads: EN_ACK_PAY and EN_DPL set, DPL_P0 ORed into DYNPD. */
  lemma AckPayloadEffect(c: ChipState)
    ensures var d := AckPayloadOn(c);
            && d.featureActive && d.Reg(FEATURE) & (EN_ACK_PAY | EN_DPL) == EN_ACK_PAY | EN_DPL
            && d.Reg(DYNPD) == c.Reg(DYNPD) | DPL_P0
            && OnlyChanged(c.(featureActive := true), d, {FEATURE, DYNPD}, {})
  {
    var c2 := FeatureSet(c, EN_ACK_PAY | EN_DPL);
    FeatureSetEffect(c, EN_ACK_PAY | EN_DPL);
    StoreRegisterOnly(c2, DYNPD, c2.Reg(DYNPD) | DPL_P0);
    OnlyChangedTrans(c.(featureActive := true), c2, AckPayloadOn(c), {FEATURE}, {}, {DYNPD}, {});
    assert {FEATURE} + {DYNPD} == {FEATURE, DYNPD};
  }

  // ----- register setters (src/rf24.c:549-699) -----

  /** set_data_rate then get_data_rate: the rate asked for, except that the
      original nRF24L01 drops RF_DR_LOW and so reads 250 kbps back as 1 Mbps. */
  lemma DataRateRoundTrip(c: ChipState, rate: DataRate)
    ensures var d := c.StoreRegister(RF_SETUP, DataRateSetup(c.RegisterValue(RF_SETUP), rate));
            && (c.plusVariant || rate != Rate250Kbps ==> DataRateOf(d.RegisterValue(RF_SETUP)) == rate)
            && (!c.plusVariant && rate == Rate250Kbps ==> DataRateOf(d.RegisterValue(RF_SETUP)) == Rate1Mbps)
            && OnlyChanged(c, d, {RF_SETUP}, {})
  {
    var r := DataRateSetup(c.RegisterValue(RF_SETUP), rate);
    StoreRegisterOnly(c, RF_SETUP, r);
    DataRateProbe(c.RegisterValue(RF_SETUP));
    if !c.plusVariant && rate != Rate250Kbps {
      assert r & RF_DR_LOW == 0;
      assert r & !RF_DR_LOW == r;
    }
  }

  /** set_crc_length then get_crc_length gives the mode asked for, and only CONFIG
      changes. */
  lemma CrcRoundTrip(c: ChipState, m: CrcLength)
    ensures var d := c.StoreRegister(CONFIG, CrcConfig(c.RegisterValue(CONFIG), m));
            && CrcLengthOf(d.RegisterValue(CONFIG)) == m
            && OnlyChanged(c, d, {CONFIG}, {})
  {
    StoreRegisterOnly(c, CONFIG, CrcConfig(c.RegisterValue(CONFIG), m));
  }

  /** set_pa_level leaves RF_SETUP decoding to the level asked for on either chip
      (the original's dropping of RF_DR_LOW does not touch RF_PWR), and changes no
      other register. */
  lemma PaLevelRoundTrip(c: ChipState, level: PaLevel)
    ensures var d := c.StoreRegister(RF_SETUP, PaSetup(c.Reg(RF_SETUP), level));
            && PaLevelOf(d.Reg(RF_SETUP)) == level
            && OnlyChanged(c, d, {RF_SETUP}, {})
  {
    var v := PaSetup(c.Reg(RF_SETUP), level);
    StoreRegisterOnly(c, RF_SETUP, v);
    assert (v & !RF_DR_LOW) & RF_PWR_BITS == v & RF_PWR_BITS;
  }
}
