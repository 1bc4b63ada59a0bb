/** The driver object of src/rf24.c: the host-side mirror of include/rf24.h:26-35,
    the chip on the far side of the bus, the level of the CE pin, and the trace of
    what the driver did on its wires.

    Every transaction is built byte by byte, as the driver's loops do: the byte the
    chip shifts back while the host shifts out one byte is `chip.Response` of the
    bytes already sent in that transaction, and at CSN high the chip takes the
    whole frame (`ChipState.Apply`). */
module Rf24 {
  import opened Nrf24
  import opened Frames
  import opened Chip
  import opened Fields
  import opened Effects
  import opened Startup

  /** RF24_SPI_DEV_0 (include/rf24.h:23). */
  const SPI_DEV_0: string := "/dev/spidev0.0"

  /** The transmit timeout rf24_initialize sets, in milliseconds. */
  const TX_TIMEOUT_MS: nat := 500

  /** The value rf24_initialize returns when the SPI device does not open: -1 as
      a `uint8_t`. */
  const INIT_FAILED: byte := 0xFF

  /** The fixed payload size rf24_initialize sets. */
  const DEFAULT_PAYLOAD_SIZE: byte := 32

  /** The chip-select GPIO rf24_initialize picks for RF24_SPI_DEV_0, and for any
      other device name. */
  const CSN_PIN_DEV_0: byte := 8
  const CSN_PIN_OTHER: byte := 7

  /** The failure test of rf24_new as written (src/rf24.c:297): the `uint8_t`
      result of rf24_initialize is promoted to `int` before it is compared with -1. */
  function NewSeesFailureAsWritten(result: byte): bool {
    result as int == -1
  }

  /** The test rf24_new evidently means: the result is -1 as a `uint8_t`. */
  function NewSeesFailure(result: byte): bool {
    result == INIT_FAILED
  }

  /** The test as written never holds, so a failed rf24_initialize goes unnoticed;
      the intended one holds for its failure value and no other. */
  lemma NewMissesFailure(result: byte)
    ensures !NewSeesFailureAsWritten(result)
    ensures NewSeesFailure(result) <==> result == INIT_FAILED
    ensures NewSeesFailure(INIT_FAILED) && !NewSeesFailureAsWritten(INIT_FAILED)
  {
  }

  class Radio {
    // the mirror, include/rf24.h:27-34 (the SPI handle is not modelled)
    var status: Snapshot
    var pipe0Address: bv64
    var txTimeout: nat
    var csnPin: byte
    var cePin: byte
    var irqPin: byte
    var ackPayloadEnabled: byte
    var pVariant: bool
    var dynamicPayloadsEnabled: byte
    var payloadSize: byte

    /** The transceiver at the other end of the bus. */
    var chip: ChipState
    /** The level last driven on the CE pin. */
    var ce: bool
    /** Everything the driver has done on its wires, oldest first. */
    var trace: seq<BusEvent>

    /** A zeroed driver object facing chip `c`. */
    constructor (c: ChipState)
      ensures chip == c && trace == [] && !ce
      ensures status == Cleared && pipe0Address == 0 && txTimeout == 0
      ensures csnPin == 0 && cePin == 0 && irqPin == 0
      ensures ackPayloadEnabled == 0 && !pVariant && dynamicPayloadsEnabled == 0 && payloadSize == 0
    {
      status := Cleared;
      pipe0Address := 0;
      txTimeout := 0;
      csnPin, cePin, irqPin := 0, 0, 0;
      ackPayloadEnabled := 0;
      pVariant := false;
      dynamicPayloadsEnabled := 0;
      payloadSize := 0;
      chip := c;
      ce := false;
      trace := [];
    }

    // ----- start-up (src/rf24.c:305-389) -----

    /** rf24_initialize: the mirror zeroed, then the pins, the 500 ms transmit
        timeout and the 32-byte payload size set, and the chip-select pin chosen by
        device name. If the SPI device does not open (`spiOpens`), it stops there
        and returns -1 as a `uint8_t`, the chip untouched; otherwise CE goes low,
        the chip is configured (`Startup.Started`) and it returns 0. */
    method Initialize(spiDev: string, ceGpio: byte, irqGpio: byte, spiOpens: bool) returns (result: byte)
      modifies this
      ensures status == Cleared && pipe0Address == 0
      ensures ackPayloadEnabled == 0 && dynamicPayloadsEnabled == 0
      ensures cePin == ceGpio && irqPin == irqGpio
      ensures csnPin == (if spiDev == SPI_DEV_0 then CSN_PIN_DEV_0 else CSN_PIN_OTHER)
      ensures txTimeout == TX_TIMEOUT_MS && payloadSize == DEFAULT_PAYLOAD_SIZE
      ensures !spiOpens ==> result == INIT_FAILED && !pVariant
                            && chip == old(chip) && trace == old(trace) && ce == old(ce)
      ensures spiOpens ==> result == 0 && pVariant == old(chip).plusVariant && !ce
                           && chip == Started(old(chip), old(trace)).chip
                           && trace == Started(old(chip), old(trace)).events
    {
      SetDefaults(spiDev, ceGpio, irqGpio);
      if !spiOpens {
        return INIT_FAILED;
      }
      Start();
      result := 0;
    }

    /** rf24_new with the intended failure test: a driver object facing chip `c`,
        initialized; none when the SPI device does not open. Running out of memory
        is not modelled. */
    static method New(c: ChipState, spiDev: string, ceGpio: byte, irqGpio: byte, spiOpens: bool)
      returns (radio: Radio?)
      ensures radio == null <==> !spiOpens
      ensures radio != null ==> fresh(radio) && radio.chip == Started(c, []).chip
                                && radio.trace == Started(c, []).events && !radio.ce
                                && radio.pVariant == c.plusVariant
                                && radio.payloadSize == DEFAULT_PAYLOAD_SIZE
                                && radio.cePin == ceGpio && radio.irqPin == irqGpio
                                && radio.csnPin == (if spiDev == SPI_DEV_0 then CSN_PIN_DEV_0 else CSN_PIN_OTHER)
                                && radio.txTimeout == TX_TIMEOUT_MS
                                && radio.status == Cleared && radio.pipe0Address == 0
                                && radio.ackPayloadEnabled == 0 && radio.dynamicPayloadsEnabled == 0
    {
      var r := new Radio(c);
      var result := r.Initialize(spiDev, ceGpio, irqGpio, spiOpens);
      if NewSeesFailure(result) {
        radio := null;
      } else {
        radio := r;
      }
    }

    /** The mirror part of rf24_initialize (src/rf24.c:307-318): everything zeroed,
        then the pins, timeout and payload size set. */
    method SetDefaults(spiDev: string, ceGpio: byte, irqGpio: byte)
      modifies this`status, this`pipe0Address, this`txTimeout, this`csnPin, this`cePin, this`irqPin,
               this`ackPayloadEnabled, this`pVariant, this`dynamicPayloadsEnabled, this`payloadSize
      ensures status == Cleared && pipe0Address == 0
      ensures ackPayloadEnabled == 0 && dynamicPayloadsEnabled == 0 && !pVariant
      ensures cePin == ceGpio && irqPin == irqGpio
      ensures csnPin == (if spiDev == SPI_DEV_0 then CSN_PIN_DEV_0 else CSN_PIN_OTHER)
      ensures txTimeout == TX_TIMEOUT_MS && payloadSize == DEFAULT_PAYLOAD_SIZE
    {
      status := Cleared;
      pipe0Address := 0;
      txTimeout := 0;
      csnPin, cePin, irqPin := 0, 0, 0;
      ackPayloadEnabled := 0;
      pVariant := false;
      dynamicPayloadsEnabled := 0;
      payloadSize := 0;

      cePin := ceGpio;
      irqPin := irqGpio;
      txTimeout := TX_TIMEOUT_MS;
      payloadSize := DEFAULT_PAYLOAD_SIZE;
      if spiDev == SPI_DEV_0 {
        csnPin := CSN_PIN_DEV_0;
      } else {
        csnPin := CSN_PIN_OTHER;
      }
    }

    /** rf24_initialize once the SPI device has opened (src/rf24.c:335-386). */
    method Start()
      modifies this`chip, this`trace, this`ce, this`pVariant
      ensures chip == Started(old(chip), old(trace)).chip
      ensures trace == Started(old(chip), old(trace)).events
      ensures pVariant == old(chip).plusVariant && !ce
    {
      WriteCe(false);
      assert Run(chip, trace) == Run(old(chip), old(trace)).Ce(false);
      ConfigureRf();
      ConfigureProtocol();
    }

    /** The RF part of rf24_initialize (src/rf24.c:347-369): reset, retransmits,
        full power, the variant probe, then 1 Mbps. */
    method ConfigureRf()
      modifies this`chip, this`trace, this`pVariant
      ensures chip == RfDefaults(Run(old(chip), old(trace))).chip
      ensures trace == RfDefaults(Run(old(chip), old(trace))).events
      ensures pVariant == old(chip).plusVariant
    {
      Reset();
      WriteRegister(SETUP_RETR, (0x5 << ARD) | (0xF << ARC));
      SetPaLevel(PaMax);
      ProbeVariant();
      SetDataRate(Rate1Mbps);
    }

    /** The 250 kbps probe (src/rf24.c:365-366): the original nRF24L01 cannot hold
        RF_DR_LOW, so reading 250 kbps back means the chip is an nRF24L01+. */
    method ProbeVariant()
      modifies this`chip, this`trace, this`pVariant
      ensures chip == old(chip).StoreRegister(RF_SETUP, DataRateSetup(old(chip).Reg(RF_SETUP), Rate250Kbps))
      ensures pVariant == old(chip).plusVariant
      ensures trace == old(trace)
                + [ReadEvent(RF_SETUP), WriteEvent(RF_SETUP, DataRateSetup(old(chip).Reg(RF_SETUP), Rate250Kbps))]
                + [ReadEvent(RF_SETUP)]
    {
      VariantProbe(chip, chip.Reg(RF_SETUP));
      SetDataRate(Rate250Kbps);
      var rate := GetDataRate();
      pVariant := rate == Rate250Kbps;
    }

    /** The protocol part of rf24_initialize (src/rf24.c:371-386). */
    method ConfigureProtocol()
      modifies this`chip, this`trace
      ensures chip == ProtocolDefaults(Run(old(chip), old(trace))).chip
      ensures trace == ProtocolDefaults(Run(old(chip), old(trace))).events
    {
      SetCrcLength(Crc16);
      WriteRegister(DYNPD, 0);
      WriteRegister(STATUS, RX_DR | TX_DS | MAX_RT);
      SetChannel(DEFAULT_CHANNEL);
      UnmaskIrqs();
      FlushRx();
      FlushTx();
    }

    // ----- the bus (src/rf24.c:403-481, 522-547) -----

    /** One byte of spi_transfer inside the transaction that has sent `frame` so far. */
    method Transfer(frame: seq<byte>, mosi: byte) returns (miso: byte, sent: seq<byte>)
      ensures miso == chip.Response(frame)
      ensures sent == frame + [mosi]
    {
      miso := chip.Response(frame);
      sent := frame + [mosi];
    }

    /** CSN high: the chip acts on the whole transaction. */
    method EndFrame(frame: seq<byte>)
      modifies this`chip, this`trace
      ensures chip == old(chip).Apply(frame)
      ensures trace == old(trace) + [Frame(frame)]
    {
      chip := chip.Apply(frame);
      trace := trace + [Frame(frame)];
    }

    /** gpio_write on the CE pin. */
    method WriteCe(high: bool)
      modifies this`ce, this`trace
      ensures ce == high
      ensures trace == old(trace) + [CeLevel(high)]
    {
      ce := high;
      trace := trace + [CeLevel(high)];
    }

    /** rf24_read_register: the value the register reads, and no change to the chip. */
    method ReadRegister(r: byte) returns (v: byte)
      modifies this`chip, this`trace
      ensures v == old(chip).RegisterValue(r & REGISTER_MASK)
      ensures chip == old(chip)
      ensures trace == old(trace) + [ReadEvent(r)]
    {
      var frame: seq<byte> := [];
      var miso: byte;
      miso, frame := Transfer(frame, R_REGISTER | (REGISTER_MASK & r));
      v, frame := Transfer(frame, 0xFF);
      assert frame == ReadRegisterFrame(r);
      ReadFrameKeeps(chip, frame);
      EndFrame(frame);
    }

    /** rf24_write_register: the chip stores the value as that register takes writes. */
    method WriteRegister(r: byte, v: byte)
      requires !IsAddressRegister(r & REGISTER_MASK)
      modifies this`chip, this`trace
      ensures chip == old(chip).StoreRegister(r & REGISTER_MASK, v)
      ensures trace == old(trace) + [WriteEvent(r, v)]
    {
      var frame: seq<byte> := [];
      var miso: byte;
      miso, frame := Transfer(frame, W_REGISTER | (REGISTER_MASK & r));
      miso, frame := Transfer(frame, v);
      assert frame == WriteRegisterFrame(r, v);
      WriteRegisterFrameStores(chip, r, v);
      EndFrame(frame);
    }

    /** rf24_read_address: five bytes, least significant first, assembled into a
        `uint64` whose encoding gives those bytes back. */
    method ReadAddress(r: byte) returns (a: bv64)
      modifies this`chip, this`trace
      ensures AddressBytes(a) == old(chip).RegisterBytes(r & REGISTER_MASK)
      ensures a & !ADDRESS_MASK == 0
      ensures chip == old(chip)
      ensures trace == old(trace) + [Frame(ReadAddressFrame(r))]
    {
      var cmd := R_REGISTER | (REGISTER_MASK & r);
      var frame: seq<byte> := [];
      var miso: byte;
      miso, frame := Transfer(frame, cmd);
      var bytes: seq<byte> := [];
      var len := 5;
      while len > 0
        invariant 0 <= len <= 5
        invariant chip == old(chip) && trace == old(trace)
        invariant |bytes| == 5 - len
        invariant frame == [cmd] + Repeat(0xFF, |bytes|)
        invariant forall k :: 0 <= k < |bytes| ==> bytes[k] == chip.RegisterByte(r & REGISTER_MASK, k)
      {
        var b;
        b, frame := Transfer(frame, 0xFF);
        bytes := bytes + [b];
        len := len - 1;
      }
      a := AddressValue(bytes);
      AddressBytesOfValue(bytes);
      assert bytes == chip.RegisterBytes(r & REGISTER_MASK);
      assert frame == ReadAddressFrame(r);
      ReadFrameKeeps(chip, frame);
      EndFrame(frame);
    }

    /** rf24_write_address: the low five bytes of `a`, least significant first. */
    method WriteAddress(r: byte, a: bv64)
      requires IsAddressRegister(r)
      modifies this`chip, this`trace
      ensures chip == old(chip).StoreAddress(r, AddressBytes(a))
      ensures chip.RegisterBytes(r) == AddressBytes(a)
      ensures trace == old(trace) + [Frame(WriteAddressFrame(r, a))]
    {
      var cmd := W_REGISTER | (REGISTER_MASK & r);
      var bytes := AddressBytes(a);
      var frame: seq<byte> := [];
      var miso: byte;
      miso, frame := Transfer(frame, cmd);
      var i := 0;
      while i < 5
        invariant 0 <= i <= 5
        invariant chip == old(chip) && trace == old(trace)
        invariant frame == [cmd] + bytes[..i]
      {
        miso, frame := Transfer(frame, AddressByte(a, i));
        i := i + 1;
      }
      assert frame == WriteAddressFrame(r, a);
      WriteAddressFrameStores(chip, r, a);
      EndFrame(frame);
    }

    /** rf24_write_payload (src/rf24.c:145-170): the command, the caller's bytes, and,
        for W_TX_PAYLOAD only, zeros up to the fixed payload size. */
    method WritePayload(cmd: byte, buf: seq<byte>)
      requires |buf| <= 255
      requires dynamicPayloadsEnabled == 0 ==> |buf| <= payloadSize as int
      requires cmd == W_TX_PAYLOAD || ackPayloadEnabled != 0
      modifies this`chip, this`trace
      ensures var blanks := TxBlanks(dynamicPayloadsEnabled, payloadSize, |buf|);
              && chip == old(chip).Apply(PayloadFrame(cmd, buf, blanks))
              && trace == old(trace) + [Frame(PayloadFrame(cmd, buf, blanks))]
    {
      var blanks := TxBlanks(dynamicPayloadsEnabled, payloadSize, |buf|);
      var frame: seq<byte> := [];
      var miso: byte;
      miso, frame := Transfer(frame, cmd);
      var i := 0;
      while i < |buf|
        invariant 0 <= i <= |buf|
        invariant chip == old(chip) && trace == old(trace)
        invariant frame == [cmd] + buf[..i]
      {
        miso, frame := Transfer(frame, buf[i]);
        i := i + 1;
      }
      assert buf[..|buf|] == buf;
      if cmd == W_TX_PAYLOAD {
        var j := 0;
        while j < blanks
          invariant 0 <= j <= blanks
          invariant chip == old(chip) && trace == old(trace)
          invariant frame == [cmd] + buf + Repeat(0, j)
        {
          miso, frame := Transfer(frame, 0);
          j := j + 1;
        }
      }
      assert frame == PayloadFrame(cmd, buf, blanks);
      EndFrame(frame);
    }

    /** rf24_enable_features: the ACTIVATE command with its key, which toggles
        whether FEATURE is writable (the only effect of the latch in this model). */
    method EnableFeatures()
      modifies this`chip, this`trace
      ensures chip == old(chip).(featureActive := !old(chip).featureActive)
      ensures trace == old(trace) + [Frame(ActivateFrame())]
    {
      var frame: seq<byte> := [];
      var miso: byte;
      miso, frame := Transfer(frame, ACTIVATE);
      miso, frame := Transfer(frame, ACTIVATE_KEY);
      assert frame == ActivateFrame();
      EndFrame(frame);
    }

    /** rf24_flush_rx: the RX FIFO is emptied. */
    method FlushRx()
      modifies this`chip, this`trace
      ensures chip == old(chip).(rxFifo := [])
      ensures trace == old(trace) + [Frame([FLUSH_RX])]
    {
      var frame: seq<byte> := [];
      var miso: byte;
      miso, frame := Transfer(frame, FLUSH_RX);
      assert frame == [FLUSH_RX];
      EndFrame(frame);
    }

    /** rf24_flush_tx: the TX FIFO is emptied. */
    method FlushTx()
      modifies this`chip, this`trace
      ensures chip == old(chip).(txFifo := [])
      ensures trace == old(trace) + [Frame([FLUSH_TX])]
    {
      var frame: seq<byte> := [];
      var miso: byte;
      miso, frame := Transfer(frame, FLUSH_TX);
      assert frame == [FLUSH_TX];
      EndFrame(frame);
    }

    /** rf24_get_status: STATUS, shifted out while the host sends NOP. */
    method GetStatus() returns (st: byte)
      modifies this`chip, this`trace
      ensures st == old(chip).Status()
      ensures chip == old(chip)
      ensures trace == old(trace) + [Frame([NOP])]
    {
      var frame: seq<byte> := [];
      st, frame := Transfer(frame, NOP);
      assert frame == [NOP];
      EndFrame(frame);
    }

    /** rf24_get_dynamic_payload_size: the width of the payload at the head of the
        RX FIFO, 0 when it is empty. */
    method GetDynamicPayloadSize() returns (width: byte)
      modifies this`chip, this`trace
      ensures width == (if old(chip).rxFifo == [] then 0 else |old(chip).rxFifo[0].data| as byte)
      ensures width as int <= 32
      ensures chip == old(chip)
      ensures trace == old(trace) + [Frame([R_RX_PL_WID, 0xFF])]
    {
      var frame: seq<byte> := [];
      var miso: byte;
      miso, frame := Transfer(frame, R_RX_PL_WID);
      width, frame := Transfer(frame, 0xFF);
      assert frame == [R_RX_PL_WID, 0xFF];
      EndFrame(frame);
    }

    // ----- pipes and listening (src/rf24.c:48-93) -----

    /** The address step of rf24_open_reading_pipe (src/rf24.c:57-61). */
    method SetPipeAddress(pipe: byte, address: bv64)
      requires pipe <= 5
      modifies this`chip, this`trace
      ensures chip == PipeAddressSet(old(chip), pipe, address)
      ensures trace == old(trace) + [PipeAddressEvent(pipe, address)]
    {
      if pipe == 0 || pipe == 1 {
        WriteAddress(PipeAddressRegister(pipe), address);
      } else {
        WriteRegister(PipeAddressRegister(pipe), AddressByte(address, 0));
      }
    }

    /** rf24_open_reading_pipe: the address (remembered when it is pipe 0's), the
        pipe's payload width, and its bit set in EN_RXADDR; `Effects.ReadingPipeOpened`
        and the lemmas after it say what that does to each register. */
    method OpenReadingPipe(pipe: byte, address: bv64)
      requires pipe <= 5
      modifies this`pipe0Address, this`chip, this`trace
      ensures pipe0Address == (if pipe == 0 then address else old(pipe0Address))
      ensures chip == ReadingPipeOpened(old(chip), pipe, address, payloadSize)
      ensures trace == old(trace) + [PipeAddressEvent(pipe, address), WriteEvent(PipeWidthRegister(pipe), payloadSize),
                ReadEvent(EN_RXADDR), WriteEvent(EN_RXADDR, chip.Reg(EN_RXADDR))]
    {
      if pipe == 0 {
        pipe0Address := address;
      }
      SetPipeAddress(pipe, address);
      WriteRegister(PipeWidthRegister(pipe), payloadSize);
      var enabled := ReadRegister(EN_RXADDR);
      WriteRegister(EN_RXADDR, enabled | PipeBit(pipe));
    }

    /** rf24_open_writing_pipe: the address goes to RX_ADDR_P0 (for the
        acknowledgement) and TX_ADDR, and pipe 0's width becomes the fixed payload
        size. The remembered pipe-0 reading address is left as it was. */
    method OpenWritingPipe(address: bv64)
      modifies this`chip, this`trace
      ensures chip == WritingPipeOpened(old(chip), address, payloadSize)
      ensures trace == old(trace) + [Frame(WriteAddressFrame(RX_ADDR_P0, address)),
                Frame(WriteAddressFrame(TX_ADDR, address)), WriteEvent(RX_PW_P0, payloadSize)]
    {
      WriteAddress(RX_ADDR_P0, address);
      WriteAddress(TX_ADDR, address);
      WriteRegister(RX_PW_P0, payloadSize);
    }

    /** The register writes of rf24_start_listening (src/rf24.c:75-76): CONFIG
        powered up as primary receiver, then the three event flags cleared. */
    method EnterReceive()
      modifies this`chip, this`trace
      ensures chip == old(chip).StoreRegister(CONFIG, RxConfig(old(chip).Reg(CONFIG))).StoreRegister(STATUS, EVENT_FLAGS)
      ensures trace == old(trace)
                + [ReadEvent(CONFIG), WriteEvent(CONFIG, RxConfig(old(chip).Reg(CONFIG))), WriteEvent(STATUS, EVENT_FLAGS)]
    {
      ghost var c0 := chip;
      var config := ReadRegister(CONFIG);
      assert config | PWR_UP | PRIM_RX == RxConfig(c0.Reg(CONFIG));
      WriteRegister(CONFIG, config | PWR_UP | PRIM_RX);
      WriteRegister(STATUS, RX_DR | TX_DS | MAX_RT);
    }

    /** rf24_start_listening: powered up as primary receiver, event flags cleared,
        pipe 0's reading address put back when one was opened, CE high. */
    method StartListening()
      modifies this`chip, this`trace, this`ce
      ensures chip == Listening(old(chip), pipe0Address)
      ensures ce
      ensures trace == old(trace)
                + [ReadEvent(CONFIG), WriteEvent(CONFIG, RxConfig(old(chip).Reg(CONFIG))), WriteEvent(STATUS, EVENT_FLAGS)]
                + (if pipe0Address != 0 then [Frame(WriteAddressFrame(RX_ADDR_P0, pipe0Address))] else [])
                + [CeLevel(true)]
    {
      EnterReceive();
      if pipe0Address != 0 {
        WriteAddress(RX_ADDR_P0, pipe0Address);
      }
      WriteCe(true);
    }

    /** rf24_stop_listening: CE low, then both FIFOs flushed. */
    method StopListening()
      modifies this`chip, this`trace, this`ce
      ensures chip == old(chip).(rxFifo := [], txFifo := [])
      ensures !ce
      ensures trace == old(trace) + [CeLevel(false), Frame([FLUSH_RX]), Frame([FLUSH_TX])]
    {
      WriteCe(false);
      FlushRx();
      FlushTx();
    }

    // ----- sending (src/rf24.c:172-209) -----

    /** rf24_send_ack_on_pipe: the payload is queued unpadded, for the
        acknowledgement of the next packet on pipe `pipeNo & 7`. */
    method SendAckOnPipe(pipeNo: byte, buf: seq<byte>)
      requires |buf| <= 255
      requires dynamicPayloadsEnabled == 0 ==> |buf| <= payloadSize as int
      requires ackPayloadEnabled != 0
      modifies this`chip, this`trace
      ensures chip == old(chip).(txFifo := old(chip).txFifo + [buf])
      ensures trace == old(trace) + [Frame([W_ACK_PAYLOAD | (pipeNo & 7)] + buf)]
    {
      var cmd := W_ACK_PAYLOAD | (pipeNo & 7);
      WritePayload(cmd, buf);
      assert PayloadFrame(cmd, buf, TxBlanks(dynamicPayloadsEnabled, payloadSize, |buf|)) == [cmd] + buf;
      assert ([cmd] + buf)[1..] == buf;
    }

    /** The arming step of rf24_send (src/rf24.c:190-191): powered up as primary
        transmitter, then the payload loaded. */
    method Arm(buf: seq<byte>)
      requires |buf| <= 255
      requires dynamicPayloadsEnabled == 0 ==> |buf| <= payloadSize as int
      modifies this`chip, this`trace
      ensures chip == Armed(old(chip), buf, dynamicPayloadsEnabled, payloadSize)
      ensures trace == old(trace)
                + [ReadEvent(CONFIG), WriteEvent(CONFIG, chip.Reg(CONFIG)),
                   Frame(PayloadFrame(W_TX_PAYLOAD, buf, TxBlanks(dynamicPayloadsEnabled, payloadSize, |buf|)))]
    {
      var config := ReadRegister(CONFIG);
      WriteRegister(CONFIG, (config | PWR_UP) & !PRIM_RX);
      WritePayload(W_TX_PAYLOAD, buf);
    }

    /** The CE pulse of rf24_send (src/rf24.c:194-196) that starts the
        transmission; the 10 microsecond wait between the edges is not modelled. */
    method PulseCe()
      modifies this`ce, this`trace
      ensures !ce
      ensures trace == old(trace) + [CeLevel(true)] + [CeLevel(false)]
    {
      WriteCe(true);
      WriteCe(false);
    }

    /** rf24_send up to the end of its poll (src/rf24.c:190-205): arm, pulse CE,
        then read OBSERVE_TX until the chip reports or the timeout passes. */
    method Transmit(buf: seq<byte>, air: AirEvent, clock: seq<nat>) returns (ghost armed: ChipState, polls: nat)
      requires |buf| <= 255
      requires dynamicPayloadsEnabled == 0 ==> |buf| <= payloadSize as int
      requires ClockRunsPast(clock, txTimeout)
      modifies this`chip, this`trace, this`ce
      ensures armed == Armed(old(chip), buf, dynamicPayloadsEnabled, payloadSize)
      ensures polls == FirstStop(armed, air, clock, txTimeout, 1)
      ensures chip == ChipAtPoll(armed, air, polls)
      ensures trace == old(trace)
                + [ReadEvent(CONFIG), WriteEvent(CONFIG, armed.Reg(CONFIG)),
                   Frame(PayloadFrame(W_TX_PAYLOAD, buf, TxBlanks(dynamicPayloadsEnabled, payloadSize, |buf|)))]
                + [CeLevel(true)] + [CeLevel(false)]
                + Repeat(ReadEvent(OBSERVE_TX), polls)
      ensures !ce
    {
      Arm(buf);
      armed := chip;
      PulseCe();
      polls := Poll(air, clock);
    }

    /** rf24_send: arm, pulse CE, then read OBSERVE_TX until one of the bits the
        driver tests is set or `tx_timeout` milliseconds have passed since `clock[0]`,
        and report TX_DS from a fresh status snapshot. `air` says when the chip
        finishes transmitting; `clock` holds the readings of the millisecond clock. */
    method Send(buf: seq<byte>, air: AirEvent, clock: seq<nat>) returns (txOk: byte, ghost armed: ChipState, ghost polls: nat)
      requires |buf| <= 255
      requires dynamicPayloadsEnabled == 0 ==> |buf| <= payloadSize as int
      requires ClockRunsPast(clock, txTimeout)
      modifies this`chip, this`trace, this`ce, this`status
      ensures armed == Armed(old(chip), buf, dynamicPayloadsEnabled, payloadSize)
      ensures polls == FirstStop(armed, air, clock, txTimeout, 1)
      ensures chip == ChipAtPoll(armed, air, polls)
      ensures trace == old(trace)
                + [ReadEvent(CONFIG), WriteEvent(CONFIG, armed.Reg(CONFIG)),
                   Frame(PayloadFrame(W_TX_PAYLOAD, buf, TxBlanks(dynamicPayloadsEnabled, payloadSize, |buf|)))]
                + [CeLevel(true)] + [CeLevel(false)]
                + Repeat(ReadEvent(OBSERVE_TX), polls)
                + SyncEvents(dynamicPayloadsEnabled)
      ensures status == SnapshotOf(chip, dynamicPayloadsEnabled, payloadSize)
      ensures txOk == status.txOk
      ensures !ce
    {
      armed, polls := Transmit(buf, air, clock);
      SyncStatus();
      txOk := status.txOk;
    }

    /** The do-while of rf24_send (src/rf24.c:200-205): OBSERVE_TX read once per
        step of the air, until the bits it tests are set or the clock has run
        `tx_timeout` past `clock[0]`; `polls` is the number of reads. */
    method Poll(air: AirEvent, clock: seq<nat>) returns (polls: nat)
      requires ClockRunsPast(clock, txTimeout)
      modifies this`chip, this`trace
      ensures polls == FirstStop(old(chip), air, clock, txTimeout, 1)
      ensures chip == ChipAtPoll(old(chip), air, polls)
      ensures trace == old(trace) + Repeat(ReadEvent(OBSERVE_TX), polls)
    {
      var armed := chip;
      polls := 0;
      var more := true;
      while more
        invariant 0 <= polls < |clock|
        invariant chip == ChipAtPoll(armed, air, polls)
        invariant trace == old(trace) + Repeat(ReadEvent(OBSERVE_TX), polls)
        invariant forall j :: 1 <= j < polls ==> PollContinues(armed, air, clock, txTimeout, j)
        invariant polls == 0 ==> more
        invariant polls >= 1 ==> (more <==> PollContinues(armed, air, clock, txTimeout, polls))
        decreases |clock| - polls
      {
        polls := polls + 1;
        chip := ChipAtPoll(armed, air, polls);
        var observe := ReadRegister(OBSERVE_TX);
        more := observe & (TX_DS | MAX_RT) == 0 && clock[polls] - clock[0] < txTimeout;
      }
    }

    // ----- status (src/rf24.c:211-228, 253-289) -----

    /** rf24_sync_status: the snapshot of STATUS, with the payload width asked for
        only when `dynamic_payloads_enabled` is exactly 1. */
    method SyncStatus()
      modifies this`status, this`chip, this`trace
      ensures chip == old(chip)
      ensures status == SnapshotOf(chip, dynamicPayloadsEnabled, payloadSize)
      ensures trace == old(trace) + SyncEvents(dynamicPayloadsEnabled)
    {
      var st := ReadRegister(STATUS);
      var flags := st & (RX_DR | TX_DS | MAX_RT);
      var pipeNo := (flags >> RX_P_NO_SHIFT) & 7;
      var dynLen: byte := 0;
      if dynamicPayloadsEnabled == 1 {
        dynLen := GetDynamicPayloadSize();
      }
      status := Snapshot(flags & TX_DS, flags & MAX_RT, flags & RX_DR, dynLen,
                         if dynamicPayloadsEnabled == 1 then 0 else payloadSize, pipeNo);
    }

    /** rf24_reset_status: the three event flags cleared on the chip, the snapshot zeroed. */
    method ResetStatus()
      modifies this`status, this`chip, this`trace
      ensures chip == old(chip).StoreRegister(STATUS, EVENT_FLAGS)
      ensures chip.Status() & EVENT_FLAGS == 0
      ensures status == Cleared
      ensures trace == old(trace) + [WriteEvent(STATUS, EVENT_FLAGS)]
    {
      ClearEventsClearsStatus(chip);
      WriteRegister(STATUS, RX_DR | TX_DS | MAX_RT);
      status := Cleared;
    }

    /** rf24_data_available: RX_DR of STATUS, nothing acknowledged. */
    method DataAvailable() returns (result: byte)
      modifies this`chip, this`trace
      ensures result == chip.Status() & RX_DR
      ensures result != 0 <==> chip.Reg(STATUS) & RX_DR != 0
      ensures chip == old(chip)
      ensures trace == old(trace) + [Frame([NOP])]
    {
      var st := GetStatus();
      result := st & RX_DR;
    }

    /** rf24_data_available_on_pipe with a pipe pointer: RX_DR as found, the pipe of
        the packet at the head of the RX FIFO, and RX_DR (and TX_DS when it was set)
        acknowledged. */
    method DataAvailableOnPipe() returns (result: byte, pipe: byte)
      modifies this`chip, this`trace
      ensures result == old(chip).Status() & RX_DR
      ensures result != 0 <==> old(chip).Reg(STATUS) & RX_DR != 0
      ensures pipe == PipeOfStatus(old(chip).Status())
      ensures old(chip).rxFifo != [] ==> pipe == old(chip).rxFifo[0].pipe
      ensures chip == EventsAcknowledged(old(chip))
      ensures trace == old(trace) + [Frame([NOP]), WriteEvent(STATUS, RX_DR)]
                + (if old(chip).Reg(STATUS) & TX_DS != 0 then [WriteEvent(STATUS, TX_DS)] else [])
    {
      StatusPipeField(chip);
      var st := GetStatus();
      result := st & RX_DR;
      pipe := (st >> RX_P_NO_SHIFT) & 7;
      WriteRegister(STATUS, RX_DR);
      if st & TX_DS != 0 {
        WriteRegister(STATUS, TX_DS);
      }
    }

    // ----- receiving (src/rf24.c:230-251) -----

    /** The command and copying loop of rf24_receive (src/rf24.c:238-243):
        R_RX_PAYLOAD, then one dummy 0xFF per byte, the byte shifted back stored at
        the next place of `buf`. */
    method ReadPayloadBytes(buf: array<byte>, len: byte) returns (frame: seq<byte>)
      requires len as int <= buf.Length
      modifies buf
      ensures frame == ReceiveFrame(len as int)
      ensures forall k :: 0 <= k < len as int ==> buf[k] == chip.PayloadByte(k)
      ensures forall k :: len as int <= k < buf.Length ==> buf[k] == old(buf[k])
    {
      var miso;
      miso, frame := Transfer([], R_RX_PAYLOAD);
      assert frame == ReceiveFrame(0);
      var i := 0;
      while i < len as int
        invariant 0 <= i <= len as int
        invariant frame == ReceiveFrame(i)
        invariant forall k :: 0 <= k < i ==> buf[k] == chip.PayloadByte(k)
        invariant forall k :: i <= k < buf.Length ==> buf[k] == old(buf[k])
      {
        PayloadResponse(chip, frame);
        var b;
        b, frame := Transfer(frame, 0xFF);
        buf[i] := b;
        ReceiveFrameGrows(i);
        i := i + 1;
      }
    }

    /** The padding loop of rf24_receive (src/rf24.c:244-245): `blanks` more dummy
        bytes after the `sent` already clocked, whatever the chip shifts back
        discarded. */
    method DrainBlanks(frame0: seq<byte>, sent: nat, blanks: nat) returns (frame: seq<byte>)
      requires frame0 == ReceiveFrame(sent)
      ensures frame == ReceiveFrame(sent + blanks)
    {
      frame := frame0;
      var j := 0;
      while j < blanks
        invariant 0 <= j <= blanks
        invariant frame == ReceiveFrame(sent + j)
      {
        var miso;
        miso, frame := Transfer(frame, 0xFF);
        ReceiveFrameGrows(sent + j);
        j := j + 1;
      }
    }

    /** The R_RX_PAYLOAD transaction of rf24_receive (src/rf24.c:238-248): `len`
        bytes of the head payload into `buf`, `blanks` dummies after them, and the
        packet popped from the RX FIFO at CSN high. */
    method ReadPayload(buf: array<byte>, len: byte, blanks: nat)
      requires len as int <= buf.Length
      modifies buf, this`chip, this`trace
      ensures forall k :: 0 <= k < len as int ==> buf[k] == old(chip).PayloadByte(k)
      ensures forall k :: len as int <= k < buf.Length ==> buf[k] == old(buf[k])
      ensures chip == old(chip).(rxFifo := if old(chip).rxFifo == [] then [] else old(chip).rxFifo[1..])
      ensures trace == old(trace) + [Frame(ReceiveFrame(len as int + blanks))]
    {
      ghost var c0 := chip;
      var frame := ReadPayloadBytes(buf, len);
      assert chip == c0;
      frame := DrainBlanks(frame, len as int, blanks);
      ReceiveFramePops(c0, len as int + blanks);
      assert c0.Apply(frame) == c0.(rxFifo := if c0.rxFifo == [] then [] else c0.rxFifo[1..]);
      EndFrame(frame);
    }

    /** rf24_receive: `len` bytes of the head payload into `buf`, then dummy bytes
        up to the fixed payload size unless `dynamic_payloads_enabled` is exactly 1;
        the packet leaves the RX FIFO, and the result is RX_EMPTY of FIFO_STATUS. */
    method Receive(buf: array<byte>, len: byte) returns (rxEmpty: byte)
      requires len as int <= buf.Length
      modifies buf, this`chip, this`trace
      ensures forall k :: 0 <= k < len as int ==> buf[k] == old(chip).PayloadByte(k)
      ensures forall k :: len as int <= k < buf.Length ==> buf[k] == old(buf[k])
      ensures chip == old(chip).(rxFifo := if old(chip).rxFifo == [] then [] else old(chip).rxFifo[1..])
      ensures rxEmpty == (if chip.rxFifo == [] then RX_EMPTY else 0)
      ensures trace == old(trace)
                + [Frame(ReceiveFrame(len as int + RxBlanks(dynamicPayloadsEnabled, payloadSize, len as int))),
                   ReadEvent(FIFO_STATUS)]
    {
      ReadPayload(buf, len, RxBlanks(dynamicPayloadsEnabled, payloadSize, len as int));
      var fifo := ReadRegister(FIFO_STATUS);
      rxEmpty := fifo & RX_EMPTY;
    }

    // ----- optional features (src/rf24.c:483-528) -----

    /** The FEATURE step shared by rf24_enable_ack_payload and
        rf24_enable_dynamic_payloads: write, read back, and on 0 activate and write again. */
    method SetFeatureBits(bits: byte)
      requires bits != 0
      modifies this`chip, this`trace
      ensures chip == FeatureSet(old(chip), bits)
      ensures trace == old(trace) + FeatureEvents(chip.Reg(FEATURE), !old(chip).featureActive)
    {
      var features := ReadRegister(FEATURE);
      features := features | bits;
      WriteRegister(FEATURE, features);
      var back := ReadRegister(FEATURE);
      if back == 0 {
        EnableFeatures();
        WriteRegister(FEATURE, features);
      }
    }

    /** rf24_enable_ack_payload: EN_ACK_PAY and EN_DPL in FEATURE, DPL_P0 in DYNPD;
        the mirror records acknowledgement payloads and ORs bit 0 into
        `dynamic_payloads_enabled`. */
    method EnableAckPayload()
      modifies this`chip, this`trace, this`ackPayloadEnabled, this`dynamicPayloadsEnabled
      ensures chip == AckPayloadOn(old(chip))
      ensures ackPayloadEnabled == 1
      ensures dynamicPayloadsEnabled == old(dynamicPayloadsEnabled) | DPL_P0
      ensures trace == old(trace) + FeatureEvents(chip.Reg(FEATURE), !old(chip).featureActive)
                + [ReadEvent(DYNPD), WriteEvent(DYNPD, chip.Reg(DYNPD))]
    {
      SetFeatureBits(EN_ACK_PAY | EN_DPL);
      var dynpd := ReadRegister(DYNPD);
      WriteRegister(DYNPD, dynpd | DPL_P0);
      ackPayloadEnabled := 1;
      dynamicPayloadsEnabled := dynamicPayloadsEnabled | DPL_P0;
    }

    /** rf24_enable_dynamic_payloads: EN_DPL in FEATURE, all six pipes in DYNPD; the
        mirror's `dynamic_payloads_enabled` becomes 0x3F. */
    method EnableDynamicPayloads()
      modifies this`chip, this`trace, this`dynamicPayloadsEnabled
      ensures chip == DynamicPayloadsOn(old(chip))
      ensures dynamicPayloadsEnabled == DPL_ALL_PIPES
      ensures trace == old(trace) + FeatureEvents(chip.Reg(FEATURE), !old(chip).featureActive)
                + [ReadEvent(DYNPD), WriteEvent(DYNPD, chip.Reg(DYNPD))]
    {
      SetFeatureBits(EN_DPL);
      var dynpd := ReadRegister(DYNPD);
      WriteRegister(DYNPD, dynpd | DPL_ALL_PIPES);
      dynamicPayloadsEnabled := DPL_ALL_PIPES;
    }

    // ----- register setters and getters (src/rf24.c:447-450, 549-699) -----

    /** rf24_unmask_irqs: the three MASK_ bits of CONFIG cleared, the rest kept. */
    method UnmaskIrqs()
      modifies this`chip, this`trace
      ensures chip == old(chip).StoreRegister(CONFIG, Unmasked(old(chip).Reg(CONFIG)))
      ensures trace == old(trace) + [ReadEvent(CONFIG), WriteEvent(CONFIG, Unmasked(old(chip).Reg(CONFIG)))]
    {
      ghost var c0 := chip;
      var config := ReadRegister(CONFIG);
      assert config & !(MASK_RX_DR | MASK_TX_DS | MASK_MAX_RT) == Unmasked(c0.Reg(CONFIG));
      WriteRegister(CONFIG, config & !(MASK_RX_DR | MASK_TX_DS | MASK_MAX_RT));
    }

    /** rf24_disable_crc: EN_CRC cleared, the rest of CONFIG kept, so the CRC reads
        back disabled. */
    method DisableCrc()
      modifies this`chip, this`trace
      ensures chip == old(chip).StoreRegister(CONFIG, chip.Reg(CONFIG))
      ensures CrcLengthOf(chip.Reg(CONFIG)) == CrcDisabled
      ensures chip.Reg(CONFIG) & !EN_CRC == old(chip).Reg(CONFIG) & !EN_CRC
      ensures trace == old(trace) + [ReadEvent(CONFIG), WriteEvent(CONFIG, chip.Reg(CONFIG))]
    {
      var config := ReadRegister(CONFIG);
      WriteRegister(CONFIG, config & !EN_CRC);
    }

    /** rf24_set_crc_length: CONFIG rewritten by `Fields.CrcConfig`, so the mode reads
        back as set. */
    method SetCrcLength(m: CrcLength)
      modifies this`chip, this`trace
      ensures chip == old(chip).StoreRegister(CONFIG, CrcConfig(old(chip).Reg(CONFIG), m))
      ensures trace == old(trace) + [ReadEvent(CONFIG), WriteEvent(CONFIG, CrcConfig(old(chip).Reg(CONFIG), m))]
    {
      ghost var c0 := chip;
      var config := ReadRegister(CONFIG);
      config := config & !(CRCO | EN_CRC);
      match m {
        case CrcDisabled =>
        case Crc8 =>
          config := config | EN_CRC;
        case Crc16 =>
          config := config | EN_CRC;
          config := config | CRCO;
      }
      assert config == CrcConfig(c0.Reg(CONFIG), m);
      WriteRegister(CONFIG, config);
    }

    /** rf24_get_crc_length: the CRC mode CONFIG holds; the chip is only read. */
    method GetCrcLength() returns (m: CrcLength)
      modifies this`chip, this`trace
      ensures m == CrcLengthOf(chip.Reg(CONFIG))
      ensures chip == old(chip)
      ensures trace == old(trace) + [ReadEvent(CONFIG)]
    {
      var config := ReadRegister(CONFIG);
      var crc := config & (CRCO | EN_CRC);
      if crc & EN_CRC != 0 {
        if crc & CRCO != 0 {
          m := Crc16;
        } else {
          m := Crc8;
        }
      } else {
        m := CrcDisabled;
      }
    }

    /** rf24_set_pa_level: RF_PWR of RF_SETUP set for the level (PA_LOW falls through
        to PA_MIN's empty case after setting its bit), every other bit written back. */
    method SetPaLevel(level: PaLevel)
      modifies this`chip, this`trace
      ensures chip == old(chip).StoreRegister(RF_SETUP, PaSetup(old(chip).Reg(RF_SETUP), level))
      ensures trace == old(trace) + [ReadEvent(RF_SETUP), WriteEvent(RF_SETUP, PaSetup(old(chip).Reg(RF_SETUP), level))]
    {
      ghost var c0 := chip;
      var setup := ReadRegister(RF_SETUP);
      setup := setup & !(RF_PWR_LOW | RF_PWR_HIGH);
      match level {
        case PaMax =>
          setup := setup | (RF_PWR_LOW | RF_PWR_HIGH);
        case PaHigh =>
          setup := setup | RF_PWR_HIGH;
        case PaLow =>
          setup := setup | RF_PWR_LOW;
        case PaMin =>
      }
      assert setup == PaSetup(c0.Reg(RF_SETUP), level);
      WriteRegister(RF_SETUP, setup);
    }

    /** rf24_set_retries as written: SETUP_RETR receives `Fields.RetriesWordAsWritten`,
        which is the count alone. */
    method SetRetries(delay: byte, count: byte)
      requires delay <= 15 && count <= 15
      modifies this`chip, this`trace
      ensures chip == old(chip).StoreRegister(SETUP_RETR, RetriesWordAsWritten(delay, count))
      ensures chip.Reg(SETUP_RETR) == count
      ensures trace == old(trace) + [WriteEvent(SETUP_RETR, count)]
    {
      WriteRegister(SETUP_RETR, (delay & (0xF << ARD)) | ((count & 0xF) << ARC));
    }

    /** rf24_set_autoack: all six pipes acknowledged, or none. */
    method SetAutoAck(autoack: byte)
      modifies this`chip, this`trace
      ensures chip == old(chip).StoreRegister(EN_AA, chip.Reg(EN_AA))
      ensures chip.Reg(EN_AA) == (if autoack != 0 then 0x3F else 0)
      ensures trace == old(trace) + [WriteEvent(EN_AA, chip.Reg(EN_AA))]
    {
      if autoack != 0 {
        WriteRegister(EN_AA, 0x3F);
      } else {
        WriteRegister(EN_AA, 0);
      }
    }

    /** rf24_set_autoack_for_pipe: ENAA_Pn set or cleared as asked, the other bits
        of EN_AA kept. */
    method SetAutoAckForPipe(pipe: byte, autoack: byte)
      requires pipe <= 5
      modifies this`chip, this`trace
      ensures chip == old(chip).StoreRegister(EN_AA, chip.Reg(EN_AA))
      ensures chip.Reg(EN_AA) & PipeBit(pipe) != 0 <==> autoack != 0
      ensures chip.Reg(EN_AA) & !PipeBit(pipe) == old(chip).Reg(EN_AA) & !PipeBit(pipe)
      ensures trace == old(trace) + [ReadEvent(EN_AA), WriteEvent(EN_AA, chip.Reg(EN_AA))]
    {
      var enabled := ReadRegister(EN_AA);
      if autoack != 0 {
        WriteRegister(EN_AA, enabled | PipeBit(pipe));
      } else {
        WriteRegister(EN_AA, enabled & !PipeBit(pipe));
      }
    }

    /** rf24_power_up: PWR_UP set, the rest of CONFIG kept. */
    method PowerUp()
      modifies this`chip, this`trace
      ensures chip == old(chip).StoreRegister(CONFIG, chip.Reg(CONFIG))
      ensures chip.Reg(CONFIG) & PWR_UP != 0
      ensures chip.Reg(CONFIG) & !PWR_UP == old(chip).Reg(CONFIG) & !PWR_UP
      ensures trace == old(trace) + [ReadEvent(CONFIG), WriteEvent(CONFIG, chip.Reg(CONFIG))]
    {
      var config := ReadRegister(CONFIG);
      WriteRegister(CONFIG, config | PWR_UP);
    }

    /** rf24_power_down: PWR_UP cleared, the rest of CONFIG kept. */
    method PowerDown()
      modifies this`chip, this`trace
      ensures chip == old(chip).StoreRegister(CONFIG, chip.Reg(CONFIG))
      ensures chip.Reg(CONFIG) & PWR_UP == 0
      ensures chip.Reg(CONFIG) & !PWR_UP == old(chip).Reg(CONFIG) & !PWR_UP
      ensures trace == old(trace) + [ReadEvent(CONFIG), WriteEvent(CONFIG, chip.Reg(CONFIG))]
    {
      var config := ReadRegister(CONFIG);
      WriteRegister(CONFIG, config & !PWR_UP);
    }

    /** rf24_reset: CONFIG written with 0x0F, which is CRC on with 2 bytes, powered up,
        primary receiver, and no interrupt masked. */
    method Reset()
      modifies this`chip, this`trace
      ensures chip == old(chip).StoreRegister(CONFIG, 0x0F)
      ensures CrcLengthOf(chip.Reg(CONFIG)) == Crc16
      ensures chip.Reg(CONFIG) & MODE_BITS == MODE_BITS
      ensures chip.Reg(CONFIG) & (MASK_RX_DR | MASK_TX_DS | MASK_MAX_RT) == 0
      ensures trace == old(trace) + [WriteEvent(CONFIG, 0x0F)]
    {
      WriteRegister(CONFIG, 0x0F);
    }

    /** rf24_set_data_rate: RF_SETUP rewritten by `Fields.DataRateSetup`; what a
        chip that drops RF_DR_LOW then holds is `Effects.DataRateRoundTrip`. */
    method SetDataRate(rate: DataRate)
      modifies this`chip, this`trace
      ensures chip == old(chip).StoreRegister(RF_SETUP, DataRateSetup(old(chip).Reg(RF_SETUP), rate))
      ensures trace == old(trace) + [ReadEvent(RF_SETUP), WriteEvent(RF_SETUP, DataRateSetup(old(chip).Reg(RF_SETUP), rate))]
    {
      ghost var c0 := chip;
      var setup := ReadRegister(RF_SETUP);
      setup := setup & !(RF_DR_LOW | RF_DR_HIGH);
      match rate {
        case Rate250Kbps =>
          setup := setup | RF_DR_LOW;
        case Rate2Mbps =>
          setup := setup | RF_DR_HIGH;
        case Rate1Mbps =>
      }
      assert setup == DataRateSetup(c0.Reg(RF_SETUP), rate);
      WriteRegister(RF_SETUP, setup);
    }

    /** rf24_get_data_rate: the rate RF_SETUP holds; the chip is only read. */
    method GetDataRate() returns (rate: DataRate)
      modifies this`chip, this`trace
      ensures rate == DataRateOf(chip.Reg(RF_SETUP))
      ensures chip == old(chip)
      ensures trace == old(trace) + [ReadEvent(RF_SETUP)]
    {
      var setup := ReadRegister(RF_SETUP);
      var bits := setup & (RF_DR_LOW | RF_DR_HIGH);
      if bits == RF_DR_LOW {
        rate := Rate250Kbps;
      } else if bits == RF_DR_HIGH {
        rate := Rate2Mbps;
      } else {
        rate := Rate1Mbps;
      }
    }

    /** rf24_set_channel: RF_CH holds the channel, and the chip's lost-packet count
        starts again from zero while the retransmit count is kept. */
    method SetChannel(channel: byte)
      requires channel <= 127
      modifies this`chip, this`trace
      ensures chip == old(chip).StoreRegister(RF_CH, channel)
      ensures chip.Reg(RF_CH) == channel
      ensures chip.Reg(OBSERVE_TX) >> PLOS_CNT_SHIFT == 0
      ensures chip.Reg(OBSERVE_TX) & ARC_CNT_BITS == old(chip).Reg(OBSERVE_TX) & ARC_CNT_BITS
      ensures trace == old(trace) + [WriteEvent(RF_CH, channel)]
    {
      ChannelResetsLostCount(chip, channel);
      WriteRegister(RF_CH, channel);
    }

    /** rf24_get_payload_size: the fixed payload size of the mirror. */
    method GetPayloadSize() returns (size: byte)
      ensures size == payloadSize
    {
      size := payloadSize;
    }

    /** rf24_set_payload_size: the mirror's fixed payload size; no bus traffic (the
        pipes' width registers take it when they are opened). */
    method SetPayloadSize(size: byte)
      requires 0 < size <= 32
      modifies this`payloadSize
      ensures payloadSize == size
    {
      payloadSize := size;
    }
  }
}
