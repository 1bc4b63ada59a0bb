/** What rf24_initialize does to the chip and on the wires once the SPI device has
    opened (src/rf24.c:335-386), written as a run of bus operations, and the state
    it leaves the chip in. */
module Startup {
  import opened Nrf24
  import opened Chip
  import opened Fields
  import opened Effects

  /** The channel rf24_initialize selects (src/rf24.c:380). */
  const DEFAULT_CHANNEL: byte := 76

  /** CONFIG as rf24_reset writes it (src/rf24.c:651): CRC on with two bytes,
      powered up, primary receiver, no interrupt masked. */
  const RESET_CONFIG: byte := 0x0F

  /** A run of bus operations: the chip as it stands and the trace so far. Each
      step is one call of the driver's bus helpers. */
  datatype Run = Run(chip: ChipState, events: seq<BusEvent>) {
    /** rf24_write_register. */
    function Write(r: byte, v: byte): Run {
      Run(chip.StoreRegister(r, v), events + [WriteEvent(r, v)])
    }

    /** rf24_read_register followed by rf24_write_register of the same register. */
    function Update(r: byte, v: byte): Run {
      Run(chip.StoreRegister(r, v), events + [ReadEvent(r), WriteEvent(r, v)])
    }

    /** rf24_read_register whose value only the host uses. */
    function Read(r: byte): Run {
      Run(chip, events + [ReadEvent(r)])
    }

    /** gpio_write on the CE pin. */
    function Ce(high: bool): Run {
      Run(chip, events + [CeLevel(high)])
    }

    /** rf24_flush_rx then rf24_flush_tx. */
    function Flush(): Run {
      Run(chip.(rxFifo := []).(txFifo := []), events + [Frame([FLUSH_RX])] + [Frame([FLUSH_TX])])
    }
  }

  /** The RF set-up of rf24_initialize (src/rf24.c:347-369): reset, 1500 us and 15
      retransmits, full power, the 250 kbps probe read back, then 1 Mbps. */
  function RfDefaults(s: Run): Run {
    var s1 := s.Write(CONFIG, RESET_CONFIG).Write(SETUP_RETR, RetriesWord(5, 15));
    var s2 := s1.Update(RF_SETUP, PaSetup(s1.chip.Reg(RF_SETUP), PaMax));
    var s3 := s2.Update(RF_SETUP, DataRateSetup(s2.chip.Reg(RF_SETUP), Rate250Kbps)).Read(RF_SETUP);
    s3.Update(RF_SETUP, DataRateSetup(s3.chip.Reg(RF_SETUP), Rate1Mbps))
  }

  /** The protocol set-up that follows (src/rf24.c:371-386): 16-bit CRC, no dynamic
      payloads, event flags cleared, channel 76, interrupts unmasked, FIFOs flushed. */
  function ProtocolDefaults(s: Run): Run {
    var s1 := s.Update(CONFIG, CrcConfig(s.chip.Reg(CONFIG), Crc16))
               .Write(DYNPD, 0).Write(STATUS, EVENT_FLAGS).Write(RF_CH, DEFAULT_CHANNEL);
    s1.Update(CONFIG, Unmasked(s1.chip.Reg(CONFIG))).Flush()
  }

  /** Everything rf24_initialize does after the SPI device opened, starting from
      chip `c` with trace `t`. */
  function Started(c: ChipState, t: seq<BusEvent>): Run {
    ProtocolDefaults(RfDefaults(Run(c, t).Ce(false)))
  }

  /** The 250 kbps probe reads 250 kbps back exactly on the nRF24L01+: the original
      chip drops RF_DR_LOW, so the probe tells the variants apart. */
  lemma VariantProbe(c: ChipState, setup: byte)
    ensures (DataRateOf(c.StoreRegister(RF_SETUP, DataRateSetup(setup, Rate250Kbps)).Reg(RF_SETUP))
             == Rate250Kbps) <==> c.plusVariant
  {
    DataRateProbe(setup);
  }

  /** The RF set-up leaves RF_SETUP at full power and 1 Mbps, SETUP_RETR at 0x5F
      and CONFIG at the reset value. */
  lemma RfDefaultsEffect(s: Run)
    ensures var d := RfDefaults(s).chip;
            && d.Reg(CONFIG) == RESET_CONFIG
            && d.Reg(SETUP_RETR) == 0x5F
            && PaLevelOf(d.Reg(RF_SETUP)) == PaMax
            && DataRateOf(d.Reg(RF_SETUP)) == Rate1Mbps
  {
    RetriesDelayLost(5, 15);
    var c2 := s.chip.StoreRegister(CONFIG, RESET_CONFIG).StoreRegister(SETUP_RETR, RetriesWord(5, 15));
    var v3 := PaSetup(c2.Reg(RF_SETUP), PaMax);
    var c3 := c2.StoreRegister(RF_SETUP, v3);
    var v4 := DataRateSetup(c3.Reg(RF_SETUP), Rate250Kbps);
    var c4 := c3.StoreRegister(RF_SETUP, v4);
    var v5 := DataRateSetup(c4.Reg(RF_SETUP), Rate1Mbps);
    assert RfDefaults(s).chip == c4.StoreRegister(RF_SETUP, v5);
    // the PA bits survive both data-rate writes, on either variant
    assert v4 & RF_PWR_BITS == v3 & RF_PWR_BITS;
    assert c4.Reg(RF_SETUP) & RF_PWR_BITS == v3 & RF_PWR_BITS;
    assert v5 & RF_PWR_BITS == v3 & RF_PWR_BITS;
  }

  /** The RF set-up changes CONFIG, SETUP_RETR and RF_SETUP only. */
  lemma RfDefaultsOnly(s: Run)
    ensures OnlyChanged(s.chip, RfDefaults(s).chip, {CONFIG, SETUP_RETR, RF_SETUP}, {})
  {
    var d := RfDefaults(s).chip;
    forall r: byte | r !in {CONFIG, SETUP_RETR, RF_SETUP}
      ensures d.Reg(r) == s.chip.Reg(r)
    {
    }
  }

  /** The protocol set-up leaves CONFIG with 16-bit CRC and no interrupt masked,
      DYNPD 0, no event flag, channel 76, no lost packet counted and both FIFOs
      empty; the RF set-up before it is kept. */
  lemma ProtocolDefaultsEffect(s: Run)
    ensures var d := ProtocolDefaults(s).chip;
            && d.Reg(CONFIG) == Unmasked(CrcConfig(s.chip.Reg(CONFIG), Crc16))
            && d.Reg(DYNPD) == 0
            && d.Status() & EVENT_FLAGS == 0
            && d.Reg(RF_CH) == DEFAULT_CHANNEL
            && d.Reg(OBSERVE_TX) >> PLOS_CNT_SHIFT == 0
            && d.rxFifo == [] && d.txFifo == []
            && d.Reg(SETUP_RETR) == s.chip.Reg(SETUP_RETR)
            && d.Reg(RF_SETUP) == s.chip.Reg(RF_SETUP)
  {
    var c2 := s.chip.StoreRegister(CONFIG, CrcConfig(s.chip.Reg(CONFIG), Crc16)).StoreRegister(DYNPD, 0);
    var c3 := c2.StoreRegister(STATUS, EVENT_FLAGS);
    var c4 := c3.StoreRegister(RF_CH, DEFAULT_CHANNEL);
    var d := c4.StoreRegister(CONFIG, Unmasked(c4.Reg(CONFIG))).(rxFifo := []).(txFifo := []);
    assert d == ProtocolDefaults(s).chip;
    ClearEventsClearsStatus(c2);
    assert d.Reg(STATUS) == c3.Reg(STATUS);
    ChannelResetsLostCount(c3, DEFAULT_CHANNEL);
    assert d.Reg(OBSERVE_TX) == c4.Reg(OBSERVE_TX);
  }

  /** The protocol set-up changes CONFIG, DYNPD, STATUS, RF_CH and OBSERVE_TX
      only, besides emptying both FIFOs. */
  lemma ProtocolDefaultsOnly(s: Run)
    ensures OnlyChanged(s.chip.(rxFifo := []).(txFifo := []), ProtocolDefaults(s).chip,
                        {CONFIG, DYNPD, STATUS, RF_CH, OBSERVE_TX}, {})
  {
    var d := ProtocolDefaults(s).chip;
    forall r: byte | r !in {CONFIG, DYNPD, STATUS, RF_CH, OBSERVE_TX}
      ensures d.Reg(r) == s.chip.Reg(r)
    {
    }
  }

  /** rf24_initialize, once the SPI device opened, leaves the chip powered up as a
      primary receiver with 16-bit CRC and every interrupt unmasked, 1500 us and 15
      retransmits, full power at 1 Mbps, fixed-size payloads, no event flag set,
      channel 76, a lost-packet count of zero and empty FIFOs. */
  lemma StartedEffect(c: ChipState, t: seq<BusEvent>)
    ensures var d := Started(c, t).chip;
            && d.Reg(CONFIG) == RESET_CONFIG
            && CrcLengthOf(d.Reg(CONFIG)) == Crc16
            && d.Reg(CONFIG) & MODE_BITS == MODE_BITS
            && d.Reg(CONFIG) & IRQ_MASKS == 0
            && d.Reg(SETUP_RETR) == 0x5F
            && PaLevelOf(d.RegisterValue(RF_SETUP)) == PaMax
            && DataRateOf(d.RegisterValue(RF_SETUP)) == Rate1Mbps
            && d.Reg(DYNPD) == 0
            && d.Status() & EVENT_FLAGS == 0
            && d.Reg(RF_CH) == DEFAULT_CHANNEL
            && d.Reg(OBSERVE_TX) >> PLOS_CNT_SHIFT == 0
            && d.rxFifo == [] && d.txFifo == []
  {
    var r := RfDefaults(Run(c, t).Ce(false));
    RfDefaultsEffect(Run(c, t).Ce(false));
    ProtocolDefaultsEffect(r);
    assert Started(c, t) == ProtocolDefaults(r);
    assert CrcConfig(RESET_CONFIG, Crc16) == RESET_CONFIG;
    assert Unmasked(RESET_CONFIG) == RESET_CONFIG;
  }

  /** No register outside those six and OBSERVE_TX changes, and neither does any
      pipe address:
      the reading and writing pipes opened before survive rf24_initialize. */
  lemma StartedOnly(c: ChipState, t: seq<BusEvent>)
    ensures OnlyChanged(c.(rxFifo := []).(txFifo := []), Started(c, t).chip,
                        {CONFIG, SETUP_RETR, RF_SETUP, DYNPD, STATUS, RF_CH, OBSERVE_TX}, {})
  {
    var r := RfDefaults(Run(c, t).Ce(false));
    RfDefaultsOnly(Run(c, t).Ce(false));
    ProtocolDefaultsOnly(r);
    var e := c.(rxFifo := []).(txFifo := []);
    var re := r.chip.(rxFifo := []).(txFifo := []);
    OnlyChangedFlushed(c, r.chip, {CONFIG, SETUP_RETR, RF_SETUP}, {});
    OnlyChangedTrans(e, re, Started(c, t).chip, {CONFIG, SETUP_RETR, RF_SETUP}, {}, {CONFIG, DYNPD, STATUS, RF_CH, OBSERVE_TX}, {});
    assert {CONFIG, SETUP_RETR, RF_SETUP} + {CONFIG, DYNPD, STATUS, RF_CH, OBSERVE_TX}
           == {CONFIG, SETUP_RETR, RF_SETUP, DYNPD, STATUS, RF_CH, OBSERVE_TX};
  }
}
