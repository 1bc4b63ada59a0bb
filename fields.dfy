/** Register fields the driver reads and rewrites (src/rf24.c:549-682), the
    retransmit word of SETUP_RETR (src/rf24.c:610-614), and the host-side status
    snapshot it derives from STATUS (src/rf24.c:211-228). Each function computes the
    new register value from the old one, as the driver's read-modify-write does. */
module Fields {
  import opened Nrf24

  /** RF24_CRC_DISABLED, RF24_CRC_8, RF24_CRC_16 (include/rf24.h:7-9). */
  datatype CrcLength = CrcDisabled | Crc8 | Crc16

  /** RF24_PA_MIN .. RF24_PA_MAX (include/rf24.h:12-15). */
  datatype PaLevel = PaMin | PaLow | PaHigh | PaMax

  /** RF24_250KBPS, RF24_1MBPS, RF24_2MBPS (include/rf24.h:18-20). */
  datatype DataRate = Rate250Kbps | Rate1Mbps | Rate2Mbps

  const CRC_BITS: byte := EN_CRC | CRCO
  const RF_DR_BITS: byte := RF_DR_LOW | RF_DR_HIGH
  const RF_PWR_BITS: byte := RF_PWR_LOW | RF_PWR_HIGH

  // ----- CRC (CONFIG bits EN_CRC, CRCO) -----

  /** The decoding of rf24_get_crc_length (src/rf24.c:574-587). */
  function CrcLengthOf(config: byte): CrcLength {
    if config & EN_CRC != 0 then (if config & CRCO != 0 then Crc16 else Crc8)
    else CrcDisabled
  }

  /** CONFIG after rf24_set_crc_length (src/rf24.c:554-572): the requested mode reads
      back, and every bit outside EN_CRC and CRCO is kept. */
  function CrcConfig(config: byte, m: CrcLength): (r: byte)
    ensures CrcLengthOf(r) == m
    ensures r & !CRC_BITS == config & !CRC_BITS
  {
    var base := config & !CRC_BITS;
    match m
    case CrcDisabled => base
    case Crc8 => base | EN_CRC
    case Crc16 => base | EN_CRC | CRCO
  }

  /** Rewriting the mode that was read back changes CONFIG exactly when CRCO was
      left set with CRC disabled, the one encoding that set_crc_length never writes. */
  lemma CrcConfigOfCurrent(config: byte)
    ensures CrcConfig(config, CrcLengthOf(config)) == config
        <==> !(config & EN_CRC == 0 && config & CRCO != 0)
  {
  }

  // ----- data rate (RF_SETUP bits RF_DR_LOW, RF_DR_HIGH) -----

  /** The decoding of rf24_get_data_rate (src/rf24.c:674-682): both bits set falls
      to the default, 1 Mbps. */
  function DataRateOf(setup: byte): DataRate {
    var bits := setup & RF_DR_BITS;
    if bits == RF_DR_LOW then Rate250Kbps
    else if bits == RF_DR_HIGH then Rate2Mbps
    else Rate1Mbps
  }

  /** RF_SETUP after rf24_set_data_rate (src/rf24.c:654-672): the requested rate
      reads back, and every bit outside RF_DR_LOW and RF_DR_HIGH is kept. */
  function DataRateSetup(setup: byte, rate: DataRate): (r: byte)
    ensures DataRateOf(r) == rate
    ensures r & !RF_DR_BITS == setup & !RF_DR_BITS
  {
    var base := setup & !RF_DR_BITS;
    match rate
    case Rate250Kbps => base | RF_DR_LOW
    case Rate2Mbps => base | RF_DR_HIGH
    case Rate1Mbps => base
  }

  /** A chip that drops RF_DR_LOW (the original nRF24L01) reads back 1 Mbps after
      being asked for 250 kbps: the probe of rf24_initialize (src/rf24.c:365-366). */
  lemma DataRateProbe(setup: byte)
    ensures DataRateOf(DataRateSetup(setup, Rate250Kbps)) == Rate250Kbps
    ensures DataRateOf(DataRateSetup(setup, Rate250Kbps) & !RF_DR_LOW) == Rate1Mbps
  {
  }

  // ----- PA level (RF_SETUP bits RF_PWR, 2..1) -----

  /** RF_SETUP after rf24_set_pa_level (src/rf24.c:589-608): RF_PWR holds 11, 10, 01
      or 00 for MAX, HIGH, LOW, MIN, and every other bit is kept. */
  function PaSetup(setup: byte, level: PaLevel): (r: byte)
    ensures r & !RF_PWR_BITS == setup & !RF_PWR_BITS
    ensures level == PaMax <==> r & RF_PWR_BITS == RF_PWR_BITS
    ensures level == PaHigh <==> r & RF_PWR_BITS == RF_PWR_HIGH
    ensures level == PaLow <==> r & RF_PWR_BITS == RF_PWR_LOW
    ensures level == PaMin <==> r & RF_PWR_BITS == 0
    ensures PaLevelOf(r) == level
  {
    var base := setup & !RF_PWR_BITS;
    match level
    case PaMax => base | RF_PWR_LOW | RF_PWR_HIGH
    case PaHigh => base | RF_PWR_HIGH
    case PaLow => base | RF_PWR_LOW
    case PaMin => base
  }

  /** The last level written wins, and different levels give different registers. */
  lemma PaSetupOverwrites(setup: byte, a: PaLevel, b: PaLevel)
    ensures PaSetup(PaSetup(setup, a), b) == PaSetup(setup, b)
    ensures PaSetup(setup, a) == PaSetup(setup, b) <==> a == b
  {
  }

  /** The decoding of RF_PWR (the driver has no getter; this is the reference the
      setter is specified against). */
  function PaLevelOf(setup: byte): PaLevel {
    var bits := setup & RF_PWR_BITS;
    if bits == RF_PWR_BITS then PaMax
    else if bits == RF_PWR_HIGH then PaHigh
    else if bits == RF_PWR_LOW then PaLow
    else PaMin
  }

  // ----- operating mode (CONFIG bits PWR_UP, PRIM_RX) -----

  const MODE_BITS: byte := PWR_UP | PRIM_RX

  /** CONFIG as rf24_send leaves it before loading the payload (src/rf24.c:190):
      powered up, primary transmitter, every other bit kept. */
  function TxConfig(config: byte): (r: byte)
    ensures r & PWR_UP != 0 && r & PRIM_RX == 0
    ensures r & !MODE_BITS == config & !MODE_BITS
  {
    (config | PWR_UP) & !PRIM_RX
  }

  /** CONFIG as rf24_start_listening leaves it (src/rf24.c:75): powered up, primary
      receiver, every other bit kept. */
  function RxConfig(config: byte): (r: byte)
    ensures r & PWR_UP != 0 && r & PRIM_RX != 0
    ensures r & !MODE_BITS == config & !MODE_BITS
  {
    config | PWR_UP | PRIM_RX
  }

  /** Switching between receiving and sending only ever touches the mode bits: the
      last switch decides the register, whatever came before, and the two modes
      are never confused. */
  lemma ModeSwitchesCommute(config: byte)
    ensures TxConfig(RxConfig(config)) == TxConfig(config)
    ensures RxConfig(TxConfig(config)) == RxConfig(config)
    ensures TxConfig(config) != RxConfig(config)
    ensures TxConfig(TxConfig(config)) == TxConfig(config)
  {
  }

  // ----- interrupt masks (CONFIG bits MASK_RX_DR, MASK_TX_DS, MASK_MAX_RT) -----

  const IRQ_MASKS: byte := MASK_RX_DR | MASK_TX_DS | MASK_MAX_RT

  /** CONFIG after rf24_unmask_irqs (src/rf24.c:447-450): all three events reach
      the IRQ pin, every other bit kept. */
  function Unmasked(config: byte): (r: byte)
    ensures r & IRQ_MASKS == 0
    ensures r & !IRQ_MASKS == config & !IRQ_MASKS
  {
    config & !IRQ_MASKS
  }

  // ----- retransmit setup (SETUP_RETR: ARD in 7..4, ARC in 3..0) -----

  /** The value rf24_set_retries writes, as written (src/rf24.c:613): `<<` binds
      tighter than `&`, so the delay term is `delay & (0xF << ARD)`, which is zero
      for every delay the assertion admits. */
  function RetriesWordAsWritten(delay: byte, count: byte): (r: byte)
    requires delay <= 15 && count <= 15
    ensures r == count
  {
    (delay & (0xF << ARD)) | ((count & 0xF) << ARC)
  }

  /** The evidently intended SETUP_RETR value: ARD = delay, ARC = count. This is the
      encoding rf24_initialize writes directly (src/rf24.c:356). */
  function RetriesWord(delay: byte, count: byte): (r: byte)
    requires delay <= 15 && count <= 15
    ensures r >> ARD == delay && r & 0xF == count
  {
    (delay << ARD) | (count << ARC)
  }

  /** The as-written word loses the delay: it agrees with the intended one only for
      delay 0, so rf24_set_retries(5, 15) writes 0x0F instead of 0x5F. */
  lemma RetriesDelayLost(delay: byte, count: byte)
    requires delay <= 15 && count <= 15
    ensures RetriesWordAsWritten(delay, count) == RetriesWord(delay, count) <==> delay == 0
    ensures RetriesWordAsWritten(5, 15) == 0x0F && RetriesWord(5, 15) == 0x5F
  {
    var r := RetriesWord(delay, count);
    assert r >> ARD == delay;
  }

  // ----- status snapshot (rf24.h:27-30) -----

  /** The host-side mirror `this->status`: six `uint8_t` fields. */
  datatype Snapshot = Snapshot(
    txOk: byte, txFailRetries: byte, rxDataAvailable: byte,
    rxDynDataLen: byte, rxDataLen: byte, rxDataPipe: byte)

  /** The memset of rf24_reset_status (src/rf24.c:227). */
  const Cleared: Snapshot := Snapshot(0, 0, 0, 0, 0, 0)

  /** The pipe number rf24_sync_status stores, as written (src/rf24.c:213-214): it
      is taken from STATUS after masking to the event flags, which have no bits in
      the RX_P_NO field. */
  function SyncedPipe(status: byte): (p: byte)
    ensures p == 0
  {
    ((status & EVENT_FLAGS) >> RX_P_NO_SHIFT) & 7
  }

  /** RX_P_NO of an unmasked STATUS: how rf24_data_available_on_pipe reads the pipe
      (src/rf24.c:277), and what rf24_sync_status evidently means to store. */
  function PipeOfStatus(status: byte): (p: byte)
    ensures p <= 7
    ensures p == 7 <==> status & 0x0E == 0x0E
  {
    (status >> RX_P_NO_SHIFT) & 7
  }

  /** The masking of rf24_sync_status loses the pipe: a packet on pipe 1 (STATUS
      0x42, RX_DR and RX_P_NO = 1) is reported on pipe 0. */
  lemma SyncedPipeLosesPipe()
    ensures PipeOfStatus(0x42) == 1 && SyncedPipe(0x42) == 0
  {
  }

  /** The snapshot rf24_sync_status stores (src/rf24.c:211-222) for STATUS `status`,
      the mirror's `dynamic_payloads_enabled` and `payload_size`, and the answer
      `width` of the R_RX_PL_WID query, which is only asked when the flag is exactly 1. */
  function Synced(status: byte, dyn: byte, payloadSize: byte, width: byte): (s: Snapshot)
    ensures s.txOk != 0 <==> status & TX_DS != 0
    ensures s.txFailRetries != 0 <==> status & MAX_RT != 0
    ensures s.rxDataAvailable != 0 <==> status & RX_DR != 0
    ensures s.rxDataPipe == 0
    ensures dyn == 1 ==> s.rxDynDataLen == width && s.rxDataLen == 0
    ensures dyn != 1 ==> s.rxDynDataLen == 0 && s.rxDataLen == payloadSize
  {
    var flags := status & EVENT_FLAGS;
    Snapshot(flags & TX_DS, flags & MAX_RT, flags & RX_DR,
             if dyn == 1 then width else 0,
             if dyn == 1 then 0 else payloadSize,
             SyncedPipe(flags))
  }

  /** No event flag set in STATUS: every flag of the snapshot reads 0. */
  lemma SyncedWithoutEvents(status: byte, dyn: byte, payloadSize: byte, width: byte)
    requires status & EVENT_FLAGS == 0
    ensures var s := Synced(status, dyn, payloadSize, width);
            s.txOk == 0 && s.txFailRetries == 0 && s.rxDataAvailable == 0
  {
  }

  // ----- the send poll (src/rf24.c:203-205) -----

  /** The poll's exit test, as written: the TX_DS and MAX_RT masks of STATUS are
      applied to OBSERVE_TX, where bits 5..4 are the low bits of PLOS_CNT. */
  predicate PollFlag(observe: byte) {
    observe & (TX_DS | MAX_RT) != 0
  }

  /** The test ends the poll exactly when the lost-packet count is not a multiple of 4. */
  lemma PollFlagIsLostPacketCount(observe: byte)
    ensures PollFlag(observe) <==> (observe >> PLOS_CNT_SHIFT) % 4 != 0
  {
  }
}
