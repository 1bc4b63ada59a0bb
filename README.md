# nRF24L01(+) driver: register-protocol model

A model of the register-protocol engine of libnrf24, a C driver for the Nordic
nRF24L01 and nRF24L01+ 2.4 GHz transceivers (`src/rf24.c`, with the driver object
of `include/rf24.h`). The driver object is the class `Rf24.Radio`, whose fields
are the C struct's mirror: the status snapshot, pipe 0's reading address, the
transmit timeout, the three pins, and the ack-payload, variant, dynamic-payload
and payload-size settings. Next to the mirror the class keeps three things that
stand in for what the C code touches through GPIO and SPI:

- `chip`: the transceiver at the other end of the bus (`Chip.ChipState`). It has
  one-byte registers, the three 5-byte address registers, the RX and TX FIFOs,
  the ACTIVATE latch of the original nRF24L01, and whether the chip is the plus
  variant.
- `ce`: the level of the CE pin.
- `trace`: every bus transaction (one `Frame` per CSN-low..CSN-high bracket) and
  every CE edge, in order.

Each bus helper is a loop that clocks one byte at a time, as the C `while (len--)`
loops do. The byte the chip shifts back depends on the bytes already sent in that
transaction (`ChipState.Response`). At CSN high the chip acts on the whole frame
(`ChipState.Apply`). Every public operation is proved to leave `chip` in a state
given by a function in `Effects` or `Startup`, and to leave `trace` as an exact
list of transactions. Lemmas beside those functions then say what each state means
register by register, and that nothing else changed (`Chip.OnlyChanged`).

Modules:

- `Nrf24`: the command bytes, register addresses and bit masks. They follow the
  nRF24L01+ Product Specification v1.0, sections 8.3.1 and 9.1. ACTIVATE follows
  the nRF24L01 Product Specification v2.0.
- `Frames`: the frames the driver clocks, and the little-endian 5-byte address
  encoding.
- `Chip`: the transceiver.
- `Fields`: register fields, and the status snapshot.
- `Effects`: the chip after each operation, and what that means.
- `Startup`: what `rf24_initialize` does.
- `Rf24`: the driver object.
- `Scenarios`: properties that span several operations.

`rf24_send` polls a clock. The model takes that clock as an input: `clock` is the
sequence of readings, and `ClockRunsPast` requires it to reach the timeout. What
happens over the air while the driver polls is also an input (`Effects.AirEvent`).
Whether the SPI device opens is the boolean `spiOpens` given to `Initialize`.

Quirks of the code that the model keeps as written:

- `rf24_sync_status` masks STATUS down to the event flags before it extracts
  RX_P_NO, so it always records pipe 0.
- `rf24_sync_status` and `rf24_receive` test `dynamic_payloads_enabled == 1`,
  while `rf24_write_payload` tests it for being non-zero. After
  `rf24_enable_dynamic_payloads` sets it to 0x3F, transmit payloads go out
  unpadded, but received ones are still clocked to the fixed size.
- `rf24_set_retries` has a precedence slip.
- The send poll applies the STATUS masks TX_DS and MAX_RT to OBSERVE_TX.
- `rf24_reset` writes 0x0F to CONFIG.
- `rf24_initialize` returns 0xFF (-1 as a `uint8_t`) when the SPI device does not
  open, after it has set the pins.

## Model

| member | source | states |
|---|---|---|
| Nrf24.PipeAddressRegister | src/rf24.c:25 | pipe n's address register: a 5-byte register exactly for pipes 0 and 1, within RX_ADDR_P0..RX_ADDR_P5 |
| Nrf24.PipeWidthRegister | src/rf24.c:26 | pipe n's payload-width register lies in RX_PW_P0..RX_PW_P5 and survives REGISTER_MASK |
| Nrf24.PipeBit | src/rf24.c:27 | pipe n's enable bit is a single bit among the low six |
| Nrf24.PipesDistinct | src/rf24.c:25-27 | distinct pipes have distinct address and width registers and disjoint enable bits |
| Frames.AddressValue | src/rf24.c:415-429 | the `uint64` read back from five bytes has nothing above bit 39, and byte i of it is the i-th byte read |
| Frames.AddressValueOfBytes | src/rf24.c:415-445 | writing an address and reading it back gives the address with its top three bytes dropped |
| Frames.AddressBytesOfValue | src/rf24.c:415-445 | reading five bytes and writing the value back sends the same five bytes |
| Frames.AddressBytesInjective | src/rf24.c:431-445 | two addresses go out identically iff their low 40 bits agree |
| Frames.ReceiveFrame | src/rf24.c:238-245 | the receive transaction is R_RX_PAYLOAD followed only by 0xFF dummies, one byte per byte clocked |
| Frames.PayloadFrame | src/rf24.c:155-167 | the payload transaction is the command, the caller's bytes unchanged, then zeros, padded only for W_TX_PAYLOAD |
| Frames.TxBlanks | src/rf24.c:153 | write_payload pads nothing once `dynamic_payloads_enabled` is non-zero, and otherwise pads the payload to exactly the fixed size |
| Frames.RxBlanks | src/rf24.c:233-236 | receive pads nothing only when `dynamic_payloads_enabled` is exactly 1; otherwise it clocks up to the fixed size, and a longer read wraps round through 256 in `uint8_t` |
| Chip.PayloadResponse | src/rf24.c:241-243 | during R_RX_PAYLOAD the chip shifts out payload byte k after k dummies |
| Chip.ReadFrameKeeps | src/rf24.c:403-413 | a read transaction leaves the chip as it was |
| Chip.WriteRegisterFrameStores | src/rf24.c:452-462 | a write transaction stores the value in the register named by the low five bits |
| Chip.WriteAddressFrameStores | src/rf24.c:431-445 | an address write stores exactly the five bytes, which a 5-byte read returns in order |
| Chip.ClearEventsClearsStatus | src/rf24.c:224-228 | writing 1s to the event flags clears all three and keeps RX_P_NO and TX_FULL |
| Chip.ChannelResetsLostCount | src/rf24.c:684-688 | writing RF_CH stores the channel, clears the lost-packet count and keeps the retransmit count |
| Chip.StatusPipeField | src/rf24.c:277 | RX_P_NO names the pipe of the packet at the head of the RX FIFO, and reads 0b111 when it is empty |
| Fields.CrcConfig | src/rf24.c:554-572 | after set_crc_length the mode decodes as requested, and no bit outside EN_CRC and CRCO changes |
| Fields.CrcConfigOfCurrent | src/rf24.c:554-587 | writing back the mode just read changes CONFIG iff CRCO is set with CRC disabled |
| Fields.DataRateSetup | src/rf24.c:654-672 | after set_data_rate the rate decodes as requested, and no bit outside RF_DR_LOW and RF_DR_HIGH changes |
| Fields.DataRateProbe | src/rf24.c:362-366 | 250 kbps reads back as written, but as 1 Mbps once RF_DR_LOW is dropped |
| Fields.PaSetup | src/rf24.c:589-608 | RF_PWR holds 11/10/01/00 for MAX/HIGH/LOW/MIN, each iff that level was asked for; the level decodes back and other bits are kept |
| Fields.PaSetupOverwrites | src/rf24.c:589-608 | the last level written wins, and distinct levels give distinct registers |
| Fields.TxConfig | src/rf24.c:190 | CONFIG for sending: PWR_UP set, PRIM_RX clear, other bits kept |
| Fields.RxConfig | src/rf24.c:75 | CONFIG for listening: PWR_UP and PRIM_RX set, other bits kept |
| Fields.ModeSwitchesCommute | src/rf24.c:75-190 | the last mode switch alone decides CONFIG, and the two modes never coincide |
| Fields.Unmasked | src/rf24.c:447-450 | after unmask_irqs no interrupt mask bit is set, and every other CONFIG bit is kept |
| Fields.RetriesWordAsWritten | src/rf24.c:610-614 | the value set_retries writes, as written, is the count alone |
| Fields.RetriesWord | src/rf24.c:356 | the intended SETUP_RETR value has ARD = delay and ARC = count |
| Fields.RetriesDelayLost | src/rf24.c:613 | the as-written word matches the intended one iff delay is 0; (5, 15) gives 0x0F, not 0x5F |
| Fields.SyncedPipe | src/rf24.c:213-214 | the pipe sync_status records, as written, is always 0 |
| Fields.PipeOfStatus | src/rf24.c:277 | RX_P_NO of STATUS is at most 7, and is 7 exactly when bits 3..1 are all set |
| Fields.SyncedPipeLosesPipe | src/rf24.c:212-213 | STATUS 0x42 (a packet on pipe 1) is recorded as pipe 0 |
| Fields.Synced | src/rf24.c:211-222 | each snapshot flag is non-zero iff its STATUS flag is set; the width is taken and the fixed size dropped iff the flag is exactly 1; the pipe is always 0 |
| Fields.SyncedWithoutEvents | src/rf24.c:215-217 | no event flag in STATUS gives a snapshot with all three flags 0 |
| Fields.PollFlagIsLostPacketCount | src/rf24.c:203-205 | the poll's exit test on OBSERVE_TX holds iff the lost-packet count is not a multiple of 4 |
| Effects.ReadingPipeAddress | src/rf24.c:56-61 | an opened reading pipe reads its address back: five bytes for pipes 0 and 1, the low byte for pipes 2..5 |
| Effects.ReadingPipeWidth | src/rf24.c:62 | an opened pipe's width register holds the fixed payload size |
| Effects.ReadingPipeEnables | src/rf24.c:63 | opening a pipe sets its EN_RXADDR bit and keeps every other bit |
| Effects.ReadingPipeOnly | src/rf24.c:48-64 | opening a reading pipe changes its address, its width and EN_RXADDR, and nothing else |
| Effects.WritingPipeEffect | src/rf24.c:66-71 | the writing address lands in TX_ADDR and RX_ADDR_P0, pipe 0's width is the fixed size, and nothing else changes |
| Effects.ListeningConfig | src/rf24.c:75 | listening puts CONFIG in receive mode with the other bits kept |
| Effects.ListeningStatus | src/rf24.c:76 | listening clears the three event flags and keeps the rest of STATUS |
| Effects.ListeningAddress | src/rf24.c:78-80 | RX_ADDR_P0 holds the remembered reading address iff one was opened, and is untouched otherwise |
| Effects.ListeningOnly | src/rf24.c:73-86 | listening changes CONFIG, STATUS and, with a remembered address, RX_ADDR_P0, and nothing else |
| Effects.ListeningRestoresPipe0 | src/rf24.c:52-80 | reading pipe 0, then a writing pipe, then listening: RX_ADDR_P0 again holds the reading address and TX_ADDR the writing one |
| Effects.ArmedEffect | src/rf24.c:145-191 | arming sets transmit mode, queues the bytes padded to the fixed size (unpadded with dynamic payloads), and changes nothing else |
| Effects.FirstStop | src/rf24.c:200-205 | the poll stops at the first poll whose exit test holds, never before it |
| Effects.AckedSendWaitsForTimeout | src/rf24.c:203-205 | an acknowledged send leaves the polled bits unset, so the poll runs until the timeout |
| Effects.LostSendEndsPoll | src/rf24.c:203-205 | a send given up from lost count 0 ends the poll right after it completes |
| Effects.TransmitDoneEffect | src/rf24.c:193-205 | a send given up after the last retry raises MAX_RT and keeps the payload queued; an acknowledged one raises TX_DS and leaves the FIFO; only STATUS and OBSERVE_TX change |
| Effects.IntendedPollSeesCompletion | src/rf24.c:203-205 | testing TX_DS and MAX_RT of STATUS sees every completed send, acknowledged or not |
| Effects.ReceiveFramePops | src/rf24.c:238-248 | R_RX_PAYLOAD pops the head of the RX FIFO, whatever the number of bytes clocked |
| Effects.EventsAcknowledgedEffect | src/rf24.c:276-285 | acknowledging clears RX_DR and TX_DS, keeps MAX_RT and the rest of STATUS, and changes no other register |
| Effects.FeatureFallback | src/rf24.c:485-490 | FEATURE reads back 0 after the first write exactly when the chip was not activated, so the ACTIVATE fallback runs then and only then |
| Effects.FeatureSetStores | src/rf24.c:485-490 | either path ends with the chip activated and FEATURE written once with the bits ORed into the first read |
| Effects.FeatureSetEffect | src/rf24.c:506-513 | the feature bits are set (over the old value if active, alone if not), and only FEATURE and the latch change |
| Effects.DynamicPayloadsEffect | src/rf24.c:503-520 | EN_DPL is set, all six DPL_Pn bits are ORed into DYNPD, and nothing else changes |
| Effects.AckPayloadEffect | src/rf24.c:483-501 | EN_ACK_PAY and EN_DPL are set, DPL_P0 is ORed into DYNPD, and nothing else changes |
| Effects.DataRateRoundTrip | src/rf24.c:654-682 | get_data_rate returns the rate set, except 250 kbps on the original chip, which reads 1 Mbps; only RF_SETUP changes |
| Effects.CrcRoundTrip | src/rf24.c:554-587 | get_crc_length returns the mode set; only CONFIG changes |
| Effects.PaLevelRoundTrip | src/rf24.c:589-608 | RF_PWR decodes to the level set on either chip; only RF_SETUP changes |
| Startup.VariantProbe | src/rf24.c:365-366 | the 250 kbps probe reads back 250 kbps iff the chip is the plus variant |
| Startup.RfDefaultsEffect | src/rf24.c:348-369 | after the RF set-up, CONFIG is 0x0F, SETUP_RETR 0x5F, and RF_SETUP is full power at 1 Mbps |
| Startup.RfDefaultsOnly | src/rf24.c:348-369 | the RF set-up changes CONFIG, SETUP_RETR and RF_SETUP only |
| Startup.ProtocolDefaultsEffect | src/rf24.c:371-386 | after the protocol set-up: 16-bit CRC with no mask, DYNPD 0, flags clear, channel 76, lost-packet count 0, FIFOs empty, and SETUP_RETR and RF_SETUP kept |
| Startup.ProtocolDefaultsOnly | src/rf24.c:371-386 | the protocol set-up changes CONFIG, DYNPD, STATUS, RF_CH and OBSERVE_TX only, besides the FIFOs |
| Startup.StartedEffect | src/rf24.c:335-386 | initialize leaves the chip powered up as a receiver, with 16-bit CRC, no interrupt masked, 1500 us x 15 retries, full power at 1 Mbps, fixed payloads, no flag, channel 76, lost-packet count 0 and empty FIFOs |
| Startup.StartedOnly | src/rf24.c:335-386 | initialize changes six registers and OBSERVE_TX and no address, so pipes opened before survive |
| Rf24.NewMissesFailure | src/rf24.c:297 | rf24_new's test against -1 never holds for a `uint8_t` result; the intended test holds exactly for 0xFF |
| Rf24.Radio.constructor | src/rf24.c:307 | a zeroed driver object facing the given chip, CE low, nothing on the wires yet |
| Rf24.Radio.Initialize | src/rf24.c:305-389 | the mirror is set; a failed open returns 0xFF and leaves the chip and wires alone; otherwise it returns 0, with CE low, the chip in `Startup.Started`'s state, and the variant recorded |
| Rf24.Radio.New | src/rf24.c:291-303 | with the intended test there is no object iff the SPI device fails to open; otherwise a fresh object whose chip and trace are `Startup.Started`'s, with CE low, the pins, CSN, 500 ms timeout and 32-byte payloads set, the snapshot, pipe-0 address and feature flags zero, and the variant recorded |
| Rf24.Radio.SetDefaults | src/rf24.c:307-318 | the mirror is zeroed, then pins, 500 ms timeout and 32-byte payloads are set, with CSN 8 for spidev0.0 and 7 otherwise |
| Rf24.Radio.Start | src/rf24.c:335-386 | the chip and trace after a successful open are `Startup.Started`'s, and `p_variant` tells the plus chip |
| Rf24.Radio.ConfigureRf | src/rf24.c:348-369 | the RF set-up leaves the chip and trace as `Startup.RfDefaults` says, and records the variant |
| Rf24.Radio.ProbeVariant | src/rf24.c:365-366 | `p_variant` becomes whether the chip is the plus variant |
| Rf24.Radio.ConfigureProtocol | src/rf24.c:371-386 | the protocol set-up leaves the chip and trace as `Startup.ProtocolDefaults` says |
| Rf24.Radio.Transfer | src/rf24.c:406-408 | one spi_transfer: the byte shifted back is the chip's answer to the bytes sent so far |
| Rf24.Radio.EndFrame | src/rf24.c:409 | CSN high: the chip acts on the whole frame, and the frame joins the trace |
| Rf24.Radio.WriteCe | src/rf24.c:82 | a CE write sets the pin and joins the trace |
| Rf24.Radio.ReadRegister | src/rf24.c:403-413 | returns the register's value, the chip unchanged |
| Rf24.Radio.WriteRegister | src/rf24.c:452-462 | the chip stores the value in that register |
| Rf24.Radio.ReadAddress | src/rf24.c:415-429 | the five bytes read, as a `uint64` with nothing above bit 39 that re-encodes to the same bytes |
| Rf24.Radio.WriteAddress | src/rf24.c:431-445 | the register then holds the address's low five bytes, least significant first |
| Rf24.Radio.WritePayload | src/rf24.c:145-170 | the frame is the command, the bytes, and, for W_TX_PAYLOAD, zero padding to the fixed size unless dynamic payloads are on |
| Rf24.Radio.EnableFeatures | src/rf24.c:522-528 | ACTIVATE 0x73 toggles the feature latch |
| Rf24.Radio.FlushRx | src/rf24.c:530-538 | the RX FIFO is empty |
| Rf24.Radio.FlushTx | src/rf24.c:540-547 | the TX FIFO is empty |
| Rf24.Radio.GetStatus | src/rf24.c:474-481 | STATUS as shifted out during NOP, the chip unchanged |
| Rf24.Radio.GetDynamicPayloadSize | src/rf24.c:464-472 | the width of the head payload, at most 32, or 0 with an empty FIFO |
| Rf24.Radio.SetPipeAddress | src/rf24.c:56-61 | pipes 0 and 1 take five bytes, pipes 2..5 the low byte |
| Rf24.Radio.OpenReadingPipe | src/rf24.c:48-64 | pipe 0's address is remembered; the chip is `Effects.ReadingPipeOpened`, with address, width and EN_RXADDR written in that order |
| Rf24.Radio.OpenWritingPipe | src/rf24.c:66-71 | the chip is `Effects.WritingPipeOpened`; the remembered reading address is kept |
| Rf24.Radio.EnterReceive | src/rf24.c:75-76 | CONFIG goes to receive mode, then the event flags are written with 1s |
| Rf24.Radio.StartListening | src/rf24.c:73-86 | the chip is `Effects.Listening`, pipe 0's address is rewritten only when one was opened, and CE ends high |
| Rf24.Radio.StopListening | src/rf24.c:88-93 | CE goes low, then both FIFOs are emptied |
| Rf24.Radio.SendAckOnPipe | src/rf24.c:172-175 | the payload is queued unpadded with W_ACK_PAYLOAD of pipe `pipe_no & 7` |
| Rf24.Radio.Arm | src/rf24.c:190-191 | the chip is `Effects.Armed`: transmit mode, payload queued |
| Rf24.Radio.PulseCe | src/rf24.c:194-196 | CE goes high, then low |
| Rf24.Radio.Poll | src/rf24.c:200-205 | OBSERVE_TX is read once per poll, and the number of reads is `Effects.FirstStop` |
| Rf24.Radio.Transmit | src/rf24.c:190-205 | arm, pulse CE, then poll until `Effects.FirstStop`; CE ends low |
| Rf24.Radio.Send | src/rf24.c:183-209 | arms, pulses CE, polls, syncs, and returns `tx_ok` of a snapshot of the chip the poll left |
| Rf24.Radio.SyncStatus | src/rf24.c:211-222 | the snapshot is `Effects.SnapshotOf` the chip, and the width is queried only when the flag is exactly 1 |
| Rf24.Radio.ResetStatus | src/rf24.c:224-228 | the event flags are clear on the chip, and the snapshot is zeroed |
| Rf24.Radio.DataAvailable | src/rf24.c:253-263 | returns RX_DR of STATUS as a byte (0 or 0x40), non-zero iff RX_DR is set, with no flag acknowledged |
| Rf24.Radio.DataAvailableOnPipe | src/rf24.c:258-289 | returns RX_DR of STATUS as a byte, non-zero iff RX_DR was set; the pipe of the head packet is reported; RX_DR and, if set, TX_DS are acknowledged |
| Rf24.Radio.ReadPayloadBytes | src/rf24.c:238-243 | buf[k] is payload byte k for k < len, with the rest of buf untouched |
| Rf24.Radio.DrainBlanks | src/rf24.c:244-246 | the dummy loop extends the receive frame by exactly `blanks` 0xFF bytes |
| Rf24.Radio.ReadPayload | src/rf24.c:238-248 | `len` payload bytes copied in order, and the head packet popped |
| Rf24.Radio.Receive | src/rf24.c:230-251 | `len` bytes of the head payload are copied, dummies are clocked as `Frames.RxBlanks` says, the packet is popped, and RX_EMPTY is returned iff the FIFO is then empty |
| Rf24.Radio.SetFeatureBits | src/rf24.c:485-490 | the chip is `Effects.FeatureSet`, and ACTIVATE appears on the wires iff the chip was not activated |
| Rf24.Radio.EnableAckPayload | src/rf24.c:483-501 | the chip is `Effects.AckPayloadOn`, `ack_payload_enabled` is 1, and DPL_P0 is ORed into the mirror flag |
| Rf24.Radio.EnableDynamicPayloads | src/rf24.c:503-520 | the chip is `Effects.DynamicPayloadsOn`, and the mirror flag is 0x3F |
| Rf24.Radio.UnmaskIrqs | src/rf24.c:447-450 | CONFIG becomes `Fields.Unmasked` of what it read |
| Rf24.Radio.DisableCrc | src/rf24.c:549-552 | CRC reads back disabled, and no CONFIG bit but EN_CRC changes |
| Rf24.Radio.SetCrcLength | src/rf24.c:554-572 | CONFIG becomes `Fields.CrcConfig` of what it read |
| Rf24.Radio.GetCrcLength | src/rf24.c:574-587 | the CRC mode CONFIG encodes, the chip unchanged |
| Rf24.Radio.SetPaLevel | src/rf24.c:589-608 | RF_SETUP becomes `Fields.PaSetup` of what it read |
| Rf24.Radio.SetRetries | src/rf24.c:610-614 | as written, SETUP_RETR receives the count alone |
| Rf24.Radio.SetAutoAck | src/rf24.c:616-623 | EN_AA is 0x3F if asked, else 0 |
| Rf24.Radio.SetAutoAckForPipe | src/rf24.c:625-635 | the pipe's ENAA bit is set iff asked, and the other bits are kept |
| Rf24.Radio.PowerUp | src/rf24.c:637-641 | PWR_UP is set, and no other CONFIG bit changes |
| Rf24.Radio.PowerDown | src/rf24.c:643-647 | PWR_UP is cleared, and no other CONFIG bit changes |
| Rf24.Radio.Reset | src/rf24.c:649-652 | CONFIG is 0x0F: 16-bit CRC, powered up, receiver, no interrupt masked |
| Rf24.Radio.SetDataRate | src/rf24.c:654-672 | RF_SETUP becomes `Fields.DataRateSetup` of what it read |
| Rf24.Radio.GetDataRate | src/rf24.c:674-682 | the rate RF_SETUP encodes, the chip unchanged |
| Rf24.Radio.SetChannel | src/rf24.c:684-688 | RF_CH holds the channel; the lost-packet count restarts from 0 and the retransmit count is kept |
| Rf24.Radio.GetPayloadSize | src/rf24.c:690-693 | the mirror's fixed payload size |
| Rf24.Radio.SetPayloadSize | src/rf24.c:695-699 | the mirror's fixed payload size is the one given |
| Scenarios.DeliveredPacketIsReceived | src/rf24.c:211-289 | a packet arriving at an empty FIFO raises RX_DR; its pipe shows in STATUS but the snapshot records 0; receive copies its bytes; RX_EMPTY follows |
| Scenarios.StartedLostSendEndsPoll | src/rf24.c:190-386 | after initialize, a first send given up after the last retry ends the poll right after, with the payload still queued |
| Scenarios.LostFirstSend | src/rf24.c:190-205 | arming a chip with lost-packet count 0 and an empty TX FIFO, a send given up ends the poll right after and stays queued |
| Scenarios.DynamicPayloadsReadAsFixed | src/rf24.c:151-236 | with the flag at 0x3F, transmit pads nothing, sync never asks the width, and receive still clocks up to the fixed size |
| Scenarios.AckPayloadsReadWidth | src/rf24.c:151-236 | with ack payloads alone the flag is 1: sync asks and records the width, and neither direction pads |

## Left out

- GPIO and SPI (`src/gpio.c`, `src/spi.c`) are not part of this model. A CE
  write is a trace event. CSN is implied by the bracket of each `Frame`: the model
  does not record the CSN pin number. The SPI handle is not modelled.
- `gpio_export_wait`, `gpio_set_direction` and `spi_config` in `rf24_initialize`
  are not modelled, because they configure the host only.
- The `usleep` waits (10 us CE pulse, 130 us listen, 150 us power up/down, 5 ms
  after reset) are not modelled. Nothing in the model depends on time, apart from
  the send poll's clock readings.
- `rf24_dump` is not modelled: it prints diagnostics to stderr.
- `rf24_irq_poll` is not modelled: it registers a GPIO edge callback.
- `rf24_delete` is not modelled: it closes the SPI handle and frees memory.
- Rf24.Radio.New: a failed `malloc` is not modelled, and neither is the
  `rf24_delete` call on the failure path.
- Rf24.Radio.Receive: the C `assert(len <= payload_size)` for zero
  `dynamic_payloads_enabled` is not a precondition. The model covers any `len`, with
  the `uint8_t` wrap of the padding count made explicit in `Frames.RxBlanks`.
- The chip is a model of what the driver relies on, not the whole nRF24L01+. It
  does model a write to RF_CH clearing PLOS_CNT, a payload given up after the last
  retry staying in the TX FIFO, and a packet arriving at a full RX FIFO being
  dropped. It does not model:
  - air timing, or the retransmissions themselves and the ARC_CNT count of them;
  - ack payloads being sent back, or which pipe an ack payload in the TX FIFO is for;
  - TX FIFO overflow: a payload written while three are queued is still appended;
  - the chip refusing to send further payloads while MAX_RT is set.
- `rf24_send`'s `now()` is a sequence of clock readings that must reach the
  timeout. The `uint64`/`uint32` arithmetic of the comparison is taken as exact.
- Rf24.Radio.SetRetries models the code as written. The intended encoding is
  `Fields.RetriesWord` (see Findings).
- Rf24.Radio.DataAvailable: `rf24_data_available` is `rf24_data_available_on_pipe`
  with a NULL pointer, so it is modelled directly as the NULL path.

## Findings

| source | as written | input that shows it | evidently intended | confidence | as-written member | corrected member |
|---|---|---|---|---|---|---|
| src/rf24.c:613 | `delay & 0xF << ARD` parses as `delay & (0xF << ARD)`, so the delay is always dropped | `rf24_set_retries(5, 15)` writes 0x0F | ARD = delay, ARC = count, giving 0x5F, as `rf24_initialize` writes at line 356 | not executed | Fields.RetriesDelayLost | Fields.RetriesWord |
| src/rf24.c:212-213 | STATUS is masked to the event flags before RX_P_NO is extracted, so `rx_data_pipe` is always 0 | STATUS 0x42 (RX_DR, pipe 1) records pipe 0 | RX_P_NO of the unmasked STATUS, as `rf24_data_available_on_pipe` reads it at line 277 | not executed | Fields.SyncedPipeLosesPipe | Fields.PipeOfStatus |
| src/rf24.c:203-205 | the poll tests the STATUS masks TX_DS and MAX_RT against OBSERVE_TX, whose bits 5..4 are the lost-packet count | an acknowledged send, which leaves OBSERVE_TX's lost-packet count at 0, polls until the 500 ms timeout | TX_DS or MAX_RT of STATUS, which every completed send sets | not executed | Effects.AckedSendWaitsForTimeout | Effects.IntendedPollSeesCompletion |
| src/rf24.c:297 | the `uint8_t` result of `rf24_initialize` is promoted to `int` and compared with -1, which never holds | SPI open fails: `rf24_initialize` returns 0xFF (255 != -1), and `rf24_new` returns the object | compare with `(uint8_t) -1` | not executed | Rf24.NewMissesFailure | Rf24.Radio.New |
