/** Properties that span several calls of src/rf24.c: a packet travelling from the
    air through the status calls into rf24_receive, and the two meanings the
    driver gives to `dynamic_payloads_enabled`. */
module Scenarios {
  import opened Nrf24
  import opened Frames
  import opened Chip
  import opened Fields
  import opened Effects
  import opened Startup

  /** A packet that arrives while the RX FIFO is empty: RX_DR is raised;
      rf24_data_available_on_pipe reads its pipe while rf24_sync_status records
      pipe 0; rf24_receive copies out its bytes in order; and the read empties the
      FIFO again, so rf24_receive reports RX_EMPTY. */
  lemma DeliveredPacketIsReceived(c: ChipState, p: Packet, dyn: byte, payloadSize: byte, n: nat)
    requires c.rxFifo == []
    ensures var d := c.Deliver(p);
            && d.Status() & RX_DR != 0
            && PipeOfStatus(d.Status()) == p.pipe
            && SnapshotOf(d, dyn, payloadSize).rxDataAvailable != 0
            && SnapshotOf(d, dyn, payloadSize).rxDataPipe == 0
            && (forall k :: 0 <= k < |p.data| ==> d.PayloadByte(k) == p.data[k])
            && d.Apply(ReceiveFrame(n)).FifoStatus() & RX_EMPTY != 0
  {
    var d := c.Deliver(p);
    assert d.rxFifo == [p];
    assert d.Reg(STATUS) & RX_DR != 0;
    StatusPipeField(d);
    ReceiveFramePops(d, n);
    assert d.Apply(ReceiveFrame(n)).rxFifo == [];
  }

  /** rf24_initialize leaves the lost-packet count at zero, so when the first
      rf24_send after it is given up after the last retry, the poll ends right
      after, with the payload still queued. */
  lemma StartedLostSendEndsPoll(c: ChipState, t: seq<BusEvent>, buf: seq<byte>, dyn: byte,
                                payloadSize: byte, m: nat, clock: seq<nat>, timeout: nat)
    requires |buf| <= 255
    requires ClockRunsPast(clock, timeout) && m + 1 < |clock|
    ensures var armed := Armed(Started(c, t).chip, buf, dyn, payloadSize);
            && FirstStop(armed, Completes(m, false), clock, timeout, 1) <= m + 1
            && armed.TransmitDone(false).txFifo == [buf + Repeat(0, TxBlanks(dyn, payloadSize, |buf|))]
  {
    StartedEffect(c, t);
    LostFirstSend(Started(c, t).chip, buf, dyn, payloadSize, m, clock, timeout);
  }

  /** Arming a chip with no lost packet counted and an empty TX FIFO, then giving
      the transmission up, ends the poll right after and keeps the payload queued. */
  lemma LostFirstSend(d: ChipState, buf: seq<byte>, dyn: byte, payloadSize: byte,
                      m: nat, clock: seq<nat>, timeout: nat)
    requires |buf| <= 255
    requires ClockRunsPast(clock, timeout) && m + 1 < |clock|
    requires d.Reg(OBSERVE_TX) >> PLOS_CNT_SHIFT == 0 && d.txFifo == []
    ensures var armed := Armed(d, buf, dyn, payloadSize);
            && FirstStop(armed, Completes(m, false), clock, timeout, 1) <= m + 1
            && armed.TransmitDone(false).txFifo == [buf + Repeat(0, TxBlanks(dyn, payloadSize, |buf|))]
  {
    ArmedEffect(d, buf, dyn, payloadSize);
    var armed := Armed(d, buf, dyn, payloadSize);
    assert armed.Reg(OBSERVE_TX) == d.Reg(OBSERVE_TX);
    LostSendEndsPoll(armed, m, clock, timeout);
    TransmitDoneEffect(armed, false);
  }

  /** After rf24_enable_dynamic_payloads the mirror flag is 0x3F, not 1: payloads
      go out unpadded, yet rf24_sync_status never asks for the payload width and
      rf24_receive still clocks up to the fixed payload size. */
  lemma DynamicPayloadsReadAsFixed(c: ChipState, payloadSize: byte, len: nat)
    requires len <= payloadSize as int
    ensures TxBlanks(DPL_ALL_PIPES, payloadSize, len) == 0
    ensures SyncEvents(DPL_ALL_PIPES) == [ReadEvent(STATUS)]
    ensures SnapshotOf(c, DPL_ALL_PIPES, payloadSize).rxDynDataLen == 0
    ensures SnapshotOf(c, DPL_ALL_PIPES, payloadSize).rxDataLen == payloadSize
    ensures len + RxBlanks(DPL_ALL_PIPES, payloadSize, len) == payloadSize as int
  {
  }

  /** With acknowledgement payloads alone the flag is exactly 1 (0 | DPL_P0), and
      the width is asked for and recorded. */
  lemma AckPayloadsReadWidth(c: ChipState, payloadSize: byte, len: nat)
    requires len <= 255
    ensures var dyn := 0 | DPL_P0;
            && SyncEvents(dyn) == [ReadEvent(STATUS), Frame([R_RX_PL_WID, 0xFF])]
            && SnapshotOf(c, dyn, payloadSize).rxDynDataLen == c.RxWidth()
            && RxBlanks(dyn, payloadSize, len) == 0
            && TxBlanks(dyn, payloadSize, len) == 0
  {
  }
}
