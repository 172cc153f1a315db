/** The SDPCM sender: credit and flow checks, burst grants, framing, one FIFO write per frame. */
module SdpcmSend {
  import opened Wire
  import opened Credits
  import opened Fifo
  import opened Transport

  const SMALL_DATA_MAX: nat := 516
  const DATA: byte := 2

  // ---------------------------------------------------------------- frames

  /** The 12-byte header, the payload, zero padding up to `padded`. */
  function FrameBytes(seqNo: byte, channel: byte, data: seq<byte>, padded: nat): (r: seq<byte>)
    requires |data| + 12 <= padded <= CONTROL_CAPACITY
    ensures |r| == padded
  {
    var total := |data| + 12;
    Bytes16(total) + Bytes16(0xffff - total) + [seqNo, channel, 0, 12, 0, 0, 0, 0] + data + Zeros(padded - total)
  }

  function PaddedLength(length: nat, blocks: bool): nat {
    var padded := Align4(length + 12);
    if blocks && padded > 512 then Align512(padded) else padded
  }

  predicate TooLong(length: nat, blocks: bool) {
    length > CONTROL_CAPACITY - 12 || PaddedLength(length, blocks) > CONTROL_CAPACITY
  }

  /** Followers a first frame is entitled to, with `left` credits remaining after it. */
  function Allowance(length: nat, wantFrames: nat, left: nat): (r: nat)
    ensures r <= 3 && r <= left && (r > 0 ==> r < wantFrames && length <= SMALL_DATA_MAX)
  {
    var wanted := if wantFrames > BURST_MAX then BURST_MAX else wantFrames;
    if length > SMALL_DATA_MAX || wanted <= 1 then 0 else if left < wanted - 1 then left else wanted - 1
  }

  /** What the sender builds, the receive-side header check accepts, and reads back. */
  lemma FrameRoundTrip(seqNo: byte, channel: byte, data: seq<byte>, padded: nat)
    requires |data| + 12 <= padded <= CONTROL_CAPACITY && channel <= 3
    ensures var f := FrameBytes(seqNo, channel, data, padded);
      && SdpcmHeader(f) == Some(Header(|data| + 12, 12))
      && Channel(f) == channel && f[4] == seqNo && f[12..12 + |data|] == data
  {
    var total := |data| + 12;
    var f := FrameBytes(seqNo, channel, data, padded);
    assert f[0] == total % 256 && f[1] == total / 256
      && f[2] == (0xffff - total) % 256 && f[3] == (0xffff - total) / 256;
    assert f[4] == seqNo && f[5] == channel && f[7] == 12;
  }

  // ---------------------------------------------------------------- bursts, as they appear on the bus

  /** A service pass, or a function-2 write; data writes carry their place in the burst. */
  datatype SendEvent = Serviced(ok: bool) | Write(channel: byte, length: nat, position: nat, ok: bool)

  /** A first frame follows its own successful service; a follower directly follows its predecessor. */
  predicate InBurst(log: seq<SendEvent>, e: SendEvent) {
    e.Write? && e.channel == DATA ==>
      && 1 <= e.position <= BURST_MAX && log != []
      && var last := log[|log| - 1];
         if e.position == 1 then last == Serviced(true)
         else e.length <= SMALL_DATA_MAX && last.Write? && last.channel == DATA && last.ok
              && last.position == e.position - 1 && last.length <= SMALL_DATA_MAX
  }

  ghost predicate BurstsOk(log: seq<SendEvent>) {
    forall i :: 0 <= i < |log| ==> InBurst(log[..i], log[i])
  }

  lemma BurstExtends(log: seq<SendEvent>, e: SendEvent)
    requires BurstsOk(log) && InBurst(log, e)
    ensures BurstsOk(log + [e])
  {
    var l := log + [e];
    forall i | 0 <= i < |l| ensures InBurst(l[..i], l[i]) {
      if i < |log| { assert l[..i] == log[..i]; } else { assert l[..i] == log; }
    }
  }

  /** Every data write stands at most three writes after the service it relies on, everything between is
      a successful small data write, and a frame over 512 bytes stands directly after its own service. */
  lemma {:induction false} ServiceIsRecent(log: seq<SendEvent>, i: nat)
    requires BurstsOk(log) && i < |log| && log[i].Write? && log[i].channel == DATA
    ensures 1 <= log[i].position <= BURST_MAX && i >= log[i].position
    ensures var s := i - log[i].position; log[s] == Serviced(true)
    ensures forall k :: i - log[i].position < k < i ==>
      log[k].Write? && log[k].channel == DATA && log[k].ok && log[k].length <= SMALL_DATA_MAX
    ensures log[i].length > SMALL_DATA_MAX ==> log[i].position == 1
  {
    assert InBurst(log[..i], log[i]);
    if log[i].position > 1 {
      assert log[..i][i - 1] == log[i - 1];
      ServiceIsRecent(log, i - 1);
    }
  }

  // ---------------------------------------------------------------- the sender

  class Sender {
    const net: Net
    const fifo: FifoPort
    const tx: array<byte>
    ghost var log: seq<SendEvent>
    ghost var wire: seq<seq<byte>>     // the frames whose write completed

    ghost predicate Valid()
      reads this, net, fifo
    {
      net.Valid() && fifo.Valid() && tx.Length == CONTROL_CAPACITY
    }

    constructor (net: Net, fifo: FifoPort)
      requires net.Valid() && fifo.Valid()
      ensures Valid() && this.net == net && this.fifo == fifo && fresh(tx) && log == [] && wire == []
    {
      this.net, this.fifo, log, wire := net, fifo, [], [];
      tx := new byte[CONTROL_CAPACITY];
    }

    /** Followers the credits left after this frame can carry. */
    function Grant(length: nat, wantFrames: nat): (grant: nat)
      reads net
      ensures 0 < Window(net.txSeq, net.txMax) <= WINDOW_MAX ==>
        grant == Allowance(length, wantFrames, Window(net.txSeq, net.txMax) - 1)
      ensures grant <= 3
      ensures grant > 0 ==> grant < wantFrames && grant < Window(net.txSeq, net.txMax) && length <= SMALL_DATA_MAX
    {
      var capped := if wantFrames > BURST_MAX then BURST_MAX else wantFrames;
      var cap := if length > SMALL_DATA_MAX then 1 else capped;
      var available := Window(net.txSeq, net.txMax);
      if cap > 1 && available > 1 && available <= WINDOW_MAX then
        (if available - 1 > cap - 1 then cap - 1 else available - 1)
      else 0
    }

    /** The header, payload and padding in the staging buffer. */
    method Build(channel: byte, data: seq<byte>, padded: nat)
      requires tx.Length == CONTROL_CAPACITY && |data| + 12 <= padded <= CONTROL_CAPACITY
      modifies tx
      ensures tx[..padded] == FrameBytes(net.txSeq, channel, data, padded)
    {
      var total := |data| + 12;
      forall i | 0 <= i < padded { tx[i] := 0; }
      tx[0], tx[1], tx[2], tx[3] := total % 256, total / 256, (0xffff - total) % 256, (0xffff - total) / 256;
      tx[4], tx[5], tx[7] := net.txSeq, channel, 12;
      forall i | 0 <= i < |data| { tx[12 + i] := data[i]; }
      ghost var want := FrameBytes(net.txSeq, channel, data, padded);
      forall i | 0 <= i < padded ensures tx[i] == want[i] {}
    }

    /** Framing and the one function-2 write, once credit is known to be there. */
    method WriteFrame(channel: byte, data: seq<byte>, padded: nat, position: nat) returns (status: NtStatus)
      requires Valid() && Credit(net.txSeq, net.txMax) && |data| + 12 <= padded <= CONTROL_CAPACITY && padded % 4 == 0
      modifies this, net`txSeq, net`sent, fifo, tx
      ensures Valid() && (old(fifo.failed) ==> fifo.log == old(fifo.log))
      ensures log == old(log) + [Write(channel, |data|, position, status == Ok)]
      ensures status in {Ok, InvalidState, IoError}
      ensures (status == InvalidState <==> old(fifo.failed)) && (status == Ok <==> !fifo.failed)
      ensures status == Ok ==> net.txSeq == (old(net.txSeq) + 1) % 256 && net.sent == old(net.sent) + 1 <= net.granted
      ensures status == Ok ==> Window(net.txSeq, net.txMax) == old(Window(net.txSeq, net.txMax)) - 1
      ensures status == Ok ==> wire == old(wire) + [FrameBytes(old(net.txSeq), channel, data, padded)]
      ensures status == Ok ==> fifo.stream == old(fifo.stream) + FrameBytes(old(net.txSeq), channel, data, padded)
      ensures status != Ok ==>
        net.txSeq == old(net.txSeq) && net.sent == old(net.sent) && wire == old(wire) && fifo.failed
      ensures forall i :: 0 <= i < padded ==> tx[i] == 0
    {
      Build(channel, data, padded);
      ghost var frame := tx[..padded];
      var st, chunks := fifo.Transfer(tx, 0, padded, true);
      status := st;
      log := log + [Write(channel, |data|, position, status == Ok)];
      forall i | 0 <= i < padded { tx[i] := 0; }
      if status == Ok {
        wire := wire + [frame];
        net.Spend();
      }
    }

    /** Everything that must hold before the bytes may go: for data a fresh service pass, or a place in a
        running burst; then no halt, and a credit. */
    method Permission(channel: byte, length: nat, serviceData: bool, reusePosition: nat, wantFrames: nat)
      returns (status: NtStatus, grant: nat, position: nat)
      requires Valid()
      modifies this`log, net
      ensures Valid() && net.txMax == old(net.txMax) && net.txSeq == old(net.txSeq) && net.sent == old(net.sent)
      ensures net.granted == old(net.granted)
      ensures status == Ok ==> Credit(net.txSeq, net.txMax) && !net.halted && (channel == DATA ==> net.Open())
      ensures status == Ok ==> log == if channel == DATA && serviceData then old(log) + [Serviced(true)] else old(log)
      ensures status == Ok ==>
        grant == if channel == DATA && serviceData then Allowance(length, wantFrames, Window(net.txSeq, net.txMax) - 1)
        else 0
      ensures status == Ok ==> position == if channel != DATA then 0 else if serviceData then 1 else reusePosition
      ensures log == old(log) || (channel == DATA && serviceData && exists b :: log == old(log) + [Serviced(b)])
      ensures !(channel == DATA && serviceData) ==>
        net.globalFlow == old(net.globalFlow) && net.txFlow == old(net.txFlow) && net.halted == old(net.halted)
      ensures status in {Ok, InvalidParameter, Busy, NotReady, Cancelled, IoError}
      ensures status == InvalidParameter <==> channel == DATA && !serviceData && !(2 <= reusePosition <= BURST_MAX)
      ensures status == Busy ==> !Credit(net.txSeq, net.txMax) || (channel == DATA && !net.Open())
      ensures status == NotReady ==> net.halted
      ensures status == Cancelled <==> channel == DATA && serviceData && net.stops(old(net.tick))
      ensures status == IoError ==> channel == DATA && serviceData && net.globalFlow && net.AccessFailed(old(net.tick))
    {
      hide Bit, BurstsOk;
      grant, position := 0, 0;
      if channel == DATA {
        if serviceData {
          var served, pass, probed := net.Service(false);
          log := log + [Serviced(served == Ok)];
          if served != Ok { return served, 0, 0; }
          if !net.Open() { return Busy, 0, 0; }
          grant, position := Grant(length, wantFrames), 1;
        } else {
          if reusePosition < 2 || reusePosition > BURST_MAX { return InvalidParameter, 0, 0; }
          if !net.Open() || !Credit(net.txSeq, net.txMax) { return Busy, 0, 0; }
          position := reusePosition;
        }
      }
      if net.halted { return NotReady, 0, 0; }
      if !Credit(net.txSeq, net.txMax) { return Busy, 0, 0; }
      return Ok, grant, position;
    }

    /** CywSendFrameCore with 12-byte headers. BUSY always means that nothing was written. */
    method SendFrameCore(channel: byte, data: seq<byte>, serviceData: bool, reusePosition: nat, wantFrames: nat)
      returns (status: NtStatus, permit: nat)
      requires Valid()
      modifies this, net, fifo, tx
      ensures Valid() && net.txMax == old(net.txMax)
      ensures status !in {Ok, InvalidState, IoError} ==>
        (log == old(log) || exists b :: log == old(log) + [Serviced(b)])
      ensures status != Ok ==>
        net.txSeq == old(net.txSeq) && net.sent == old(net.sent) && wire == old(wire) && permit == 0
      ensures status == Ok ==>
        && net.txSeq == (old(net.txSeq) + 1) % 256 && net.sent == old(net.sent) + 1 <= net.granted
        && Window(net.txSeq, net.txMax) == old(Window(net.txSeq, net.txMax)) - 1
        && exists padded :: |data| + 12 <= padded <= CONTROL_CAPACITY
            && wire == old(wire) + [FrameBytes(old(net.txSeq), channel, data, padded)]
      ensures channel == DATA && serviceData ==>
        log == old(log) || (exists b :: log == old(log) + [Serviced(b)])
        || log == old(log) + [Serviced(true), Write(DATA, |data|, 1, status == Ok)]
      ensures channel == DATA && serviceData && status == Ok ==>
        log == old(log) + [Serviced(true), Write(DATA, |data|, 1, true)]
      ensures channel == DATA && !serviceData ==>
        log == old(log) || log == old(log) + [Write(DATA, |data|, reusePosition, status == Ok)]
      ensures channel == DATA && !serviceData && status == Ok ==>
        log == old(log) + [Write(DATA, |data|, reusePosition, true)]
      ensures status == InvalidSize <==> old(TooLong(|data|, fifo.blockReady))
      ensures status == InvalidParameter ==> channel == DATA && !serviceData && !(2 <= reusePosition <= BURST_MAX)
      ensures status == Busy ==> !Credit(net.txSeq, net.txMax) || (channel == DATA && !net.Open())
      ensures status == NotReady ==> net.halted
      ensures status == Cancelled ==> channel == DATA && serviceData && net.stops(old(net.tick))
      ensures status == InvalidState ==> old(fifo.failed)
      ensures status == IoError ==>
        (fifo.failed && !old(fifo.failed))
        || (channel == DATA && serviceData && net.globalFlow && net.AccessFailed(old(net.tick)))
      ensures old(fifo.failed) ==> status != Ok && fifo.failed && fifo.log == old(fifo.log)
      ensures status == Ok && channel == DATA && serviceData ==>
        permit == Allowance(|data|, wantFrames, Window(net.txSeq, net.txMax))
      ensures permit > 0 ==>
        && channel == DATA && serviceData && |data| <= SMALL_DATA_MAX && permit <= 3 && permit < wantFrames
        && permit <= Window(net.txSeq, net.txMax) && net.Open() && !net.halted
      ensures channel == DATA && !serviceData ==>
        net.globalFlow == old(net.globalFlow) && net.txFlow == old(net.txFlow) && net.halted == old(net.halted)
      ensures (channel == DATA && !serviceData && 2 <= reusePosition <= BURST_MAX && |data| <= SMALL_DATA_MAX
        && old(net.Open() && !net.halted && Credit(net.txSeq, net.txMax))) ==> status in {Ok, InvalidState, IoError}
    {
      hide FrameBytes, CreditInv, NeverReplays, Dead, Bit, BurstsOk, Window, Allowance, Net.AccessFailed, Net.Valid,
        FifoPort.Valid;
      permit := 0;
      if |data| > CONTROL_CAPACITY - 12 {
        return InvalidSize, 0;
      }
      var padded := PaddedLength(|data|, fifo.blockReady);
      if padded > CONTROL_CAPACITY {
        return InvalidSize, 0;
      }
      var grant, position;
      status, grant, position := Permission(channel, |data|, serviceData, reusePosition, wantFrames);
      if status != Ok { return status, 0; }
      status := WriteFrame(channel, data, padded, position);
      if status == Ok && channel == DATA && serviceData {
        permit := grant;
      }
    }
  }
}
