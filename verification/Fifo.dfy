/** The function-2 FIFO: chunked transfers with a failure latch that only re-preparation clears. */
module Fifo {
  import opened Wire

  const BLOCK: nat := 512
  const MAX_BLOCKS: nat := 32

  datatype NtStatus =
    | Ok | Busy | NotReady | Cancelled | InvalidSize | InvalidParameter | InvalidState
    | DataError | NotSupported | NoMore | IoError | Timeout | Unsuccessful

  /** What reaches the bus: one CMD53 each, and the latch being set by hand or cleared. */
  datatype FifoEvent = Chunk(write: bool, offset: nat, size: nat, ok: bool) | Latched | Armed

  /** After a failed command or a latch, no command is issued until the FIFO is armed again. */
  predicate Dead(log: seq<FifoEvent>)
    decreases |log|
  {
    log != [] &&
    var e := log[|log| - 1];
    if e.Armed? then false else e.Latched? || (e.Chunk? && !e.ok) || Dead(log[..|log| - 1])
  }

  ghost predicate NeverReplays(log: seq<FifoEvent>) {
    forall i :: 0 <= i < |log| && log[i].Chunk? ==> !Dead(log[..i])
  }

  /** Successful chunks laid end to end from `from` to `to`. */
  predicate Tiles(chunks: seq<FifoEvent>, write: bool, from: nat, to: nat)
    decreases |chunks|
  {
    if chunks == [] then from == to
    else
      var e := chunks[|chunks| - 1];
      e.Chunk? && e.ok && e.write == write && 0 < e.size <= BLOCK * MAX_BLOCKS && e.offset + e.size == to
      && from <= e.offset && Tiles(chunks[..|chunks| - 1], write, from, e.offset)
  }

  /** A transfer that ended at a failed command, everything before it in place. */
  predicate BrokeOff(chunks: seq<FifoEvent>, write: bool) {
    chunks != [] &&
    var e := chunks[|chunks| - 1]; e.Chunk? && !e.ok && Tiles(chunks[..|chunks| - 1], write, 0, e.offset)
  }

  predicate Legal(length: nat) { 0 < length <= WIRE_CAPACITY && length % 4 == 0 }

  class FifoPort {
    const answers: nat -> bool         // whether the n-th command completes
    const card: (nat, nat) -> byte     // what the n-th command reads
    const supportsBlocks: nat -> Option<bool>
    var tick: nat
    var blockReady: bool
    var failed: bool
    ghost var log: seq<FifoEvent>
    ghost var stream: seq<byte>        // the bytes that went through, in either direction, in order

    ghost predicate Valid()
      reads this
    {
      NeverReplays(log) && failed == Dead(log)
    }

    constructor (answers: nat -> bool, card: (nat, nat) -> byte, supportsBlocks: nat -> Option<bool>)
      ensures Valid() && !failed && log == []
    {
      this.answers, this.card, this.supportsBlocks := answers, card, supportsBlocks;
      tick, blockReady, failed, log, stream := 0, false, false, [], [];
    }

    ghost method Record(e: FifoEvent)
      requires NeverReplays(log) && (e.Chunk? ==> !Dead(log))
      modifies this`log
      ensures log == old(log) + [e] && NeverReplays(log)
      ensures Dead(log) == if e.Armed? then false else e.Latched? || (e.Chunk? && !e.ok) || old(Dead(log))
    {
      var before := log;
      log := log + [e];
      assert log[..|before|] == before;
      forall i | 0 <= i < |log| && log[i].Chunk? ensures !Dead(log[..i]) {
        if i < |before| { assert log[..i] == before[..i]; }
      }
    }

    /** The poller's own latch. */
    method Latch()
      requires Valid()
      modifies this`failed, this`log
      ensures Valid() && failed && log == old(log) + [Latched]
    {
      failed := true;
      Record(Latched);
    }

    /** SdioPrepareRuntimeFifo, past its bus-mode checks: the only way to clear the latch. */
    method Prepare(busOk: bool) returns (status: NtStatus)
      requires Valid()
      modifies this
      ensures Valid()
      ensures status == Ok ==> !failed && log == old(log) + [Armed]
      ensures status != Ok ==> failed == old(failed) && log == old(log) && !blockReady
    {
      blockReady := false;
      if !busOk {
        return InvalidState;
      }
      var caps := supportsBlocks(tick);
      tick := tick + 1;
      if caps.None? {
        return IoError;
      }
      blockReady, failed := caps.value, false;
      Record(Armed);
      return Ok;
    }

    /** One CMD53. A failed one resets the host, which drops block mode, and sets the latch. */
    method Command(buffer: array<byte>, at: nat, offset: nat, size: nat, write: bool) returns (ok: bool)
      requires Valid() && !failed && at + size <= buffer.Length
      modifies this, buffer
      ensures Valid() && log == old(log) + [Chunk(write, offset, size, ok)]
      ensures failed == !ok && blockReady == (ok && old(blockReady))
      ensures stream == if ok then old(stream) + buffer[at..at + size] else old(stream)
      ensures forall i :: 0 <= i < buffer.Length && (write || i < at || at + size <= i) ==> buffer[i] == old(buffer[i])
    {
      ok := answers(tick);
      Record(Chunk(write, offset, size, ok));
      if ok && !write {
        forall i | 0 <= i < size { buffer[at + i] := card(tick, i); }
      }
      if ok { stream := stream + buffer[at..at + size]; }
      failed, blockReady, tick := !ok, ok && blockReady, tick + 1;
    }

    /** SdioFifoTransfer. A read fills the buffer from the card, or leaves it zeroed when it fails. */
    method Transfer(buffer: array<byte>, at: nat, length: nat, write: bool)
      returns (status: NtStatus, ghost chunks: seq<FifoEvent>)
      requires Valid() && at + length <= buffer.Length
      modifies this, buffer
      ensures Valid() && log == old(log) + chunks
      ensures status == InvalidParameter <==> !Legal(length)
      ensures status == InvalidState <==> Legal(length) && old(failed)
      ensures status in {InvalidParameter, InvalidState} ==>
        chunks == [] && failed == old(failed) && blockReady == old(blockReady)
      ensures status == Ok ==> !failed && blockReady == old(blockReady) && Tiles(chunks, write, 0, length)
      ensures status == Ok ==> stream == old(stream) + buffer[at..at + length]
      ensures status in {Ok, InvalidParameter, InvalidState, IoError}
      ensures status == IoError ==> failed && BrokeOff(chunks, write)
      ensures forall i :: 0 <= i < buffer.Length && (write || i < at || at + length <= i) ==>
        buffer[i] == old(buffer[i])
      ensures !write && status !in {Ok, InvalidParameter} ==> forall i :: at <= i < at + length ==> buffer[i] == 0
    {
      hide Tiles, NeverReplays, Dead;
      chunks := [];
      if length == 0 || length > WIRE_CAPACITY || length % 4 != 0 {
        return InvalidParameter, chunks;
      }
      if failed {
        if !write { Zero(buffer, at, length); }
        return InvalidState, chunks;
      }
      var ok;
      ok, chunks := Chunks(buffer, at, length, write);
      if !ok {
        if !write { Zero(buffer, at, length); }
        return IoError, chunks;
      }
      return Ok, chunks;
    }

    /** The transfer loop, up to its end or the first failed command. */
    method Chunks(buffer: array<byte>, at: nat, length: nat, write: bool)
      returns (ok: bool, ghost chunks: seq<FifoEvent>)
      requires Valid() && !failed && at + length <= buffer.Length
      modifies this, buffer
      ensures Valid() && log == old(log) + chunks && failed == !ok
      ensures ok ==>
        && blockReady == old(blockReady) && Tiles(chunks, write, 0, length)
        && stream == old(stream) + buffer[at..at + length]
      ensures !ok ==> BrokeOff(chunks, write)
      ensures forall i :: 0 <= i < buffer.Length && (write || i < at || at + length <= i) ==>
        buffer[i] == old(buffer[i])
    {
      hide Tiles, BrokeOff, NeverReplays, Dead;
      chunks := [];
      var done := 0;
      TilesNone(write);
      while done < length
        invariant done <= length && Valid() && !failed && blockReady == old(blockReady)
        invariant log == old(log) + chunks && Tiles(chunks, write, 0, done)
        invariant stream == old(stream) + buffer[at..at + done]
        invariant forall i :: 0 <= i < buffer.Length && (write || i < at || at + length <= i) ==>
          buffer[i] == old(buffer[i])
      {
        var chunk := ChunkSize(length - done);
        ghost var sofar := buffer[at..at + done];
        TilesMore(chunks, write, done, chunk);
        ok := Command(buffer, at + done, done, chunk, write);
        chunks := chunks + [Chunk(write, done, chunk, ok)];
        if !ok { return; }
        Joins(buffer[..], at, done, chunk, sofar);
        done := done + chunk;
      }
      ok := true;
    }

    /** Whole blocks while block mode lasts, at most 32 of them; otherwise at most 512 bytes. */
    function ChunkSize(left: nat): (r: nat)
      reads this
      requires left > 0
      ensures 0 < r <= left && r <= BLOCK * MAX_BLOCKS
      ensures r > BLOCK ==> blockReady && r % BLOCK == 0
    {
      if blockReady && left >= BLOCK then
        var blocks := left / BLOCK;
        (if blocks > MAX_BLOCKS then MAX_BLOCKS else blocks) * BLOCK
      else if left > BLOCK then BLOCK
      else left
    }

    static method Zero(buffer: array<byte>, at: nat, length: nat)
      requires at + length <= buffer.Length
      modifies buffer
      ensures forall i :: 0 <= i < buffer.Length ==> buffer[i] == if at <= i < at + length then 0 else old(buffer[i])
    {
      forall i | at <= i < at + length { buffer[i] := 0; }
    }
  }

  lemma TilesNone(write: bool)
    ensures Tiles([], write, 0, 0)
  {}

  lemma TilesMore(chunks: seq<FifoEvent>, write: bool, done: nat, size: nat)
    requires Tiles(chunks, write, 0, done) && 0 < size <= BLOCK * MAX_BLOCKS
    ensures Tiles(chunks + [Chunk(write, done, size, true)], write, 0, done + size)
    ensures BrokeOff(chunks + [Chunk(write, done, size, false)], write)
  {
    assert (chunks + [Chunk(write, done, size, true)])[..|chunks|] == chunks;
    assert (chunks + [Chunk(write, done, size, false)])[..|chunks|] == chunks;
  }

  lemma Joins(p: seq<byte>, at: nat, n: nat, k: nat, first: seq<byte>)
    requires at + n + k <= |p| && first == p[at..at + n]
    ensures first + p[at + n..at + n + k] == p[at..at + n + k]
  {}

  /** A completed transfer moved every byte once, in order: its chunks partition the buffer. */
  lemma {:induction false} TilesCover(chunks: seq<FifoEvent>, write: bool, from: nat, to: nat, x: nat) returns (i: nat)
    requires Tiles(chunks, write, from, to) && from <= x < to
    ensures i < |chunks| && chunks[i].Chunk? && chunks[i].offset <= x < chunks[i].offset + chunks[i].size
    ensures forall j ::
      (0 <= j < |chunks| && chunks[j].Chunk? && chunks[j].offset <= x < chunks[j].offset + chunks[j].size) ==> j == i
  {
    var n := |chunks| - 1;
    if chunks[n].offset <= x {
      i := n;
      TilesBelow(chunks[..n], write, from, chunks[n].offset);
    } else {
      i := TilesCover(chunks[..n], write, from, chunks[n].offset, x);
    }
  }

  lemma {:induction false} TilesBelow(chunks: seq<FifoEvent>, write: bool, from: nat, to: nat)
    requires Tiles(chunks, write, from, to)
    ensures forall j :: 0 <= j < |chunks| ==>
      chunks[j].Chunk? && from <= chunks[j].offset && chunks[j].offset + chunks[j].size <= to
  {
    if chunks != [] {
      var n := |chunks| - 1;
      TilesBelow(chunks[..n], write, from, chunks[n].offset);
      assert forall j :: 0 <= j < n ==> chunks[j] == chunks[..n][j];
    }
  }

  /** Between a failure and the next arming nothing is issued. */
  lemma {:induction false} NothingAfterFailure(log: seq<FifoEvent>, i: nat, j: nat)
    requires NeverReplays(log) && i < j < |log| && log[j].Chunk?
    requires log[i].Latched? || (log[i].Chunk? && !log[i].ok)
    ensures exists k :: i < k < j && log[k].Armed?
  {
    if forall k :: i < k < j ==> !log[k].Armed? {
      StaysDead(log, i, j);
    }
  }

  lemma {:induction false} StaysDead(log: seq<FifoEvent>, i: nat, j: nat)
    requires i < j <= |log| && (log[i].Latched? || (log[i].Chunk? && !log[i].ok))
    requires forall k :: i < k < j ==> !log[k].Armed?
    ensures Dead(log[..j])
    decreases j
  {
    if i < j - 1 {
      StaysDead(log, i, j - 1);
    }
    assert log[..j][..j - 1] == log[..j - 1];
  }
}
