/** The receive poller: one frame or one superframe child per call, out of one retained buffer. */
module RxPoll {
  import opened Wire
  import opened Fifo
  import opened Transport
  import opened RxGlom
  import Credits

  // ---------------------------------------------------------------- what a history of polls may look like

  datatype RxEvent =
    | Load(at: nat, length: nat)                               // a FIFO read into the buffer was started
    | Announce(slots: seq<nat>)                                // a descriptor was accepted
    | Group(slots: seq<nat>, frame: seq<byte>)                 // a whole superframe was validated
    | Child(index: nat, channel: byte, data: seq<byte>)
    | Frame(channel: byte, data: seq<byte>)
    | Failed
    | Restarted(armed: bool)                                   // the worker starts over, with the FIFO prepared or not

  datatype RxState = Open | Awaiting(slots: seq<nat>) | Held(slots: seq<nat>, frame: seq<byte>, next: nat) | Broken

  function ChildChannel(slots: seq<nat>, frame: seq<byte>, i: nat): byte
    requires i < |slots| && SuperframeOk(slots, frame)
  {
    assert ChildOk(slots, frame, SdpcmHeader(frame).value.offset, i);
    frame[ChildStart(slots, frame, i) + 5] % 16
  }

  function ChildData(slots: seq<nat>, frame: seq<byte>, i: nat): seq<byte>
    requires i < |slots| && Geometry(slots, |frame|) && SuperframeOk(slots, frame)
  {
    ChildrenTile(slots, frame, i, i);
    var s, h := ChildStart(slots, frame, i), ChildHeader(slots, frame, i);
    frame[s + h.offset..s + h.length]
  }

  /** The whole discipline: what may follow what. */
  function After(st: RxState, e: RxEvent): Option<RxState> {
    match (st, e)
    case (_, Restarted(armed)) => Some(if st == Broken && !armed then Broken else Open)
    case (Open, Load(_, _)) => Some(Open)
    case (Open, Frame(_, _)) => Some(Open)
    case (Open, Announce(slots)) => if slots != [] then Some(Awaiting(slots)) else None
    case (Open, Failed) => Some(Broken)
    case (Awaiting(_), Load(_, _)) => Some(st)
    case (Awaiting(slots), Group(s, frame)) =>
      if s == slots && slots != [] && Geometry(slots, |frame|) && SuperframeOk(slots, frame)
        then Some(Held(slots, frame, 0))
        else None
    case (Awaiting(_), Failed) => Some(Broken)
    case (Held(slots, frame, n), Child(i, channel, data)) =>
      if i == n < |slots| && Geometry(slots, |frame|) && SuperframeOk(slots, frame)
         && channel == ChildChannel(slots, frame, n) && data == ChildData(slots, frame, n)
      then Some(if n + 1 == |slots| then Open else Held(slots, frame, n + 1)) else None
    case _ => None
  }

  function StateOf(log: seq<RxEvent>): Option<RxState> {
    if log == [] then Some(Open)
    else
      var before := StateOf(log[..|log| - 1]);
      if before.None? then None else After(before.value, log[|log| - 1])
  }

  predicate Legitimate(log: seq<RxEvent>) { StateOf(log).Some? }

  lemma {:induction false} PrefixLegitimate(log: seq<RxEvent>, n: nat)
    requires Legitimate(log) && n < |log|
    ensures Legitimate(log[..n]) && StateOf(log[..n + 1]) == After(StateOf(log[..n]).value, log[n])
    ensures Legitimate(log[..n + 1])
  {
    var m := |log| - 1;
    if n < m {
      PrefixLegitimate(log[..m], n);
      assert log[..m][..n] == log[..n] && log[..m][..n + 1] == log[..n + 1];
    } else {
      assert log[..n + 1] == log;
    }
    assert log[..n + 1][..n] == log[..n];
  }

  /** After a superframe validates, the next events are exactly its children: in order, once each, with
      its own bytes, unless the worker starts over. In particular the buffer is not loaded again before the
      last of them is out. */
  lemma {:induction false} GroupThenChildren(log: seq<RxEvent>, g: nat, j: nat)
    requires Legitimate(log) && g < j < |log| && log[g].Group? && j <= g + |log[g].slots|
    requires forall k :: g < k <= j ==> !log[k].Restarted?
    ensures Geometry(log[g].slots, |log[g].frame|) && SuperframeOk(log[g].slots, log[g].frame)
    ensures var i := j - g - 1;
      log[j] == Child(i, ChildChannel(log[g].slots, log[g].frame, i), ChildData(log[g].slots, log[g].frame, i))
    ensures StateOf(log[..j + 1]) ==
      Some(if j == g + |log[g].slots| then Open else RxState.Held(log[g].slots, log[g].frame, j - g))
  {
    hide SuperframeOk, Geometry, ChildChannel, ChildData, After;
    PrefixLegitimate(log, g);
    PrefixLegitimate(log, j);
    var frame, slots := log[g].frame, log[g].slots;
    GroupIsHeld(StateOf(log[..g]).value, slots, frame);
    if j > g + 1 { GroupThenChildren(log, g, j - 1); }
    HeldGoesOn(slots, frame, j - g - 1, log[j]);
  }

  lemma GroupIsHeld(st: RxState, slots: seq<nat>, frame: seq<byte>)
    requires After(st, Group(slots, frame)).Some?
    ensures slots != [] && Geometry(slots, |frame|) && SuperframeOk(slots, frame)
    ensures After(st, Group(slots, frame)) == Some(RxState.Held(slots, frame, 0))
  {}

  lemma HeldGoesOn(slots: seq<nat>, frame: seq<byte>, n: nat, e: RxEvent)
    requires n < |slots| && Geometry(slots, |frame|) && SuperframeOk(slots, frame)
    requires After(RxState.Held(slots, frame, n), e).Some? && !e.Restarted?
    ensures e == Child(n, ChildChannel(slots, frame, n), ChildData(slots, frame, n))
    ensures After(RxState.Held(slots, frame, n), e)
      == Some(if n + 1 == |slots| then Open else RxState.Held(slots, frame, n + 1))
  {
    hide SuperframeOk, Geometry, ChildChannel, ChildData;
  }

  /** A child is delivered only out of a superframe that validated before it, directly after its elder
      siblings. */
  lemma {:induction false} ChildComesFromGroup(log: seq<RxEvent>, j: nat) returns (g: nat)
    requires Legitimate(log) && j < |log| && log[j].Child?
    ensures g < j && g == j - log[j].index - 1 && log[g].Group? && log[j].index < |log[g].slots|
    ensures forall k :: g < k <= j ==> log[k].Child? && log[k].index == k - g - 1
  {
    PrefixLegitimate(log, j);
    HeldSince(log, j);
    g := j - log[j].index - 1;
  }

  /** A start of the worker leaves no child of an earlier superframe behind. */
  lemma NoStaleChild(log: seq<RxEvent>, r: nat, j: nat) returns (g: nat)
    requires Legitimate(log) && r < j < |log| && log[r].Restarted? && log[j].Child?
    ensures r < g < j && log[g].Group? && log[j].index == j - g - 1
  {
    g := ChildComesFromGroup(log, j);
  }

  lemma {:induction false} HeldSince(log: seq<RxEvent>, n: nat)
    requires Legitimate(log) && n <= |log|
    ensures StateOf(log[..n]).Some?
    ensures StateOf(log[..n]).value.Held? ==>
      var st := StateOf(log[..n]).value;
      && n >= st.next + 1 && log[n - st.next - 1] == Group(st.slots, st.frame)
      && forall k :: n - st.next <= k < n ==> log[k].Child? && log[k].index == k - (n - st.next)
    decreases n
  {
    hide SuperframeOk, Geometry, ChildChannel, ChildData, After;
    if n == |log| { assert log[..n] == log; }
    if n > 0 {
      PrefixLegitimate(log, n - 1);
      HeldSince(log, n - 1);
      if StateOf(log[..n]).value.Held? { HowHeld(StateOf(log[..n - 1]).value, log[n - 1]); }
    }
  }

  /** A superframe is held from its validation on, one child less after each delivery. */
  lemma HowHeld(st: RxState, e: RxEvent)
    requires After(st, e).Some? && After(st, e).value.Held?
    ensures var h := After(st, e).value;
      || (h.next == 0 && e == Group(h.slots, h.frame))
      || (h.next > 0 && st == RxState.Held(h.slots, h.frame, h.next - 1) && e.Child? && e.index == h.next - 1)
  {
    hide SuperframeOk, Geometry, ChildChannel, ChildData;
  }

  /** After a failure nothing is read or delivered until the worker starts over with the FIFO prepared. */
  lemma {:induction false} FailureEndsReceiving(log: seq<RxEvent>, i: nat, j: nat)
    requires Legitimate(log) && i < j < |log| && log[i].Failed?
    requires forall k :: i < k < j ==> !(log[k].Restarted? && log[k].armed)
    ensures log[j].Restarted? && StateOf(log[..j]) == Some(Broken)
    decreases j
  {
    PrefixLegitimate(log, j);
    if j == i + 1 {
      PrefixLegitimate(log, i);
    } else {
      FailureEndsReceiving(log, i, j - 1);
      PrefixLegitimate(log, j - 1);
    }
  }

  /** A superframe belongs to the latest accepted descriptor. */
  lemma {:induction false} GroupFollowsDescriptor(log: seq<RxEvent>, g: nat) returns (a: nat)
    requires Legitimate(log) && g < |log| && log[g].Group?
    ensures a < g && log[a] == Announce(log[g].slots) && forall k :: a < k < g ==> log[k].Load?
  {
    PrefixLegitimate(log, g);
    a := AwaitingSince(log, g);
  }

  lemma {:induction false} AwaitingSince(log: seq<RxEvent>, n: nat) returns (a: nat)
    requires Legitimate(log) && n <= |log| && StateOf(log[..n]).Some? && StateOf(log[..n]).value.Awaiting?
    ensures a < n && log[a] == Announce(StateOf(log[..n]).value.slots) && forall k :: a < k < n ==> log[k].Load?
    decreases n
  {
    hide SuperframeOk, Geometry, ChildChannel, ChildData;
    PrefixLegitimate(log, n - 1);
    if log[n - 1].Announce? { a := n - 1; } else { a := AwaitingSince(log, n - 1); }
  }

  function Deliveries(log: seq<RxEvent>): nat {
    if log == [] then 0
      else Deliveries(log[..|log| - 1]) + if log[|log| - 1].Child? || log[|log| - 1].Frame? then 1
      else 0
  }

  predicate Delivered(e: RxEvent, channel: byte, data: seq<byte>) {
    e == Frame(channel, data) || (e.Child? && e == Child(e.index, channel, data))
  }

  /** A header this poll may act on: well formed, and of the hinted size if a size was hinted. */
  predicate HeaderFits(p: seq<byte>, hint: nat)
    requires |p| >= 12
  {
    SdpcmHeader(p).Some? && (hint == 0 || ReadAheadValid(p, hint, SdpcmHeader(p).value.length))
  }

  /** What an ordinary transaction answers, by the bytes it read. */
  function Verdict(p: seq<byte>, hint: nat, glomEnabled: bool): NtStatus
    requires |p| == WIRE_CAPACITY
  {
    if Le32(p, 0) == 0 then NoMore
    else if !HeaderFits(p, hint) then DataError
    else
      var h := SdpcmHeader(p).value;
      if p[5] % 16 == 3 then
        (if !glomEnabled then NotSupported
         else if p[5] >= 0x80 && DescriptorOk(p[h.offset..h.length]) then Ok else DataError)
      else if p[5] >= 0x80 then NotSupported
      else Ok
  }

  /** The reads of a frame of this length. */
  function Loads(hint: nat, length: nat): seq<RxEvent> {
    if hint != 0 then [Load(0, hint)]
    else if length > 64 then [Load(0, 64), Load(64, Align4(length - 64))]
    else [Load(0, 64)]
  }

  /** A header is its first twelve bytes. */
  lemma HeaderPrefix(p: seq<byte>, q: seq<byte>, hint: nat)
    requires |p| >= 12 && |q| >= 12 && p[..12] == q[..12]
    ensures SdpcmHeader(p) == SdpcmHeader(q) && Le32(p, 0) == Le32(q, 0) && HeaderFits(p, hint) == HeaderFits(q, hint)
  {
    assert forall i :: 0 <= i < 12 ==> p[i] == p[..12][i] == q[i];
  }

  // ---------------------------------------------------------------- the poller

  class Poller {
    const net: Net
    const fifo: FifoPort
    const glom: Glom
    const rx: array<byte>
    const glomEnabled: bool
    var rxBatch: bool
    var rxBatchServiced: bool
    var rxNextLength: nat
    ghost var log: seq<RxEvent>

    ghost predicate Shape()
      reads this, net, fifo, glom
    {
      && net.Valid() && fifo.Valid() && glom.Shape() && rx.Length == WIRE_CAPACITY
      && HintOk(rxNextLength)
    }

    /** The parser and the buffer are in the state the history leads to. */
    ghost predicate Matches(st: RxState)
      reads this, net, fifo, glom, glom.slot, glom.start, glom.end, glom.payload, rx
      requires Shape()
    {
      match st
      case Open => glom.count == 0
      case Awaiting(slots) => glom.count > 0 && glom.Announced() && glom.Slots() == slots
      case Held(slots, frame, n) =>
        glom.Holding(frame) && glom.Slots() == slots && glom.index == n && glom.bytes <= rx.Length
        && rx[..glom.bytes] == frame
      case Broken => fifo.failed && glom.count == 0
    }

    ghost predicate Valid()
      reads this, net, fifo, glom, glom.slot, glom.start, glom.end, glom.payload, rx
    {
      Shape() && Legitimate(log) && Matches(StateOf(log).value)
    }

    constructor (net: Net, fifo: FifoPort, glomEnabled: bool)
      requires net.Valid() && fifo.Valid()
      ensures Valid() && this.net == net && this.fifo == fifo && log == [] && fresh(glom) && fresh(rx)
    {
      this.net, this.fifo, this.glomEnabled, log := net, fifo, glomEnabled, [];
      rxBatch, rxBatchServiced, rxNextLength := false, false, 0;
      glom := new Glom();
      rx := new byte[WIRE_CAPACITY];
    }

    ghost method Note(e: RxEvent)
      requires Legitimate(log) && After(StateOf(log).value, e).Some?
      modifies this`log
      ensures log == old(log) + [e] && Legitimate(log) && StateOf(log) == After(StateOf(old(log)).value, e)
      ensures Deliveries(log) == Deliveries(old(log)) + if e.Child? || e.Frame? then 1 else 0
    {
      assert (log + [e])[..|log|] == log;
      log := log + [e];
    }

    /** The exit path: latch the FIFO and forget the superframe. */
    method Abandon()
      requires Shape() && Legitimate(log) && (StateOf(log).value.Open? || StateOf(log).value.Awaiting?)
      modifies this, net`rxPending, fifo, glom, glom.slot, glom.start, glom.end, glom.payload
      ensures Valid() && fifo.failed && glom.count == 0 && rxNextLength == 0 && !net.rxPending && !rxBatchServiced
      ensures log == old(log) + [Failed] && Deliveries(log) == Deliveries(old(log)) && rxBatch == old(rxBatch)
      ensures fifo.log == old(fifo.log) + [FifoEvent.Latched]
    {
      hide StateOf, Net.Valid, FifoPort.Valid, Glom.Announced, Glom.Holding, Deliveries, After, NeverReplays, Dead,
        Credits.CreditInv, HintOk;
      fifo.Latch();
      glom.Clear();
      rxNextLength, rxBatchServiced := 0, false;
      net.rxPending := false;
      AbandonAllowed(StateOf(log).value);
      Note(Failed);
    }

    /** One FIFO read into the buffer. */
    method Read(at: nat, length: nat) returns (ok: bool)
      requires Shape() && Legitimate(log) && (StateOf(log).value.Open? || StateOf(log).value.Awaiting?)
      requires Legal(length) && at + length <= WIRE_CAPACITY && !fifo.failed
      modifies this`log, fifo, rx
      ensures Shape() && Legitimate(log) && log == old(log) + [Load(at, length)] && StateOf(log) == StateOf(old(log))
      ensures Deliveries(log) == Deliveries(old(log)) && fifo.failed == !ok
      ensures ok ==> exists chunks :: fifo.log == old(fifo.log) + chunks && Tiles(chunks, false, 0, length)
      ensures forall i :: 0 <= i < at ==> rx[i] == old(rx[i])
    {
      hide Deliveries, Tiles;
      Note(Load(at, length));
      var status, chunks := fifo.Transfer(rx, at, length, false);
      ok := status == Ok;
    }

    /** One child of the held superframe. Nothing is read and no credit state moves. */
    method DeliverChild() returns (channel: byte, offset: nat, length: nat)
      requires Valid() && StateOf(log).value.Held?
      modifies this`log, this`rxNextLength, glom
      ensures Valid() && offset <= length <= WIRE_CAPACITY && channel in {1, 2}
      ensures log == old(log) + [Child(old(glom.index), channel, rx[offset..length])]
      ensures Deliveries(log) == Deliveries(old(log)) + 1
    {
      hide Deliveries, Placed, ChildChannel, ChildData, StateOf, NeverReplays, Dead, Credits.CreditInv;
      ghost var st := StateOf(log).value;
      ghost var slots, frame, n := st.slots, st.frame, st.next;
      var i := glom.index;
      HoldingChild(slots, frame, i, glom.start[i], glom.end[i], glom.payload[i]);
      glom.index := i + 1;
      channel, offset, length := rx[glom.start[i] + 5] % 16, glom.payload[i], glom.end[i];
      assert rx[offset..length] == rx[..glom.bytes][offset..length];
      Note(Child(i, channel, rx[offset..length]));
      if glom.index == glom.count {
        rxNextLength := glom.nextLength;
        glom.count := 0;
      }
    }

    /** The superframe the descriptor announced: read whole, validated whole, and only then accounted. */
    method LoadGroup() returns (status: NtStatus)
      requires Valid() && StateOf(log).value.Awaiting? && !fifo.failed
      modifies this, net`rxPending, net`txMax, net`txFlow, net`granted, fifo, glom, glom.slot, glom.start, glom.end,
        glom.payload, rx
      ensures Valid() && Deliveries(log) == Deliveries(old(log)) && status in {Ok, IoError, DataError}
      ensures status == Ok ==> StateOf(log).value.Held? && StateOf(log).value.next == 0 && !fifo.failed
      ensures status == Ok ==> net.txFlow == rx[8] && net.txMax == CreditUpdate(net.txSeq, old(net.txMax), rx[9])
      ensures status != IoError ==> (status == Ok <==> SuperframeOk(old(glom.Slots()), rx[..old(glom.bytes)]))
      ensures status == Ok ==> log == old(log) + [Load(0, glom.bytes), Group(old(glom.Slots()), rx[..glom.bytes])]
      ensures status != Ok ==>
        && fifo.failed && log != [] && log[|log| - 1] == Failed && net.txMax == old(net.txMax)
        && net.txFlow == old(net.txFlow)
    {
      hide Deliveries, StateOf, NeverReplays, Dead, Credits.CreditInv, Placed, SuperframeOk, CreditUpdate, Begin;
      AnnouncedLegal(glom.Slots(), glom.bytes, glom.descriptorBytes);
      var ok := Read(0, glom.bytes);
      if !ok {
        Abandon();
        return IoError;
      }
      ok := glom.Validate(rx[..glom.bytes]);
      if !ok {
        Abandon();
        return DataError;
      }
      net.TakeHeader(rx[9], rx[8]);
      Note(Group(glom.Slots(), rx[..glom.bytes]));
      return Ok;
    }

    /** The first read of an ordinary frame, and what its header says. */
    method FetchHeader(hint: nat) returns (status: NtStatus, offset: nat, length: nat)
      requires Valid() && StateOf(log).value.Open? && !fifo.failed && HintOk(hint)
      modifies this, net`rxPending, fifo, glom, glom.slot, glom.start, glom.end, glom.payload, rx
      ensures Valid() && status in {Ok, NoMore, IoError, DataError} && Deliveries(log) == Deliveries(old(log))
      ensures status == Ok ==>
        && !fifo.failed && StateOf(log).value.Open? && rxNextLength == 0
        && log == old(log) + [Load(0, if hint != 0 then hint else 64)]
      ensures status == Ok ==> SdpcmHeader(rx[..]) == Some(Header(length, offset))
      ensures status == NoMore ==> !net.rxPending && !fifo.failed
      ensures status in {IoError, DataError} ==> fifo.failed && log != [] && log[|log| - 1] == Failed
      ensures status != IoError ==>
        (status == NoMore <==> Le32(rx[..], 0) == 0) && (status == Ok ==> HeaderFits(rx[..], hint))
      ensures status == DataError ==> !HeaderFits(rx[..], hint)
    {
      hide Deliveries, StateOf, NeverReplays, Dead, Credits.CreditInv, Placed, SuperframeOk, Begin, Le16, Le32, Tiles,
        SdpcmHeader;
      offset, length := 0, 0;
      rxNextLength := 0;
      var read := if hint != 0 then hint else 64;
      var ok := Read(0, read);
      if !ok {
        Abandon();
        return IoError, 0, 0;
      }
      if Le32(rx[..], 0) == 0 {
        net.rxPending, rxBatchServiced := false, false;
        return NoMore, 0, 0;
      }
      HeaderPrefix(rx[..read], rx[..], hint);
      var h := SdpcmHeader(rx[..read]);
      if h.None? || (hint != 0 && !ReadAheadValid(rx[..read], hint, h.value.length)) {
        Abandon();
        return DataError, 0, 0;
      }
      return Ok, h.value.offset, h.value.length;
    }

    /** The bytes of one ordinary frame, in one read of the hinted size or in two. An accepted header's
        frame lies wholly in what was read. */
    method Fetch() returns (status: NtStatus, offset: nat, length: nat)
      requires Valid() && StateOf(log).value.Open? && !fifo.failed
      modifies this, net`rxPending, fifo, glom, glom.slot, glom.start, glom.end, glom.payload, rx
      ensures Valid() && status in {Ok, NoMore, IoError, DataError} && Deliveries(log) == Deliveries(old(log))
      ensures status == Ok ==>
        offset <= length <= WIRE_CAPACITY && !fifo.failed && StateOf(log).value.Open? && rxNextLength == 0
      ensures status == Ok ==> SdpcmHeader(rx[..]) == Some(Header(length, offset))
      ensures status == Ok ==> log == old(log) + Loads(old(if rxBatch then rxNextLength else 0), length)
      ensures status == NoMore ==> !net.rxPending && !fifo.failed
      ensures status in {IoError, DataError} ==> fifo.failed && log != [] && log[|log| - 1] == Failed
      ensures status != IoError ==> (status == NoMore <==> Le32(rx[..], 0) == 0)
      ensures status == Ok ==> HeaderFits(rx[..], old(if rxBatch then rxNextLength else 0))
      ensures status == DataError ==> !HeaderFits(rx[..], old(if rxBatch then rxNextLength else 0))
    {
      hide Deliveries, StateOf, NeverReplays, Dead, Credits.CreditInv, Placed, SuperframeOk, Begin, Le16, Le32, Tiles,
        SdpcmHeader, HeaderFits;
      var hint := if rxBatch then rxNextLength else 0;
      status, offset, length := FetchHeader(hint);
      if status == Ok && hint == 0 && length > 64 {
        RestFits(length);
        ghost var p := rx[..];
        var ok := Read(64, Align4(length - 64));
        if !ok {
          Abandon();
          return IoError, 0, 0;
        }
        HeaderPrefix(rx[..], p, hint);
      }
    }

    /** One ordinary transaction: a frame, or the descriptor of the next superframe. */
    method ReadFrame() returns (status: NtStatus, channel: byte, offset: nat, length: nat)
      requires Valid() && StateOf(log).value.Open? && !fifo.failed
      modifies this, net`rxPending, net`txMax, net`txFlow, net`granted, fifo, glom, glom.slot, glom.start, glom.end,
        glom.payload, rx
      ensures Valid() && status in {Ok, NoMore, IoError, DataError, NotSupported}
      ensures Deliveries(log) == Deliveries(old(log)) + if status == Ok && channel != 3 then 1 else 0
      ensures status == Ok ==> offset <= length <= WIRE_CAPACITY && !fifo.failed && log != []
      ensures status == Ok && channel != 3 ==> log[|log| - 1] == Frame(channel, rx[offset..length])
      ensures status == Ok && channel == 3 ==>
        DescriptorOk(rx[offset..length]) && log[|log| - 1] == Announce(SlotsOf(rx[offset..length]))
      ensures status == Ok ==>
        net.txFlow == rx[8] && net.txMax == CreditUpdate(net.txSeq, old(net.txMax), rx[9]) && channel == rx[5] % 16
      ensures status != IoError ==> status == Verdict(rx[..], old(if rxBatch then rxNextLength else 0), glomEnabled)
      ensures status == Ok ==>
        SdpcmHeader(rx[..]) == Some(Header(length, offset)) && (channel != 3 ==> rxNextLength == NextLength(rx[..]))
      ensures status == NoMore ==> !net.rxPending
      ensures status in {IoError, DataError, NotSupported} ==> fifo.failed && log != [] && log[|log| - 1] == Failed
    {
      hide Deliveries, StateOf, NeverReplays, Dead, Credits.CreditInv, Placed, SuperframeOk, Begin, CreditUpdate,
        SdpcmHeader, Le32, DescriptorOk, HeaderFits;
      status, offset, length := Fetch();
      channel := 0;
      if status != Ok { return status, 0, 0, 0; }
      net.rxPending := true;
      net.TakeHeader(rx[9], rx[8]);
      channel := rx[5] % 16;
      if channel == 3 {
        status := Describe(offset, length);
        return status, channel, offset, length;
      }
      if rx[5] >= 0x80 {
        Abandon();
        return NotSupported, 0, 0, 0;
      }
      NextLengthIsHint(rx[..]);
      rxNextLength := NextLength(rx[..]);
      Note(Frame(channel, rx[offset..length]));
      return Ok, channel, offset, length;
    }

    /** A descriptor frame: it must be marked as one and describe a superframe that fits. */
    method Describe(offset: nat, length: nat) returns (status: NtStatus)
      requires Valid() && StateOf(log).value.Open? && !fifo.failed && offset <= length <= WIRE_CAPACITY
      modifies this, net`rxPending, fifo, glom, glom.slot, glom.start, glom.end, glom.payload
      ensures Valid() && Deliveries(log) == Deliveries(old(log)) && status in {Ok, DataError, NotSupported}
      ensures status == Ok ==>
        !fifo.failed && DescriptorOk(rx[offset..length]) && log == old(log) + [Announce(SlotsOf(rx[offset..length]))]
      ensures status != Ok ==> fifo.failed && log == old(log) + [Failed]
      ensures status == Ok <==> glomEnabled && rx[5] >= 0x80 && DescriptorOk(rx[offset..length])
      ensures status == NotSupported <==> !glomEnabled
    {
      hide Deliveries, StateOf, NeverReplays, Dead, Credits.CreditInv, Placed, SuperframeOk, Begin;
      if !glomEnabled {
        Abandon();
        return NotSupported;
      }
      var ok := rx[5] >= 0x80;
      if ok { ok := glom.Descriptor(rx[offset..length]); }
      if !ok {
        Abandon();
        return DataError;
      }
      Note(Announce(glom.Slots()));
      return Ok;
    }

    /** A call that finds a superframe announced or held. */
    method PollGroup() returns (status: NtStatus, channel: byte, offset: nat, length: nat)
      requires Valid() && glom.count > 0 && !fifo.failed
      modifies this, net`rxPending, net`txMax, net`txFlow, net`granted, fifo, glom, glom.slot, glom.start, glom.end,
        glom.payload, rx
      ensures Valid() && status in {Ok, IoError, DataError}
      ensures Deliveries(log) == Deliveries(old(log)) + if status == Ok then 1 else 0
      ensures status == Ok ==> offset <= length <= WIRE_CAPACITY && !fifo.failed && channel in {1, 2}
      ensures status == Ok ==> log != [] && Delivered(log[|log| - 1], channel, rx[offset..length])
      ensures StateOf(old(log)).value.Held? ==>
        status == Ok && fifo.log == old(fifo.log) && net.txMax == old(net.txMax) && net.txFlow == old(net.txFlow)
        && log == old(log) + [Child(old(glom.index), channel, rx[offset..length])]
      ensures status != Ok ==> fifo.failed && log != [] && log[|log| - 1] == Failed
    {
      hide Deliveries, StateOf, NeverReplays, Dead, Credits.CreditInv, Placed, SuperframeOk, Begin, CreditUpdate,
        Geometry;
      if glom.pending {
        status := LoadGroup();
        if status != Ok { return status, 0, 0, 0; }
      }
      channel, offset, length := DeliverChild();
      return Ok, channel, offset, length;
    }

    /** Whether a frame is indicated: by a fresh service pass, or within a batch by the one already made. */
    method Indicated() returns (status: NtStatus)
      requires Valid()
      modifies this`rxBatchServiced, net`tick, net`rxPending, net`globalFlow, net`halted, net`txFlow, net`lastInterrupt,
        net`lastMailbox, net`ops
      ensures Valid() && status in {Ok, NoMore, NtStatus.Cancelled, NotReady, IoError}
      ensures status == Ok ==> net.rxPending
      ensures status == NoMore ==> !net.rxPending
      ensures status == NotReady ==> net.halted
      ensures status == NtStatus.Cancelled ==> net.stops(old(net.tick)) && net.tick > old(net.tick)
      ensures old(rxBatch && rxBatchServiced && net.rxPending) ==> status == Ok
    {
      hide Deliveries, StateOf, NeverReplays, Dead, Placed, SuperframeOk, Begin, Geometry;
      if !rxBatch || !rxBatchServiced || !net.rxPending {
        ghost var pass, probed;
        status, pass, probed := net.Service(true);
        if status != Ok { return; }
        rxBatchServiced := true;
      }
      return if net.rxPending then Ok else NoMore;
    }

    /** A call that finds no superframe: the service indication, then one transaction. */
    method PollOpen() returns (status: NtStatus, channel: byte, offset: nat, length: nat)
      requires Valid() && glom.count == 0 && !fifo.failed
      modifies this, net`tick, net`rxPending, net`globalFlow, net`halted, net`txFlow, net`lastInterrupt,
        net`lastMailbox, net`ops, net`txMax, net`granted, fifo, glom, glom.slot, glom.start, glom.end, glom.payload, rx
      ensures Valid() && status in {Ok, Cancelled, NotReady, NoMore, IoError, DataError, NotSupported}
      ensures !StateOf(old(log)).value.Held?
      ensures Deliveries(log) == Deliveries(old(log)) + if status == Ok && channel != 3 then 1 else 0
      ensures status == Ok ==> offset <= length <= WIRE_CAPACITY && !fifo.failed && log != []
      ensures status == Ok && channel != 3 ==> log[|log| - 1] == Frame(channel, rx[offset..length])
      ensures status == Ok && channel == 3 ==>
        DescriptorOk(rx[offset..length]) && log[|log| - 1] == Announce(SlotsOf(rx[offset..length]))
      ensures status == Cancelled ==> net.stops(old(net.tick)) && net.tick > old(net.tick)
      ensures status == NotReady ==> net.halted
      ensures status == NoMore ==> !net.rxPending
      ensures status in {DataError, NotSupported} ==> fifo.failed && log != [] && log[|log| - 1] == Failed
    {
      hide Deliveries, StateOf, NeverReplays, Dead, Credits.CreditInv, Placed, SuperframeOk, Begin, CreditUpdate,
        Geometry, Verdict, DescriptorOk;
      status := Indicated();
      if status != Ok { return status, 0, 0, 0; }
      status, channel, offset, length := ReadFrame();
    }

    /** CywPoll. Each call delivers at most one frame; while a superframe is held it only hands out the
        next child, touching neither the FIFO nor the credits; after a failure it does nothing. */
    method Poll() returns (status: NtStatus, channel: byte, offset: nat, length: nat)
      requires Valid()
      modifies this, net`tick, net`rxPending, net`globalFlow, net`halted, net`txFlow, net`lastInterrupt,
        net`lastMailbox, net`ops, net`txMax, net`granted, fifo, glom, glom.slot, glom.start, glom.end, glom.payload, rx
      ensures Valid()
      ensures Deliveries(log) == Deliveries(old(log)) + if status == Ok && channel != 3 then 1 else 0
      ensures status == Ok ==> offset <= length <= WIRE_CAPACITY && !fifo.failed && log != []
      ensures status == Ok && channel != 3 ==> Delivered(log[|log| - 1], channel, rx[offset..length])
      ensures status == Ok && channel == 3 ==>
        DescriptorOk(rx[offset..length]) && log[|log| - 1] == Announce(SlotsOf(rx[offset..length]))
      ensures old(fifo.failed) ==> status in {Cancelled, InvalidState} && log == old(log) && fifo.log == old(fifo.log)
      ensures status == InvalidState <==> old(fifo.failed) && !net.stops(old(net.tick))
      ensures net.stops(old(net.tick)) ==> status == Cancelled && log == old(log)
      ensures status == Cancelled ==> exists n :: old(net.tick) <= n < net.tick && net.stops(n)
      ensures status == NotReady ==> net.halted
      ensures status == NoMore ==> !net.rxPending
      ensures StateOf(old(log)).value.Held? ==>
        fifo.log == old(fifo.log) && net.txMax == old(net.txMax) && net.txFlow == old(net.txFlow)
        && (old(fifo.failed) || net.stops(old(net.tick))
            || (status == Ok && log == old(log) + [Child(old(glom.index), channel, rx[offset..length])]))
      ensures status in {DataError, NotSupported} ==> fifo.failed && log != [] && log[|log| - 1] == Failed
      ensures status in {Ok, Cancelled, InvalidState, NotReady, NoMore, IoError, DataError, NotSupported}
    {
      hide Deliveries, StateOf, NeverReplays, Dead, Credits.CreditInv, Placed, SuperframeOk, Begin, CreditUpdate;
      var stop := net.stops(net.tick);
      net.tick := net.tick + 1;
      if stop { return Cancelled, 0, 0, 0; }
      if fifo.failed { return InvalidState, 0, 0, 0; }
      if glom.count > 0 {
        status, channel, offset, length := PollGroup();
        return;
      }
      status, channel, offset, length := PollOpen();
    }

    /** The start of the worker: a superframe left from before is forgotten with its hint, and the FIFO is
        prepared if the firmware has started and nobody asked to stop. */
    method Restart(go: bool, busOk: bool) returns (armed: bool)
      requires Valid()
      modifies this`log, this`rxNextLength, fifo, glom, glom.slot, glom.start, glom.end, glom.payload
      ensures Valid() && Deliveries(log) == Deliveries(old(log)) && log == old(log) + [Restarted(armed)]
      ensures StateOf(log) == Some(if StateOf(old(log)) == Some(Broken) && !armed then Broken else Open)
      ensures glom.count == 0 && rxNextLength == 0
      ensures if armed then go && !fifo.failed && fifo.log == old(fifo.log) + [Armed]
        else fifo.failed == old(fifo.failed) && fifo.log == old(fifo.log)
      ensures !go ==> !armed
    {
      hide Deliveries, StateOf, NeverReplays, Dead, Credits.CreditInv, Placed, SuperframeOk, Begin, CreditUpdate;
      rxNextLength := 0;
      glom.Clear();
      armed := false;
      if go {
        var status := fifo.Prepare(busOk);
        armed := status == Ok;
      }
      Note(Restarted(armed));
    }

    /** Whatever else happens to the port, the poller keeps its state as long as the latch is not lost. */
    twostate lemma OthersKeep()
      requires old(Valid()) && net.Valid() && fifo.Valid() && (old(fifo.failed) ==> fifo.failed)
      requires unchanged(this, glom, glom.slot, glom.start, glom.end, glom.payload, rx)
      ensures Valid()
    {}
  }

  lemma RestFits(length: nat)
    requires 64 < length < 0x1_0000
    ensures Legal(Align4(length - 64)) && 64 + Align4(length - 64) <= WIRE_CAPACITY
  {}

  lemma {:induction false} AnnouncedLegal(slots: seq<nat>, bytes: nat, total: nat)
    requires Geometry(slots, bytes) && total == Begin(slots, |slots|) && bytes == Align512(total)
    ensures Legal(bytes) && bytes >= 24
  {
    BeginMonotone(slots, 1, |slots|);
    assert Begin(slots, 1) == Begin(slots, 0) + slots[0];
    assert Begin(slots, 0) == 0;
  }

  /** The positions stored by the validator are the child's. */
  lemma HoldingChild(slots: seq<nat>, frame: seq<byte>, i: nat, start: nat, end: nat, payload: nat)
    requires i < |slots| && Geometry(slots, |frame|) && SuperframeOk(slots, frame)
    requires Placed(slots, frame, SdpcmHeader(frame).value.offset, i, start, end, payload)
    ensures start + 12 <= payload <= end <= |frame| && frame[start + 5] % 16 == ChildChannel(slots, frame, i)
    ensures frame[start + 5] % 16 in {1, 2}
    ensures frame[payload..end] == ChildData(slots, frame, i)
  {
    ChildrenTile(slots, frame, i, i);
  }

  lemma AbandonAllowed(st: RxState)
    requires st.Open? || st.Awaiting?
    ensures After(st, Failed) == Some(Broken)
  {}
}
