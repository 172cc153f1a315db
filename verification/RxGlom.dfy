/** Receive superframes: the descriptor that announces them and the validation of the whole superframe
    before its first child is exposed. */
module RxGlom {
  import opened Wire

  const GLOM_MAX: nat := 32
  const FRAME_MAX: nat := 2048

  // ---------------------------------------------------------------- what a descriptor and superframe must be

  function SlotsOf(data: seq<byte>): (r: seq<nat>)
    requires |data| % 2 == 0
    ensures |r| == |data| / 2
    ensures forall i :: 0 <= i < |r| ==> r[i] == Le16(data, 2 * i)
  {
    seq(|data| / 2, i requires 0 <= i < |data| / 2 => Le16(data, 2 * i))
  }

  /** Sum of the first n slots: where slot n begins. */
  function Begin(slots: seq<nat>, n: nat): nat
    requires n <= |slots|
  {
    if n == 0 then 0 else Begin(slots, n - 1) + slots[n - 1]
  }

  predicate SlotOk(n: nat, i: nat) { n >= (if i == 0 then 24 else 12) && n % 4 == 0 }

  predicate DescriptorOk(data: seq<byte>) {
    && 0 < |data| <= 2 * GLOM_MAX && |data| % 2 == 0
    && (forall i :: 0 <= i < |data| / 2 ==> SlotOk(SlotsOf(data)[i], i))
    && Begin(SlotsOf(data), |data| / 2) <= WIRE_CAPACITY
  }

  /** The buffer room of child i: its slot, without the outer header for the first, and with the block
      padding for the last. */
  function Lead(i: nat, outer: nat): nat { if i == 0 then outer else 0 }

  function SlotEnd(slots: seq<nat>, bytes: nat, i: nat): nat
    requires i < |slots|
  {
    if i == |slots| - 1 then bytes else Begin(slots, i + 1)
  }

  /** One child in its room: a complete data or event frame, no longer than a receive buffer. */
  function CheckChild(room: seq<byte>): (r: Option<Header>)
    ensures r.Some? ==> r == SdpcmHeader(room) && r.value.length <= |room| && r.value.length <= FRAME_MAX
  {
    var h := SdpcmHeader(room);
    if h.None? || h.value.length > |room| || h.value.length > FRAME_MAX || room[5] >= 0x80 ||
       (room[5] % 16 != 1 && room[5] % 16 != 2)
    then None else h
  }

  predicate ChildOk(slots: seq<nat>, data: seq<byte>, outer: nat, i: nat)
    requires i < |slots|
  {
    var from, to := Begin(slots, i) + Lead(i, outer), SlotEnd(slots, |data|, i);
    from <= to <= |data| && CheckChild(data[from..to]).Some?
  }

  predicate OuterOk(slots: seq<nat>, data: seq<byte>)
    requires slots != []
  {
    var h := SdpcmHeader(data);
    h.Some? && data[5] >= 0x80 && data[5] % 16 == 3 && Align512(h.value.length) == |data|
    && h.value.offset + 12 <= slots[0]
  }

  predicate SuperframeOk(slots: seq<nat>, data: seq<byte>)
    requires slots != []
  {
    OuterOk(slots, data) && forall i :: 0 <= i < |slots| ==> ChildOk(slots, data, SdpcmHeader(data).value.offset, i)
  }

  function ChildStart(slots: seq<nat>, data: seq<byte>, i: nat): nat
    requires i < |slots| && SuperframeOk(slots, data)
  {
    Begin(slots, i) + Lead(i, SdpcmHeader(data).value.offset)
  }

  function HeaderAt(slots: seq<nat>, data: seq<byte>, outer: nat, i: nat): Header
    requires i < |slots| && ChildOk(slots, data, outer, i)
  {
    CheckChild(data[Begin(slots, i) + Lead(i, outer)..SlotEnd(slots, |data|, i)]).value
  }

  /** Child j passed and its three positions are these. */
  predicate Placed(slots: seq<nat>, data: seq<byte>, outer: nat, j: nat, start: nat, end: nat, payload: nat)
    requires j < |slots|
  {
    && ChildOk(slots, data, outer, j)
    && start == Begin(slots, j) + Lead(j, outer)
    && end == start + HeaderAt(slots, data, outer, j).length
    && payload == start + HeaderAt(slots, data, outer, j).offset
  }

  function ChildHeader(slots: seq<nat>, data: seq<byte>, i: nat): Header
    requires i < |slots| && SuperframeOk(slots, data)
  {
    HeaderAt(slots, data, SdpcmHeader(data).value.offset, i)
  }

  function NextLength(header: seq<byte>): nat
    requires |header| >= 12
  {
    var units: nat := header[6];
    var n := units * 16;
    if 64 <= n <= FRAME_MAX then n else 0
  }

  /** A read-ahead size the FIFO accepts, or none. */
  predicate HintOk(n: nat) { n == 0 || (64 <= n <= FRAME_MAX && n % 16 == 0) }

  lemma NextLengthIsHint(header: seq<byte>)
    requires |header| >= 12
    ensures HintOk(NextLength(header))
  {}

  predicate ReadAheadValid(header: seq<byte>, hint: nat, length: nat)
    requires |header| >= 12
  {
    64 <= hint <= FRAME_MAX && hint % 16 == 0 && length >= 12 && Align16(length) == hint && header[5] % 16 != 0
  }

  // ---------------------------------------------------------------- what acceptance gives

  /** The slot geometry an accepted descriptor fixes, before any superframe byte is read. */
  predicate Geometry(slots: seq<nat>, bytes: nat) {
    && 0 < |slots| <= GLOM_MAX
    && slots[0] >= 24 && (forall i :: 0 <= i < |slots| ==> slots[i] >= 12)
    && Begin(slots, |slots|) <= bytes <= WIRE_CAPACITY
  }

  /** The capacity is a whole number of blocks, so rounding an accepted total cannot exceed it. */
  lemma RoundingStaysInside(total: nat)
    requires total <= WIRE_CAPACITY
    ensures Align512(total) <= WIRE_CAPACITY
  {
    assert WIRE_CAPACITY == 128 * 512;
    assert (total + 511) / 512 <= 128;
  }

  lemma {:induction false} BeginMonotone(slots: seq<nat>, i: nat, j: nat)
    requires i <= j <= |slots|
    ensures Begin(slots, i) <= Begin(slots, j)
  {
    if i < j { BeginMonotone(slots, i, j - 1); }
  }

  /** The validator's two position checks restate the geometry, so they cannot reject: every slot (the
      last one stretched over the padding) fits what is left, and the slots end at the buffer's end. */
  lemma {:induction false} PositionChecksNeverFire(slots: seq<nat>, bytes: nat, i: nat)
    requires Geometry(slots, bytes) && i < |slots|
    ensures var slot := slots[i] + if i == |slots| - 1 then bytes - Begin(slots, |slots|) else 0;
      slot <= bytes - Begin(slots, i) && Begin(slots, i) + slot == SlotEnd(slots, bytes, i)
  {
    BeginMonotone(slots, i + 1, |slots|);
    assert Begin(slots, i + 1) == Begin(slots, i) + slots[i];
  }

  /** Accepted children tile the buffer: each lies inside it with a complete header before its payload,
      none reaches into the next, and the outer header lies before them all. */
  lemma {:induction false} ChildrenTile(slots: seq<nat>, data: seq<byte>, i: nat, j: nat)
    requires Geometry(slots, |data|) && SuperframeOk(slots, data) && i < |slots| && j < |slots|
    ensures var s, h := ChildStart(slots, data, i), ChildHeader(slots, data, i);
      12 <= s && s + 12 <= s + h.offset <= s + h.length <= |data| && h.length <= FRAME_MAX
    ensures i < j ==> ChildStart(slots, data, i) + ChildHeader(slots, data, i).length <= ChildStart(slots, data, j)
  {
    assert ChildOk(slots, data, SdpcmHeader(data).value.offset, i);
    BeginMonotone(slots, 0, i);
    if i > 0 {
      BeginMonotone(slots, 1, i);
      assert Begin(slots, 1) == Begin(slots, 0) + slots[0];
    }
    if i < j { BeginMonotone(slots, i + 1, j); }
  }

  /** Every accepted descriptor fixes such a geometry, at its block-rounded size. */
  lemma {:induction false} DescriptorGeometry(data: seq<byte>)
    requires DescriptorOk(data)
    ensures var slots := SlotsOf(data); Geometry(slots, Align512(Begin(slots, |slots|)))
  {
    var slots := SlotsOf(data);
    RoundingStaysInside(Begin(slots, |slots|));
    assert SlotOk(slots[0], 0) && forall i :: 0 <= i < |slots| ==> SlotOk(slots[i], i);
  }

  // ---------------------------------------------------------------- the parser's state

  class Glom {
    var count: nat
    var index: nat
    var bytes: nat
    var descriptorBytes: nat
    var nextLength: nat
    var pending: bool
    const slot: array<nat>
    const start: array<nat>
    const end: array<nat>
    const payload: array<nat>

    ghost predicate Shape()
      reads this
    {
      && HintOk(nextLength)
      && slot.Length == start.Length == end.Length == payload.Length == GLOM_MAX
      && slot != start && slot != end && slot != payload && start != end && start != payload && end != payload
    }

    ghost function Slots(): seq<nat>
      reads this, slot
      requires Shape() && count <= GLOM_MAX
    {
      slot[..count]
    }

    /** A descriptor was accepted and its superframe is still to be read. */
    ghost predicate Announced()
      reads this, slot
    {
      && Shape() && pending && index == 0 && count <= GLOM_MAX && Geometry(Slots(), bytes)
      && descriptorBytes == Begin(Slots(), count) && bytes == Align512(descriptorBytes)
    }

    ghost predicate Valid()
      reads this, slot
    {
      Shape() && count <= GLOM_MAX && (pending && count > 0 ==> Announced())
    }

    /** A validated superframe is held and `index` children are out. */
    ghost predicate Holding(data: seq<byte>)
      reads this, slot, start, end, payload
    {
      && Shape() && !pending && index < count <= GLOM_MAX && Geometry(Slots(), bytes) && |data| == bytes
      && SuperframeOk(Slots(), data)
      && forall i :: 0 <= i < count ==>
        Placed(Slots(), data, SdpcmHeader(data).value.offset, i, start[i], end[i], payload[i])
    }

    constructor ()
      ensures Valid() && count == 0 && !pending
      ensures fresh(slot) && fresh(start) && fresh(end) && fresh(payload)
    {
      count, index, bytes, descriptorBytes, nextLength, pending := 0, 0, 0, 0, 0, false;
      var a, b, c, d := new nat[GLOM_MAX], new nat[GLOM_MAX], new nat[GLOM_MAX], new nat[GLOM_MAX];
      slot, start, end, payload := a, b, c, d;
    }

    /** Forget everything, as the poller does when it gives up. */
    method Clear()
      requires Shape()
      modifies this, slot, start, end, payload
      ensures Valid() && count == 0 && index == 0 && !pending && nextLength == 0
    {
      count, index, bytes, descriptorBytes, nextLength, pending := 0, 0, 0, 0, 0, false;
      forall i | 0 <= i < GLOM_MAX { slot[i] := 0; }
      forall i | 0 <= i < GLOM_MAX { start[i] := 0; }
      forall i | 0 <= i < GLOM_MAX { end[i] := 0; }
      forall i | 0 <= i < GLOM_MAX { payload[i] := 0; }
    }

    /** CywRxGlomDescriptor. */
    method Descriptor(data: seq<byte>) returns (ok: bool)
      requires Shape()
      ensures Valid()
      modifies this, slot, start, end, payload
      ensures ok <==> DescriptorOk(data)
      ensures ok ==> Announced() && Slots() == SlotsOf(data) && bytes == Align512(descriptorBytes)
      ensures !ok ==> count == 0
    {
      count, index, pending := 0, 0, false;
      if |data| == 0 || |data| % 2 != 0 || |data| > 2 * GLOM_MAX {
        return false;
      }
      hide Le16, Geometry, HintOk, Begin, SlotsOf, Align512;
      var total;
      ok, total := ReadSlots(data);
      if !ok { return; }
      bytes := Align512(total);
      RoundingStaysInside(total);
      if bytes > WIRE_CAPACITY {
        assert false;
      }
      descriptorBytes, count, pending := total, |data| / 2, true;
      assert Slots() == SlotsOf(data);
      DescriptorGeometry(data);
    }

    /** The descriptor's loop: each slot's size, and their sum within the buffer. */
    method ReadSlots(data: seq<byte>) returns (ok: bool, total: nat)
      requires Shape() && 0 < |data| <= 2 * GLOM_MAX && |data| % 2 == 0
      modifies slot
      ensures ok <==> DescriptorOk(data)
      ensures ok ==> slot[..|data| / 2] == SlotsOf(data) && total == Begin(SlotsOf(data), |data| / 2)
    {
      hide Le16, HintOk;
      total := 0;
      ghost var slots := SlotsOf(data);
      for i := 0 to |data| / 2
        invariant |slots| == |data| / 2
        invariant forall j :: 0 <= j < i ==> slot[j] == slots[j]
        invariant forall j :: 0 <= j < i ==> SlotOk(slots[j], j)
        invariant total == Begin(slots, i) <= WIRE_CAPACITY
      {
        var n := Le16(data, 2 * i);
        assert n == slots[i] && Begin(slots, i + 1) == total + n;
        if n < (if i == 0 then 24 else 12) || n % 4 != 0 {
          assert !SlotOk(slots[i], i);
          return false, 0;
        }
        if n > WIRE_CAPACITY - total {
          BeginMonotone(slots, i + 1, |slots|);
          return false, 0;
        }
        slot[i] := n;
        total := total + n;
      }
      ok := true;
    }

    /** CywRxGlomValidate on the bytes the descriptor asked for. */
    method Validate(data: seq<byte>) returns (ok: bool)
      requires Valid()
      modifies this, slot, start, end, payload
      ensures Valid() && count == old(count) && bytes == old(bytes) && Slots() == old(Slots())
      ensures ok <==> old(pending) && count > 0 && |data| == bytes && SuperframeOk(Slots(), data)
      ensures ok ==> Holding(data) && index == 0 && nextLength == NextLength(data)
      ensures !ok ==> pending == old(pending) && index == old(index)
    {
      if !pending || count == 0 || |data| != bytes {
        return false;
      }
      var h := SdpcmHeader(data);
      if h.None? || data[5] < 0x80 || data[5] % 16 != 3 || Align512(h.value.length) != |data|
        || h.value.offset > slot[0] - 12 {
        return false;
      }
      ok := ValidateChildren(data, h.value.offset);
      if ok {
        NextLengthIsHint(data);
        nextLength, index, pending := NextLength(data), 0, false;
      }
    }

    /** The validator's loop over the children. */
    method ValidateChildren(data: seq<byte>, off: nat) returns (ok: bool)
      requires Announced() && |data| == bytes && off + 12 <= slot[0]
      modifies start, end, payload
      ensures ok <==> forall j :: 0 <= j < count ==> ChildOk(Slots(), data, off, j)
      ensures ok ==> forall j :: 0 <= j < count ==> Placed(Slots(), data, off, j, start[j], end[j], payload[j])
    {
      hide Le16, SdpcmHeader, CheckChild;
      ghost var slots := Slots();
      var pos := 0;
      for i := 0 to count
        invariant pos == if i == count then |data| else Begin(slots, i)
        invariant forall j :: 0 <= j < i ==> Placed(slots, data, off, j, start[j], end[j], payload[j])
      {
        var room := slot[i] + if i + 1 == count then bytes - descriptorBytes else 0;
        PositionChecksNeverFire(slots, bytes, i);
        if room > bytes - pos {
          assert false;
        }
        var base, available := pos + Lead(i, off), room - Lead(i, off);
        var c := CheckChild(data[base..base + available]);
        if c.None? {
          assert Slots() == slots && !ChildOk(Slots(), data, off, i);
          return false;
        }
        start[i], end[i], payload[i] := base, base + c.value.length, base + c.value.offset;
        assert Placed(slots, data, off, i, start[i], end[i], payload[i]);
        pos := pos + room;
      }
      if pos != bytes {
        assert false;
      }
      forall j | 0 <= j < count ensures ChildOk(slots, data, off, j) {
        assert Placed(slots, data, off, j, start[j], end[j], payload[j]);
      }
      return true;
    }
  }
}
