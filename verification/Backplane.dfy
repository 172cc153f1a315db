/** The chip's backplane behind a 32 KiB window: three window registers on the card, and a cached copy of
    what they hold that lets most accesses skip setting them. */
module Backplane {
  import opened Wire
  import opened Fifo

  const SPACE: nat := 0x1_0000_0000
  const WINDOW: nat := 0x8000
  const CHUNK: nat := 64
  const REGISTERS: nat := 0x1800_0000
  const REGISTERS_LAST: nat := 0x181f_fffc

  function Splice(mem: seq<byte>, at: nat, data: seq<byte>): (r: seq<byte>)
    requires at + |data| <= |mem|
    ensures |r| == |mem|
  {
    mem[..at] + data + mem[at + |data|..]
  }

  /** The window a register setting selects: its low seven bits are not decoded. */
  function Selected(low: byte, mid: byte, high: byte): nat {
    var l: nat, m: nat, h: nat := low, mid, high;
    h * 0x100_0000 + m * 0x1_0000 + l / 128 * WINDOW
  }

  function WindowOf(address: nat): (w: nat)
    ensures w % WINDOW == 0 && w <= address < w + WINDOW
  {
    address / WINDOW * WINDOW
  }

  lemma DivMod(x: nat, d: nat, q: nat, r: nat)
    requires d > 0 && x == q * d + r && r < d
    ensures x / d == q && x % d == r
  {
    var e := x / d - q;
    assert x == x / d * d + x % d;
    assert e * d == r - x % d by { assert (x / d - q) * d == x / d * d - q * d; }
  }

  /** Writing a window address byte by byte selects that window. */
  lemma SelectedBytes(w: nat)
    requires w < SPACE && w % WINDOW == 0
    ensures w / 0x100 % 256 < 256 && w / 0x1_0000 % 256 < 256 && w / 0x100_0000 < 256
    ensures Selected(w / 0x100 % 256, w / 0x1_0000 % 256, w / 0x100_0000 % 256) == w
  {
    var n := w / WINDOW;
    var h, r := n / 512, n % 512;
    var m, b := r / 2, r % 2;
    assert w == 0x100_0000 * h + 0x1_0000 * m + WINDOW * b;
    DivMod(w, 0x100, 0x1_0000 * h + 0x100 * m + 128 * b, 0);
    DivMod(w, 0x1_0000, 0x100 * h + m, WINDOW * b);
    DivMod(w, 0x100_0000, h, 0x1_0000 * m + WINDOW * b);
    DivMod(0x1_0000 * h + 0x100 * m + 128 * b, 256, 0x100 * h + m, 128 * b);
    DivMod(0x100 * h + m, 256, h, m);
  }

  /** The application core: its control and reset registers. */
  datatype Cpu = Cpu(ioctl: nat, inReset: bool)

  predicate Halted(ioctl: nat) { ioctl / 0x20 % 2 == 1 }

  predicate Runs(c: Cpu) { !c.inReset && !Halted(c.ioctl) }

  /** The application core and the radio core. */
  datatype Cores = Cores(app: Cpu, radio: Cpu)

  function Written(c: Cpu, wrapper: nat, address: nat, value: nat): Cpu {
    if address == wrapper + 0x408 then c.(ioctl := value)
    else if address == wrapper + 0x800 then c.(inReset := value % 2 == 1)
    else c
  }

  datatype Access = Access(write: bool, address: nat, length: nat)

  class Card {
    const wrapper: nat                 // base of the application core's wrapper registers
    const radioWrapper: nat            // base of the radio core's
    var low: byte
    var mid: byte
    var high: byte
    var mem: seq<byte>
    var cores: Cores
    ghost var accesses: seq<Access>    // every function-1 data access, by the address it reached
    ghost var boots: seq<seq<byte>>    // chip memory at each moment the core started to run

    predicate Valid()
      reads this
    {
      |mem| == SPACE
    }

    /** The two cores have wrapper pages of their own. */
    predicate Apart() { wrapper % 0x1000 == 0 && radioWrapper % 0x1000 == 0 && wrapper != radioWrapper }

    function Base(): (w: nat)
      reads this
      ensures w + WINDOW <= SPACE
    {
      Selected(low, mid, high)
    }

    method SetWindow(index: nat, value: byte)
      requires index < 3
      modifies this`low, this`mid, this`high
      ensures low == (if index == 0 then value else old(low)) && mid == (if index == 1 then value else old(mid))
      ensures high == if index == 2 then value else old(high)
    {
      if index == 0 { low := value; } else if index == 1 { mid := value; } else { high := value; }
    }

    /** Memory bytes arriving at `offset` of the window; what runs past its end wraps to its start. */
    method Store(offset: nat, data: seq<byte>)
      requires Valid() && offset < WINDOW && |data| <= WINDOW
      modifies this`mem
      ensures Valid()
      ensures offset + |data| <= WINDOW ==> mem == Splice(old(mem), Base() + offset, data)
    {
      var k := if offset + |data| <= WINDOW then |data| else WINDOW - offset;
      mem := Splice(mem, Base() + offset, data[..k]);
      ghost var once := mem;
      mem := Splice(mem, Base(), data[k..]);
      if k == |data| {
        assert data[..k] == data && data[k..] == [];
        assert mem == once;
      }
    }

    /** A register write, which may start the core. */
    method Poke(address: nat, value: nat)
      modifies this`cores, this`boots
      ensures Poked(old(cores), old(boots), mem, wrapper, radioWrapper, address, value, cores, boots)
    {
      ghost var was := cores;
      cores := Cores(Written(cores.app, wrapper, address, value), Written(cores.radio, radioWrapper, address, value));
      if !Runs(was.app) && Runs(cores.app) { boots := boots + [mem]; }
    }
  }

  /** The effect of one register write, including the start of the core if it causes one. */
  predicate Poked(before: Cores, boots: seq<seq<byte>>, mem: seq<byte>, wrapper: nat, radioWrapper: nat,
                  address: nat, value: nat,
                  after: Cores, boots': seq<seq<byte>>) {
    && after.app == Written(before.app, wrapper, address, value)
    && after.radio == Written(before.radio, radioWrapper, address, value)
    && boots' == if !Runs(before.app) && Runs(after.app) then boots + [mem] else boots
  }

  /** Every access lies in one window, within the range asked for, and is at most 64 bytes long. */
  predicate Chunked(accesses: seq<Access>, from: nat, address: nat, length: nat)
    requires from <= |accesses|
  {
    forall i :: from <= i < |accesses| ==>
      && 0 < accesses[i].length <= CHUNK && accesses[i].address % WINDOW + accesses[i].length <= WINDOW
      && address <= accesses[i].address && accesses[i].address + accesses[i].length <= address + length
  }

  class Bus {
    const card: Card
    const ok: nat -> bool              // whether the n-th command reports success
    const took: nat -> bool            // whether a failed command took effect anyway
    const honest: nat -> bool          // whether a successful memory write stored its data
    const noise: (nat, nat) -> byte
    const steady: nat -> bool          // the verified bus mode in which the cache may be used
    const stopped: nat -> bool
    var tick: nat
    var windowValid: bool
    var window: nat

    /** The cache never disagrees with the card. */
    ghost predicate Valid()
      reads this, card
    {
      card.Valid() && (windowValid ==> window == card.Base())
    }

    constructor (card: Card, ok: nat -> bool, took: nat -> bool, honest: nat -> bool, noise: (nat, nat) -> byte,
                 steady: nat -> bool, stopped: nat -> bool)
      requires card.Valid()
      ensures Valid() && this.card == card && this.honest == honest
    {
      this.card, this.ok, this.took, this.honest, this.noise, this.steady, this.stopped :=
        card, ok, took, honest, noise, steady, stopped;
      tick, windowValid, window := 0, false, 0;
    }

    function Noise(at: nat, n: nat): (r: seq<byte>)
      ensures |r| == n
    {
      seq(n, i requires 0 <= i < n => noise(at, i))
    }

    /** Some command since tick `from` failed, or some look at the stop flags found one set. */
    ghost predicate Excused(from: nat)
      reads this`tick
    {
      exists n :: from <= n < tick && (!ok(n) || stopped(n))
    }

    /** The card may come out of an enable, an abort or a bus reset with any window. */
    method Disturb()
      requires Valid()
      modifies this`tick, this`windowValid, card`low, card`mid, card`high
      ensures Valid() && !windowValid && tick == old(tick) + 1
    {
      windowValid := false;
      card.low, card.mid, card.high := noise(tick, 0), noise(tick, 1), noise(tick, 2);
      tick := tick + 1;
    }

    /** SdioCmd52Write, for the addresses that matter here: the window registers of function 1, and the
        enable and abort registers of function 0. */
    method Cmd52Write(fn: nat, address: nat, value: byte) returns (done: bool)
      requires Valid()
      modifies this`tick, this`windowValid, card`low, card`mid, card`high
      ensures Valid() && done == ok(old(tick)) && tick > old(tick)
      ensures fn == 1 && 0x1000a <= address <= 0x1000c ==> !windowValid
      ensures fn == 1 && 0x1000a <= address <= 0x1000c && done ==>
        var i := address - 0x1000a;
        card.low == (if i == 0 then value else old(card.low)) && card.mid == (if i == 1 then value else old(card.mid))
        && card.high == if i == 2 then value else old(card.high)
      ensures fn == 0 && address in {2, 6} ==> !windowValid
      ensures !(fn == 1 && 0x1000a <= address <= 0x1000c) && !(fn == 0 && address in {2, 6}) ==>
        windowValid == old(windowValid) && card.Base() == old(card.Base())
    {
      done := ok(tick);
      if fn == 1 && 0x1000a <= address <= 0x1000c {
        windowValid := false;
        if done { card.SetWindow(address - 0x1000a, value); }
        else if took(tick) { card.SetWindow(address - 0x1000a, noise(tick, 0)); }
      } else if fn == 0 && address in {2, 6} {
        Disturb();
      }
      tick := tick + 1;
    }

    /** One CMD53 write through the window. A failed one may have stored anything in its range, or nothing,
        and resets the host, which drops the cache. */
    method Cmd53Write(offset: nat, data: seq<byte>) returns (done: bool)
      requires Valid() && WINDOW <= offset < 2 * WINDOW && 0 < |data| <= 512
      modifies this`tick, this`windowValid, card`mem, card`cores, card`accesses, card`boots
      ensures Valid() && (if done then windowValid == old(windowValid) else !windowValid) && done == ok(old(tick))
      ensures tick == old(tick) + 1
      ensures card.accesses == old(card.accesses) + [Access(true, card.Base() + offset - WINDOW, |data|)]
      ensures card.Base() + offset - WINDOW < REGISTERS && offset + |data| <= 2 * WINDOW ==>
        && card.cores == old(card.cores) && card.boots == old(card.boots)
        && Rewritten(old(card.mem), card.mem, card.Base() + offset - WINDOW, data, done && honest(old(tick)))
      ensures card.Base() + offset - WINDOW >= REGISTERS ==>
        && card.mem == old(card.mem)
        && ((!done && card.cores == old(card.cores) && card.boots == old(card.boots)) ||
            (|data| == 4 ==> Poked(old(card.cores), old(card.boots), card.mem, card.wrapper, card.radioWrapper,
                                   card.Base() + offset - WINDOW, Le32(data, 0), card.cores, card.boots)))
    {
      done := ok(tick);
      var reached := card.Base() + offset - WINDOW;
      card.accesses := card.accesses + [Access(true, reached, |data|)];
      if reached >= REGISTERS {
        if (done || took(tick)) && |data| == 4 { card.Poke(reached, Le32(data, 0)); }
      } else if done || took(tick) {
        var n := tick;
        var stored := if done && honest(n) then data else Noise(n, |data|);
        card.Store(offset - WINDOW, stored);
      } else {
        UntouchedIsRewritten(card.mem, reached, data);
      }
      if !done { windowValid := false; }
      tick := tick + 1;
    }

    /** One CMD53 read: the bytes the card holds, or the value of a register. */
    method Cmd53Read(offset: nat, n: nat) returns (done: bool, data: seq<byte>)
      requires Valid() && WINDOW <= offset < 2 * WINDOW && 0 < n <= 512
      modifies this`tick, this`windowValid, card`accesses
      ensures Valid() && (if done then windowValid == old(windowValid) else !windowValid) && |data| == n
      ensures done == ok(old(tick)) && tick == old(tick) + 1
      ensures card.accesses == old(card.accesses) + [Access(false, card.Base() + offset - WINDOW, n)]
      ensures done && card.Base() + offset - WINDOW < REGISTERS && offset + n <= 2 * WINDOW ==>
        data == card.mem[card.Base() + offset - WINDOW..card.Base() + offset - WINDOW + n]
      ensures done && n == 4 && card.Base() + offset - WINDOW == card.wrapper + 0x408 >= REGISTERS ==>
        Le32(data, 0) == card.cores.app.ioctl % SPACE
      ensures done && n == 4 && card.Base() + offset - WINDOW == card.wrapper + 0x800 >= REGISTERS ==>
        (data[0] % 2 == 1 <==> card.cores.app.inReset)
      ensures (done && n == 4 && card.Apart()
          && card.Base() + offset - WINDOW == card.radioWrapper + 0x800 >= REGISTERS) ==>
        (data[0] % 2 == 1 <==> card.cores.radio.inReset)
    {
      done := ok(tick);
      var reached := card.Base() + offset - WINDOW;
      card.accesses := card.accesses + [Access(false, reached, n)];
      var now := tick;
      if !done {
        windowValid := false;
        data := seq(n, i => 0);
      } else if reached >= REGISTERS {
        data := Noise(now, n);
        if n == 4 && reached == card.wrapper + 0x408 {
          data := Bytes32(card.cores.app.ioctl % SPACE);
          Bytes32RoundTrip([], card.cores.app.ioctl % SPACE, []);
          assert [] + data + [] == data;
        } else if n == 4 && reached == card.wrapper + 0x800 {
          data := [if card.cores.app.inReset then 1 else 0, 0, 0, 0];
        } else if n == 4 && reached == card.radioWrapper + 0x800 {
          data := [if card.cores.radio.inReset then 1 else 0, 0, 0, 0];
        }
      } else if offset + n <= 2 * WINDOW {
        data := card.mem[reached..reached + n];
      } else {
        data := Noise(now, n);
      }
      tick := tick + 1;
    }

    /** CywWindow: three register writes, or none when the cache already holds the window. */
    method SelectWindow(address: nat) returns (status: NtStatus)
      requires Valid() && address < SPACE
      modifies this`tick, this`windowValid, this`window, card`low, card`mid, card`high
      ensures Valid() && status in {Ok, NtStatus.Cancelled, IoError} && tick >= old(tick)
      ensures status != Ok ==> Excused(old(tick))
      ensures status == Ok ==> card.Base() == WindowOf(address)
    {
      var w := WindowOf(address);
      var cache, stop := steady(tick), stopped(tick);
      tick := tick + 1;
      if stop { return NtStatus.Cancelled; }
      if cache && windowValid && window == w { return Ok; }
      windowValid := false;
      SelectedBytes(w);
      for i := 0 to 3
        invariant Valid() && !windowValid && tick >= old(tick)
        invariant i > 0 ==> card.low == w / 0x100 % 256
        invariant i > 1 ==> card.mid == w / 0x1_0000 % 256
        invariant i > 2 ==> card.high == w / 0x100_0000 % 256
      {
        var value: byte :=
          if i == 0 then w / 0x100 % 256 else if i == 1 then w / 0x1_0000 % 256 else w / 0x100_0000 % 256;
        var done := Cmd52Write(1, 0x1000a + i, value);
        if !done { return IoError; }
      }
      if cache { window, windowValid := w, true; }
      return Ok;
    }

    predicate RegisterAddress(address: nat) { address % 4 == 0 && REGISTERS <= address <= REGISTERS_LAST }

    /** CywBpRead: the register read is the one asked for. */
    method BpRead(address: nat) returns (status: NtStatus, value: nat)
      requires Valid()
      modifies this`tick, this`windowValid, this`window, card`low, card`mid, card`high, card`accesses
      ensures Valid() && (status == InvalidParameter <==> !RegisterAddress(address))
      ensures status == Ok ==> card.accesses == old(card.accesses) + [Access(false, address, 4)]
      ensures tick >= old(tick) && (RegisterAddress(address) && status != Ok ==> Excused(old(tick)))
      ensures old(card.accesses) <= card.accesses
      ensures status == Ok && address == card.wrapper + 0x408 ==> value == card.cores.app.ioctl % SPACE
      ensures status == Ok && address == card.wrapper + 0x800 ==> (value % 2 == 1 <==> card.cores.app.inReset)
      ensures status == Ok && card.Apart() && address == card.radioWrapper + 0x800 ==>
        (value % 2 == 1 <==> card.cores.radio.inReset)
    {
      hide Selected, Bytes32;
      value := 0;
      if !RegisterAddress(address) { return InvalidParameter, 0; }
      status := SelectWindow(address);
      if status != Ok {
        windowValid := false;
        return status, 0;
      }
      var done, data := Cmd53Read(address % WINDOW + WINDOW, 4);
      if !done {
        windowValid := false;
        return IoError, 0;
      }
      value := Le32(data, 0);
      LowBit(data);
    }

    /** CywBpWrite: likewise; a failed write has either had its effect or none. */
    method BpWrite(address: nat, value: nat) returns (status: NtStatus)
      requires Valid() && value < SPACE
      modifies this`tick, this`windowValid, this`window, card`low, card`mid, card`high, card`accesses, card`cores,
        card`boots, card`mem
      ensures Valid() && (status == InvalidParameter <==> !RegisterAddress(address))
      ensures old(card.accesses) <= card.accesses
      ensures card.mem == old(card.mem) && tick >= old(tick)
      ensures RegisterAddress(address) && status != Ok ==> Excused(old(tick))
      ensures status == Ok ==> card.accesses == old(card.accesses) + [Access(true, address, 4)]
      ensures (status != Ok && card.cores == old(card.cores) && card.boots == old(card.boots)) ||
              Poked(old(card.cores), old(card.boots), card.mem, card.wrapper, card.radioWrapper,
                    address, value, card.cores, card.boots)
    {
      hide Selected, Bytes32, Rewritten, Splice;
      if !RegisterAddress(address) { return InvalidParameter; }
      status := SelectWindow(address);
      if status != Ok {
        windowValid := false;
        return status;
      }
      var data := Bytes32(value);
      Bytes32RoundTrip([], value, []);
      assert [] + data + [] == data;
      FourBytes(value);
      var done := Cmd53Write(address % WINDOW + WINDOW, data);
      if !done {
        windowValid := false;
        return IoError;
      }
    }

    ghost predicate Honest() { forall n: nat :: honest(n) }

    /** The size of the next piece: up to the end of the window, 64 bytes, or what is left. */
    function Piece(address: nat, left: nat): (n: nat)
      requires left > 0
      ensures 0 < n <= left && n <= CHUNK && address % WINDOW + n <= WINDOW
    {
      var room := WINDOW - address % WINDOW;
      var n := if room > CHUNK then CHUNK else room;
      if n > left then left else n
    }

    predicate RamRange(address: nat, length: nat, base: nat, size: nat) {
      length > 0
      && ((address == 0 && length == 4) || (base <= address <= base + size && length <= size - (address - base)))
    }

    /** The window of the next piece, selected once per 32 KiB boundary. */
    method SelectFor(address: nat, selected: Option<nat>) returns (status: NtStatus, now: Option<nat>)
      requires Valid() && address < SPACE && (selected.Some? ==> card.Base() == selected.value)
      modifies this`tick, this`windowValid, this`window, card`low, card`mid, card`high
      ensures Valid() && (now.Some? ==> card.Base() == now.value)
      ensures status == Ok ==> card.Base() + address % WINDOW == address
      ensures status != InvalidParameter && tick >= old(tick) && (status != Ok ==> Excused(old(tick)))
    {
      hide Selected;
      status, now := Ok, selected;
      if selected != Some(WindowOf(address)) {
        status := SelectWindow(address);
        now := if status == Ok then Some(WindowOf(address)) else None;
      }
    }

    /** CywRam, writing. No piece is longer than 64 bytes or leaves its window, and together they change
        exactly the range asked for: to the data, if every successful write stored what it was given. */
    method RamWrite(address: nat, data: seq<byte>, base: nat, size: nat) returns (status: NtStatus)
      requires Valid() && base + size <= REGISTERS
      modifies this`tick, this`windowValid, this`window, card
      ensures Valid() && card.cores == old(card.cores) && card.boots == old(card.boots)
      ensures old(card.accesses) <= card.accesses
      ensures status == InvalidParameter <==> !RamRange(address, |data|, base, size)
      ensures tick >= old(tick) && (status !in {Ok, InvalidParameter} ==> Excused(old(tick)))
      ensures status != InvalidParameter ==>
        address + |data| <= REGISTERS && Chunked(card.accesses, |old(card.accesses)|, address, |data|)
      ensures status == Ok ==> Rewritten(old(card.mem), card.mem, address, data, Honest())
      ensures status == InvalidParameter ==> card.mem == old(card.mem)
    {
      hide Selected, Splice, Rewritten, Le32, Chunked;
      NothingChunked(card.accesses, address, |data|);
      if !RamRange(address, |data|, base, size) { return InvalidParameter; }
      var done, selected: Option<nat> := 0, None;
      NothingRewritten(card.mem, address, Honest());
      assert data[..0] == [];
      while done < |data|
        invariant Valid() && done <= |data| && tick >= old(tick) && card.cores == old(card.cores)
        invariant card.boots == old(card.boots)
        invariant selected.Some? ==> card.Base() == selected.value
        invariant old(card.accesses) <= card.accesses && Chunked(card.accesses, |old(card.accesses)|, address, |data|)
        invariant Rewritten(old(card.mem), card.mem, address, data[..done], Honest())
      {
        var stop := stopped(tick);
        tick := tick + 1;
        if stop { return NtStatus.Cancelled; }
        var here := address + done;
        var n := Piece(here, |data| - done);
        status, selected := SelectFor(here, selected);
        if status != Ok { return; }
        ghost var mem, h, log := card.mem, honest(tick), card.accesses;
        var fine := Cmd53Write(here % WINDOW + WINDOW, data[done..done + n]);
        ChunkedMore(log, |old(card.accesses)|, address, |data|, Access(true, here, n));
        if !fine { return IoError; }
        RewrittenLess(mem, card.mem, here, data[done..done + n], h, Honest());
        RewrittenTwice(old(card.mem), mem, card.mem, address, data[..done], data[done..done + n], Honest());
        assert data[..done] + data[done..done + n] == data[..done + n];
        done := done + n;
      }
      assert data[..done] == data;
      return Ok;
    }

    static method Copy(buffer: array<byte>, at: nat, data: seq<byte>)
      requires at + |data| <= buffer.Length
      modifies buffer
      ensures buffer[..at + |data|] == old(buffer[..at]) + data
    {
      ghost var before := buffer[..at];
      forall i | 0 <= i < |data| { buffer[at + i] := data[i]; }
      forall i | 0 <= i < at + |data| ensures buffer[i] == (before + data)[i] {
        if i >= at { assert buffer[at + (i - at)] == data[i - at]; }
      }
    }

    /** One piece of a read: the window if need be, the transfer, the copy into the caller's buffer. */
    method ReadPiece(here: nat, n: nat, selected: Option<nat>, buffer: array<byte>, done: nat)
      returns (status: NtStatus, now: Option<nat>)
      requires Valid() && 0 < n <= CHUNK && here % WINDOW + n <= WINDOW && here + n <= REGISTERS
      requires done + n <= buffer.Length
      requires selected.Some? ==> card.Base() == selected.value
      modifies this`tick, this`windowValid, this`window, card`low, card`mid, card`high, card`accesses, buffer
      ensures Valid() && (now.Some? ==> card.Base() == now.value) && status != InvalidParameter
      ensures tick >= old(tick) && (status != Ok ==> Excused(old(tick)))
      ensures card.accesses == old(card.accesses) || card.accesses == old(card.accesses) + [Access(false, here, n)]
      ensures status == Ok ==> buffer[..done + n] == old(buffer[..done]) + card.mem[here..here + n]
    {
      hide Selected, Le32;
      now := selected;
      var stop := stopped(tick);
      tick := tick + 1;
      if stop { return NtStatus.Cancelled, now; }
      status, now := SelectFor(here, selected);
      if status != Ok { return; }
      var fine, data := Cmd53Read(here % WINDOW + WINDOW, n);
      if !fine { return IoError, now; }
      Copy(buffer, done, data);
    }

    /** CywRam, reading: the bytes are the card's. */
    method RamRead(address: nat, buffer: array<byte>, length: nat, base: nat, size: nat) returns (status: NtStatus)
      requires Valid() && base + size <= REGISTERS && length <= buffer.Length
      modifies this`tick, this`windowValid, this`window, card`low, card`mid, card`high, card`accesses, buffer
      ensures Valid() && old(card.accesses) <= card.accesses
      ensures status == InvalidParameter <==> !RamRange(address, length, base, size)
      ensures tick >= old(tick) && (status !in {Ok, InvalidParameter} ==> Excused(old(tick)))
      ensures status != InvalidParameter ==>
        address + length <= REGISTERS && Chunked(card.accesses, |old(card.accesses)|, address, length)
      ensures status == Ok ==> buffer[..length] == card.mem[address..address + length]
    {
      hide Selected, Splice, Rewritten, Le32, Chunked;
      NothingChunked(card.accesses, address, length);
      if !RamRange(address, length, base, size) { return InvalidParameter; }
      var done, selected: Option<nat> := 0, None;
      while done < length
        invariant Valid() && done <= length && tick >= old(tick)
        invariant selected.Some? ==> card.Base() == selected.value
        invariant old(card.accesses) <= card.accesses && Chunked(card.accesses, |old(card.accesses)|, address, length)
        invariant buffer[..done] == card.mem[address..address + done]
      {
        var here := address + done;
        var n := Piece(here, length - done);
        ghost var log := card.accesses;
        status, selected := ReadPiece(here, n, selected, buffer, done);
        ChunkedMore(log, |old(card.accesses)|, address, length, Access(false, here, n));
        if status != Ok { return; }
        SliceSplit(card.mem, address, done, n);
        done := done + n;
      }
      return Ok;
    }
  }

  lemma NothingRewritten(mem: seq<byte>, at: nat, honest: bool)
    requires at <= |mem|
    ensures Rewritten(mem, mem, at, [], honest)
  {
    assert Splice(mem, at, []) == mem;
  }

  lemma RewrittenLess(mem: seq<byte>, mem': seq<byte>, at: nat, data: seq<byte>, honest: bool, less: bool)
    requires at + |data| <= |mem| && Rewritten(mem, mem', at, data, honest) && (less ==> honest)
    ensures Rewritten(mem, mem', at, data, less)
  {}

  lemma NothingChunked(accesses: seq<Access>, address: nat, length: nat)
    ensures Chunked(accesses, |accesses|, address, length)
  {}

  lemma ChunkedMore(accesses: seq<Access>, from: nat, address: nat, length: nat, a: Access)
    requires from <= |accesses| && Chunked(accesses, from, address, length)
    requires 0 < a.length <= CHUNK && a.address % WINDOW + a.length <= WINDOW
    requires address <= a.address && a.address + a.length <= address + length
    ensures Chunked(accesses + [a], from, address, length)
  {}

  lemma SliceSplit(mem: seq<byte>, at: nat, n: nat, k: nat)
    requires at + n + k <= |mem|
    ensures mem[at..at + n + k] == mem[at..at + n] + mem[at + n..at + n + k]
  {}

  lemma SpliceTwice(mem: seq<byte>, at: nat, a: seq<byte>, b: seq<byte>)
    requires at + |a| + |b| <= |mem|
    ensures Splice(Splice(mem, at, a), at + |a|, b) == Splice(mem, at, a + b)
  {
    var once := Splice(mem, at, a);
    assert once[..at + |a|] == mem[..at] + a;
    assert once[at + |a| + |b|..] == mem[at + |a| + |b|..];
  }

  /** Two adjacent writes are one. */
  lemma RewrittenTwice(m0: seq<byte>, m1: seq<byte>, m2: seq<byte>, at: nat, first: seq<byte>, second: seq<byte>,
                       honest: bool)
    requires at + |first| + |second| <= |m0| == |m1|
    requires Rewritten(m0, m1, at, first, honest) && Rewritten(m1, m2, at + |first|, second, honest)
    ensures Rewritten(m0, m2, at, first + second, honest)
  {
    hide Splice;
    var a: seq<byte> :| |a| == |first| && m1 == Splice(m0, at, a) && (honest ==> a == first);
    var b: seq<byte> :| |b| == |second| && m2 == Splice(m1, at + |first|, b) && (honest ==> b == second);
    SpliceTwice(m0, at, a, b);
    assert |a + b| == |first + second|;
  }

  lemma FourBytes(v: nat)
    requires v < SPACE
    ensures |Bytes32(v)| == 4
  {}

  lemma LowBit(data: seq<byte>)
    requires |data| >= 4
    ensures Le32(data, 0) % 2 == data[0] % 2
  {}

  /** Memory changed at most in one range; if the write was honest, to the data given. */
  ghost predicate Rewritten(mem: seq<byte>, mem': seq<byte>, at: nat, data: seq<byte>, honest: bool)
    requires at + |data| <= |mem|
  {
    exists stored: seq<byte> :: |stored| == |data| && mem' == Splice(mem, at, stored) && (honest ==> stored == data)
  }

  lemma UntouchedIsRewritten(mem: seq<byte>, at: nat, data: seq<byte>)
    ensures at + |data| <= |mem| ==> Rewritten(mem, mem, at, data, false)
  {
    if at + |data| <= |mem| {
      var same := mem[at..at + |data|];
      assert Splice(mem, at, same) == mem;
    }
  }
}
