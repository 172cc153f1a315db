/** Firmware start: hold the core, size the RAM, upload, read back, place the NVRAM block, let go. */
module FirmwareUpload {
  import opened Wire
  import opened Fifo
  import opened Backplane
  import Nvram

  const RAM_BASE: nat := 0x19_8000
  const RAM_MAX: nat := 0x40_0000
  const PAGE: nat := 0x1000
  const HELD_RADIO: Cpu := Cpu(7, true)

  // ---------------------------------------------------------------- the layout in chip memory

  function Padded(image: seq<byte>): (r: seq<byte>)
    ensures |r| == Align4(|image|) && r[..|image|] == image
  {
    image + Zeros(Align4(|image|) - |image|)
  }

  /** The size a bank's information word stands for. */
  function BankBytes(info: nat): nat { (info % 0x80 + 1) * (if info / 0x200 % 2 == 1 then 1024 else 8192) }

  /** Low half the word count, high half its complement. */
  function Token(words: nat): (r: seq<byte>)
    requires words < 0x1_0000
    ensures |r| == 4 && Le16(r, 0) == words && Le16(r, 2) == 0xffff - words
  {
    Bytes16(words) + Bytes16(0xffff - words)
  }

  predicate RoomFor(image: seq<byte>, nvram: seq<byte>, size: nat) {
    size <= RAM_MAX && |nvram| + 4 <= size && Align4(|image|) <= size - |nvram| - 4
  }

  /** The whole padded image at the bottom of RAM. */
  predicate ImageIn(mem: seq<byte>, image: seq<byte>) {
    RAM_BASE + Align4(|image|) <= |mem| && mem[RAM_BASE..RAM_BASE + Align4(|image|)] == Padded(image)
  }

  /** The NVRAM block and its token at the top of RAM, and the reset vector at zero. */
  predicate TailIn(mem: seq<byte>, image: seq<byte>, nvram: seq<byte>, size: nat) {
    && 4 <= |image| && |nvram| % 4 == 0 && |nvram| / 4 < 0x1_0000 && |nvram| + 4 <= size && RAM_BASE + size <= |mem|
    && mem[RAM_BASE + size - |nvram| - 4..RAM_BASE + size - 4] == nvram
    && mem[RAM_BASE + size - 4..RAM_BASE + size] == Token(|nvram| / 4)
    && mem[..4] == image[..4]
  }

  /** The register was written, somewhere after the first `from` accesses. */
  ghost predicate Wrote(accesses: seq<Access>, from: nat, address: nat) {
    exists i :: from <= i < |accesses| && accesses[i] == Access(true, address, 4)
  }

  lemma WroteLater(a: seq<Access>, b: seq<Access>, from: nat, address: nat)
    requires a <= b
    ensures Wrote(a, from, address) ==> Wrote(b, from, address)
    ensures a < b && from <= |a| && b[|a|] == Access(true, address, 4) ==> Wrote(b, from, address)
  {
    if Wrote(a, from, address) {
      var i :| from <= i < |a| && a[i] == Access(true, address, 4);
      assert b[i] == a[i];
    }
  }

  lemma WroteFrom(a: seq<Access>, from: nat, earlier: nat, address: nat)
    requires earlier <= from
    ensures Wrote(a, from, address) ==> Wrote(a, earlier, address)
  {}

  lemma RewrittenElsewhere(mem: seq<byte>, mem': seq<byte>, at: nat, data: seq<byte>, honest: bool, x: nat, n: nat)
    requires at + |data| <= |mem| && Rewritten(mem, mem', at, data, honest)
    requires x + n <= |mem| && (x + n <= at || at + |data| <= x)
    ensures |mem'| == |mem| && mem'[x..x + n] == mem[x..x + n]
  {
    var stored: seq<byte> :| |stored| == |data| && mem' == Splice(mem, at, stored);
    forall i | x <= i < x + n ensures mem'[i] == mem[i] {}
  }

  lemma RewrittenThere(mem: seq<byte>, mem': seq<byte>, at: nat, data: seq<byte>)
    requires at + |data| <= |mem| && Rewritten(mem, mem', at, data, true)
    ensures |mem'| == |mem| && mem'[at..at + |data|] == data
  {
    assert mem' == Splice(mem, at, data);
  }

  // ---------------------------------------------------------------- the start sequence

  class Loader {
    const bus: Bus
    const cr4: nat
    const d11Wrapper: nat
    const sdio: nat
    var ramSize: nat

    /** What the core inventory established: distinct, page-aligned register blocks. */
    predicate Inventory()
      reads bus, bus.card
    {
      var w := bus.card.wrapper;
      && w % PAGE == 0 && cr4 % PAGE == 0 && d11Wrapper % PAGE == 0 && sdio % PAGE == 0
      && w != cr4 && w != sdio && REGISTERS <= w && d11Wrapper == bus.card.radioWrapper
    }

    ghost predicate Valid()
      reads this, bus, bus.card
    {
      bus.Valid() && Inventory()
    }

    constructor (bus: Bus, cr4: nat, d11Wrapper: nat, sdio: nat)
      ensures this.bus == bus && this.cr4 == cr4 && this.d11Wrapper == d11Wrapper && this.sdio == sdio
    {
      this.bus, this.cr4, this.d11Wrapper, this.sdio, ramSize := bus, cr4, d11Wrapper, sdio, 0;
    }

    /** The core is not running and nothing has started it. */
    twostate predicate Asleep()
      reads bus.card
    {
      bus.card.mem == old(bus.card.mem) && bus.card.boots == old(bus.card.boots)
      && old(bus.card.accesses) <= bus.card.accesses
    }

    /** A register of some other block: the core does not notice. */
    method WriteElsewhere(address: nat, value: nat) returns (status: NtStatus)
      requires Valid() && value < SPACE && address - bus.card.wrapper !in {0x408, 0x800}
      requires address - d11Wrapper !in {0x408, 0x800}
      modifies bus`tick, bus`windowValid, bus`window, bus.card
      ensures Valid() && Asleep() && bus.card.cores == old(bus.card.cores)
      ensures status == Ok ==> bus.card.accesses == old(bus.card.accesses) + [Access(true, address, 4)]
    {
      status := bus.BpWrite(address, value);
    }

    /** The first half of CywCr4Reset: into reset, with the control bits set on the way. */
    method EnterReset(pre: nat) returns (status: NtStatus)
      requires Valid() && pre in {0, 0x20} && (pre == 0 ==> bus.card.cores.app.inReset || Runs(bus.card.cores.app))
      modifies bus`tick, bus`windowValid, bus`window, bus.card
      ensures Valid() && Asleep() && (status == Ok ==> bus.card.cores.app.inReset)
      ensures bus.card.Apart() ==> bus.card.cores.radio == old(bus.card.cores.radio)
    {
      var w := bus.card.wrapper;
      var v;
      status, v := bus.BpRead(w + 0x800);
      if status != Ok || v % 2 == 1 { return; }
      status := bus.BpWrite(w + 0x408, pre + 3);
      if status != Ok { return; }
      status, v := bus.BpRead(w + 0x408);
      if status != Ok { return; }
      status := bus.BpWrite(w + 0x800, 1);
      if status != Ok { return; }
      status, v := bus.BpRead(w + 0x800);
      if status == Ok && v % 2 == 0 { return NotReady; }
    }

    /** The second half: out of reset, with the control bits that decide whether the core then runs. */
    method LeaveReset(held: nat, post: nat) returns (status: NtStatus)
      requires Valid() && bus.card.cores.app.inReset && held in {0, 0x20} && post == held
      modifies bus`tick, bus`windowValid, bus`window, bus.card
      ensures Valid() && bus.card.mem == old(bus.card.mem) && old(bus.card.accesses) <= bus.card.accesses
      ensures held == 0x20 ==>
        bus.card.boots == old(bus.card.boots) && (status == Ok ==> bus.card.cores.app == Cpu(0x21, false))
      ensures held == 0 ==>
        bus.card.boots == old(bus.card.boots) || bus.card.boots == old(bus.card.boots) + [bus.card.mem]
      ensures held == 0 && status == Ok ==>
        Runs(bus.card.cores.app) && bus.card.boots == old(bus.card.boots) + [bus.card.mem]
      ensures bus.card.Apart() ==> bus.card.cores.radio == old(bus.card.cores.radio)
    {
      var w := bus.card.wrapper;
      status := bus.BpWrite(w + 0x408, held + 3);
      if status != Ok { return; }
      var v;
      status, v := bus.BpRead(w + 0x408);
      if status != Ok { return; }
      status := Unreset(held);
      if status != Ok { return; }
      status := bus.BpWrite(w + 0x408, post + 1);
      if status != Ok { return; }
      status, v := bus.BpRead(w + 0x408);
    }

    /** Up to fifty attempts to clear the reset bit. */
    method Unreset(held: nat) returns (status: NtStatus)
      requires Valid() && held in {0, 0x20} && bus.card.cores.app == Cpu(held + 3, true)
      modifies bus`tick, bus`windowValid, bus`window, bus.card
      ensures Valid() && bus.card.mem == old(bus.card.mem) && old(bus.card.accesses) <= bus.card.accesses
      ensures bus.card.cores.app.ioctl == held + 3
      ensures bus.card.boots ==
        if held == 0 && !bus.card.cores.app.inReset then old(bus.card.boots) + [bus.card.mem]
        else old(bus.card.boots)
      ensures status == Ok ==> !bus.card.cores.app.inReset
      ensures bus.card.Apart() ==> bus.card.cores.radio == old(bus.card.cores.radio)
    {
      var w := bus.card.wrapper;
      var v;
      for i := 0 to 50
        invariant Valid() && bus.card.mem == old(bus.card.mem) && old(bus.card.accesses) <= bus.card.accesses
        invariant bus.card.cores.app.ioctl == held + 3
        invariant bus.card.boots ==
          if held == 0 && !bus.card.cores.app.inReset then old(bus.card.boots) + [bus.card.mem]
          else old(bus.card.boots)
        invariant bus.card.Apart() ==> bus.card.cores.radio == old(bus.card.cores.radio)
      {
        status := bus.BpWrite(w + 0x800, 0);
        if status != Ok { return; }
        status, v := bus.BpRead(w + 0x800);
        if status != Ok || v % 2 == 0 { return; }
      }
      return Timeout;
    }

    /** CywCr4Reset. Held and left halted, the core is not started; released, it starts with the memory as
        it stands. */
    method Cr4Reset(pre: nat, held: nat, post: nat) returns (status: NtStatus)
      requires Valid() && pre in {0, 0x20} && held in {0, 0x20} && post == held
      requires pre == 0 ==> bus.card.cores.app.inReset || Runs(bus.card.cores.app)
      modifies bus`tick, bus`windowValid, bus`window, bus.card
      ensures Valid() && bus.card.mem == old(bus.card.mem) && old(bus.card.accesses) <= bus.card.accesses
      ensures held == 0x20 ==>
        bus.card.boots == old(bus.card.boots) && (status == Ok ==> bus.card.cores.app == Cpu(0x21, false))
      ensures held == 0 ==>
        bus.card.boots == old(bus.card.boots) || bus.card.boots == old(bus.card.boots) + [bus.card.mem]
      ensures held == 0 && status == Ok ==>
        Runs(bus.card.cores.app) && bus.card.boots == old(bus.card.boots) + [bus.card.mem]
      ensures bus.card.Apart() ==> bus.card.cores.radio == old(bus.card.cores.radio)
    {
      status := EnterReset(pre);
      if status != Ok { return; }
      status := LeaveReset(held, post);
    }

    /** A write to the control or reset register of the radio core. */
    method WriteRadio(register: nat, value: nat) returns (status: NtStatus)
      requires Valid() && value < SPACE && register in {0x408, 0x800} && bus.card.Apart()
      modifies bus`tick, bus`windowValid, bus`window, bus.card
      ensures Valid() && Asleep() && bus.card.cores.app == old(bus.card.cores.app)
      ensures var written := Written(old(bus.card.cores.radio), d11Wrapper, d11Wrapper + register, value);
        bus.card.cores.radio == written || (status != Ok && bus.card.cores.radio == old(bus.card.cores.radio))
    {
      status := bus.BpWrite(d11Wrapper + register, value);
    }

    /** The radio core into reset, unless it is there. */
    method D11Reset() returns (status: NtStatus)
      requires Valid() && bus.card.Apart() && REGISTERS <= d11Wrapper
      modifies bus`tick, bus`windowValid, bus`window, bus.card
      ensures Valid() && Asleep() && bus.card.cores.app == old(bus.card.cores.app)
      ensures status == Ok ==> bus.card.cores.radio.inReset
    {
      var w := d11Wrapper;
      var v;
      status, v := bus.BpRead(w + 0x800);
      if status != Ok || v % 2 == 1 { return; }
      status := WriteRadio(0x408, 0xf);
      if status != Ok { return; }
      status, v := bus.BpRead(w + 0x408);
      if status != Ok { return; }
      status := WriteRadio(0x800, 1);
      if status != Ok { return; }
      status, v := bus.BpRead(w + 0x800);
      if status == Ok && v % 2 == 0 { return NotReady; }
    }

    /** CywD11Hold: the radio core is left in reset, clocked and forced, for the firmware to release. */
    method D11Hold() returns (status: NtStatus)
      requires Valid()
      modifies bus`tick, bus`windowValid, bus`window, bus.card
      ensures Valid() && Asleep() && bus.card.cores.app == old(bus.card.cores.app)
      ensures status == Ok ==> bus.card.Apart() && bus.card.cores.radio == HELD_RADIO
    {
      var w := d11Wrapper;
      if w < 0x1810_0000 || w > 0x181f_f000 || w == bus.card.wrapper { return DataError; }
      status := D11Reset();
      if status != Ok { return; }
      var v;
      status := WriteRadio(0x408, 7);
      if status != Ok { return; }
      status, v := bus.BpRead(w + 0x408);
    }

    /** The RAM banks, one by one. */
    method SizeRam() returns (status: NtStatus)
      requires Valid()
      modifies this`ramSize, bus`tick, bus`windowValid, bus`window, bus.card
      ensures Valid() && Asleep() && bus.card.cores == old(bus.card.cores)
    {
      hide BankBytes, Selected;
      var cap, v;
      status, cap := bus.BpRead(cr4 + 4);
      if status != Ok { return; }
      var banks := cap % 16 + cap / 16 % 16;
      if banks == 0 { return DataError; }
      ramSize := 0;
      for i := 0 to banks
        invariant Valid() && Asleep() && bus.card.cores == old(bus.card.cores)
      {
        status := WriteElsewhere(cr4 + 0x40, i);
        if status != Ok { return; }
        status, v := bus.BpRead(cr4 + 0x44);
        if status != Ok { return; }
        if v == 0xffff_ffff { return DataError; }
        ramSize := ramSize + BankBytes(v);
      }
      return Ok;
    }

    /** A change of bus speed or width, or an enable: the window must be chosen afresh afterwards. */
    method Rebus() returns (status: NtStatus)
      requires Valid()
      modifies bus`tick, bus`windowValid, bus.card`low, bus.card`mid, bus.card`high
      ensures Valid()
    {
      status := if bus.ok(bus.tick) then Ok else IoError;
      bus.Disturb();
    }

    /** The upload and its full readback. Whatever the card did with the writes, after success it holds the
        whole padded image. */
    method Upload(image: seq<byte>) returns (status: NtStatus)
      requires Valid() && ramSize <= RAM_MAX && Align4(|image|) <= ramSize
      modifies bus`tick, bus`windowValid, bus`window, bus.card
      ensures Valid() && bus.card.cores == old(bus.card.cores) && bus.card.boots == old(bus.card.boots)
      ensures old(bus.card.accesses) <= bus.card.accesses
      ensures status == Ok ==> ImageIn(bus.card.mem, image)
    {
      hide Rewritten, Selected;
      var padded := Padded(image);
      status := bus.RamWrite(RAM_BASE, padded, RAM_BASE, ramSize);
      if status != Ok { return; }
      var check := new byte[512];
      var off := 0;
      ghost var mem := bus.card.mem;
      while off < |padded|
        invariant Valid() && off <= |padded| && bus.card.mem == mem && bus.card.cores == old(bus.card.cores)
        invariant bus.card.boots == old(bus.card.boots)
        invariant fresh(check) && old(bus.card.accesses) <= bus.card.accesses
        invariant mem[RAM_BASE..RAM_BASE + off] == padded[..off]
      {
        var n := if |padded| - off > 512 then 512 else |padded| - off;
        status := bus.RamRead(RAM_BASE + off, check, n, RAM_BASE, ramSize);
        if status != Ok { return; }
        if check[..n] != padded[off..off + n] { return DataError; }
        SliceSplit(mem, RAM_BASE, off, n);
        assert padded[..off + n] == padded[..off] + padded[off..off + n];
        off := off + n;
      }
      assert padded[..off] == padded;
      status := Ok;
    }

    /** The NVRAM block, its token and the reset vector. They are not read back: they are in place if the
        card stored what it was given. The image stays where it is in any case. */
    method Place(image: seq<byte>, nvram: seq<byte>) returns (status: NtStatus)
      requires Valid() && 4 <= |image| && RoomFor(image, nvram, ramSize) && ImageIn(bus.card.mem, image)
      requires 0 < |nvram| && |nvram| % 4 == 0 && |nvram| / 4 < 0x1_0000
      modifies bus`tick, bus`windowValid, bus`window, bus.card
      ensures Valid() && bus.card.cores == old(bus.card.cores) && bus.card.boots == old(bus.card.boots)
      ensures old(bus.card.accesses) <= bus.card.accesses
      ensures status == Ok ==> ImageIn(bus.card.mem, image)
      ensures status == Ok && bus.Honest() ==> TailIn(bus.card.mem, image, nvram, ramSize)
    {
      hide Rewritten, Selected, Token, Align4;
      var block, top := RAM_BASE + ramSize - |nvram| - 4, RAM_BASE + ramSize - 4;
      ghost var m0 := bus.card.mem;
      status := bus.RamWrite(block, nvram, RAM_BASE, ramSize);
      if status != Ok { return; }
      ghost var m1 := bus.card.mem;
      status := bus.RamWrite(top, Token(|nvram| / 4), RAM_BASE, ramSize);
      if status != Ok { return; }
      ghost var m2 := bus.card.mem;
      status := bus.RamWrite(0, image[..4], RAM_BASE, ramSize);
      if status != Ok { return; }
      Placed(m0, m1, m2, bus.card.mem, image, nvram, ramSize, bus.Honest());
    }

    /** Both cores held and the RAM sized. */
    method Hold() returns (status: NtStatus)
      requires Valid()
      modifies this`ramSize, bus`tick, bus`windowValid, bus`window, bus.card
      ensures Valid() && bus.card.boots == old(bus.card.boots) && old(bus.card.accesses) <= bus.card.accesses
      ensures status == Ok ==> bus.card.Apart() && bus.card.cores == Cores(Cpu(0x21, false), HELD_RADIO)
    {
      hide Selected;
      var v;
      status, v := bus.BpRead(bus.card.wrapper + 0x408);
      if status != Ok { return; }
      HaltBit(bus.card.cores.app, v);
      status := Cr4Reset(v / 0x20 % 2 * 0x20, 0x20, 0x20);
      if status != Ok { return; }
      status := D11Hold();
      if status != Ok { return; }
      status := SizeRam();
    }

    /** The RAM filled and checked, on a held core. */
    method Load(image: seq<byte>, nvram: seq<byte>) returns (status: NtStatus)
      requires Valid() && 4 <= |image| && RoomFor(image, nvram, ramSize) && 0 < |nvram| && |nvram| % 4 == 0
      requires |nvram| / 4 < 0x1_0000
      modifies bus`tick, bus`windowValid, bus`window, bus.card
      ensures Valid() && bus.card.cores == old(bus.card.cores) && bus.card.boots == old(bus.card.boots)
      ensures old(bus.card.accesses) <= bus.card.accesses
      ensures status == Ok ==>
        ImageIn(bus.card.mem, image) && Wrote(bus.card.accesses, |old(bus.card.accesses)|, sdio + 0x20)
      ensures status == Ok && bus.Honest() ==> TailIn(bus.card.mem, image, nvram, ramSize)
    {
      hide ImageIn, TailIn, Selected, Align4, Wrote;
      status := Rebus();
      if status != Ok { return; }
      status := Upload(image);
      if status != Ok { return; }
      status := Rebus();
      if status != Ok { return; }
      status := Place(image, nvram);
      if status != Ok { return; }
      ghost var before := bus.card.accesses;
      status := WriteElsewhere(sdio + 0x20, 0xffff_ffff);
      WroteLater(before, bus.card.accesses, |old(bus.card.accesses)|, sdio + 0x20);
    }

    /** Everything up to the release: the core is held, and RAM is filled and checked. */
    method Fill(image: seq<byte>, nvram: seq<byte>) returns (status: NtStatus)
      requires Valid() && 4 <= |image| && 0 < |nvram| && |nvram| % 4 == 0 && |nvram| / 4 < 0x1_0000
      modifies this`ramSize, bus`tick, bus`windowValid, bus`window, bus.card
      ensures Valid() && bus.card.boots == old(bus.card.boots) && old(bus.card.accesses) <= bus.card.accesses
      ensures status == Ok ==> Wrote(bus.card.accesses, |old(bus.card.accesses)|, sdio + 0x20)
      ensures status == Ok ==> bus.card.Apart() && bus.card.cores == Cores(Cpu(0x21, false), HELD_RADIO)
      ensures status == Ok ==> RoomFor(image, nvram, ramSize) && ImageIn(bus.card.mem, image)
      ensures status == Ok && bus.Honest() ==> TailIn(bus.card.mem, image, nvram, ramSize)
    {
      hide ImageIn, TailIn, Selected, Align4, Wrote;
      status := Hold();
      if status != Ok { return; }
      ghost var held := bus.card.accesses;
      if ramSize > RAM_MAX || |nvram| + 4 > ramSize || Align4(|image|) > ramSize - |nvram| - 4 { return DataError; }
      status := Load(image, nvram);
      WroteFrom(bus.card.accesses, |held|, |old(bus.card.accesses)|, sdio + 0x20);
    }

    /** CywFirmwareStart, as far as the release of the core. The card is not touched unless both files are
        usable; and whenever the core starts to run, chip RAM holds the checked image, and also the NVRAM
        block, token and vector if the card stored what it reported stored. */
    method Start(image: seq<byte>, text: seq<byte>) returns (status: NtStatus, ghost nvram: seq<byte>)
      requires Valid() && |image| <= 0x10_0000 && |text| <= Nvram.FILE_MAX
      modifies this`ramSize, bus`tick, bus`windowValid, bus`window, bus.card
      ensures Valid()
      ensures |image| < 4 || !Nvram.Packable(text, |text| + 8) ==>
        status == DataError && bus.card.accesses == old(bus.card.accesses) && bus.card.boots == old(bus.card.boots)
      ensures |image| >= 4 && Nvram.Packable(text, |text| + 8) ==>
        nvram == Nvram.Packed(Nvram.Kept(Nvram.Lines(text)).value)
      ensures status == Ok ==> bus.card.boots != old(bus.card.boots)
      ensures bus.card.boots == old(bus.card.boots) ||
        (bus.card.boots == old(bus.card.boots) + [bus.card.mem] && RoomFor(image, nvram, ramSize)
         && bus.card.cores.radio == HELD_RADIO && Wrote(bus.card.accesses, |old(bus.card.accesses)|, sdio + 0x20)
         && ImageIn(bus.card.mem, image) && (bus.Honest() ==> TailIn(bus.card.mem, image, nvram, ramSize)))
    {
      hide Wrote, ImageIn, TailIn, Selected, Align4, Nvram.Packable, Nvram.Packed, Nvram.Kept, Nvram.Lines;
      nvram := [];
      if |image| < 4 { return DataError, nvram; }
      var out := new byte[|text| + 8];
      var packed, length := Nvram.Pack(text, out);
      if !packed { return DataError, nvram; }
      nvram := out[..length];
      NvramNonempty(text);
      status := Rebus();
      if status != Ok { return; }
      status := Fill(image, out[..length]);
      if status != Ok { return; }
      ghost var filled := bus.card.accesses;
      status := Cr4Reset(0x20, 0, 0);
      WroteLater(filled, bus.card.accesses, |old(bus.card.accesses)|, sdio + 0x20);
    }
  }

  lemma HaltBit(c: Cpu, v: nat)
    requires v == c.ioctl % SPACE
    ensures v / 0x20 % 2 in {0, 1} && (v / 0x20 % 2 == 0 ==> c.inReset || Runs(c))
  {
    var k := c.ioctl / SPACE;
    assert c.ioctl == v + k * SPACE;
    assert c.ioctl / 0x20 == v / 0x20 + k * 0x800_0000;
  }

  lemma NvramNonempty(text: seq<byte>)
    requires Nvram.Packable(text, |text| + 8)
    ensures |Nvram.Packed(Nvram.Kept(Nvram.Lines(text)).value)| > 0
  {}

  /** The three writes leave the image alone and stay clear of one another. */
  lemma Placed(m0: seq<byte>, m1: seq<byte>, m2: seq<byte>, m3: seq<byte>, image: seq<byte>, nvram: seq<byte>,
               size: nat, honest: bool)
    requires |m0| == |m1| == |m2| == SPACE && 4 <= |image| && RoomFor(image, nvram, size) && ImageIn(m0, image)
    requires |nvram| % 4 == 0 && |nvram| / 4 < 0x1_0000
    requires Rewritten(m0, m1, RAM_BASE + size - |nvram| - 4, nvram, honest)
    requires Rewritten(m1, m2, RAM_BASE + size - 4, Token(|nvram| / 4), honest)
    requires Rewritten(m2, m3, 0, image[..4], honest)
    ensures ImageIn(m3, image) && (honest ==> TailIn(m3, image, nvram, size))
  {
    hide Rewritten, Token;
    var block, top, n := RAM_BASE + size - |nvram| - 4, RAM_BASE + size - 4, Align4(|image|);
    RewrittenElsewhere(m0, m1, block, nvram, honest, RAM_BASE, n);
    RewrittenElsewhere(m1, m2, top, Token(|nvram| / 4), honest, RAM_BASE, n);
    RewrittenElsewhere(m2, m3, 0, image[..4], honest, RAM_BASE, n);
    if honest {
      RewrittenThere(m0, m1, block, nvram);
      RewrittenElsewhere(m1, m2, top, Token(|nvram| / 4), honest, block, |nvram|);
      RewrittenElsewhere(m2, m3, 0, image[..4], honest, block, |nvram|);
      RewrittenThere(m1, m2, top, Token(|nvram| / 4));
      RewrittenElsewhere(m2, m3, 0, image[..4], honest, top, 4);
      RewrittenThere(m2, m3, 0, image[..4]);
    }
  }
}
