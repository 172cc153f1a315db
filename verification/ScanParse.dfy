/** Decoding one partial scan result: bounds of the record, its information elements, the RSN element. */
module ScanParse {
  import opened Wire
  import opened ScanTable

  const OPEN: nat := 1
  const WPA2: nat := 2
  const UNSUPPORTED: nat := 4
  const HIDDEN: nat := 8
  const MALFORMED: nat := 16
  const PMF_REQUIRED: nat := 32

  // ---------------------------------------------------------------- information elements

  datatype Element = Element(id: byte, body: seq<byte>)

  function Encode(e: Element): seq<byte>
    requires |e.body| < 256
  {
    [e.id, |e.body|] + e.body
  }

  predicate AllShort(es: seq<Element>) { forall i :: 0 <= i < |es| ==> |es[i].body| < 256 }

  function EncodeAll(es: seq<Element>): seq<byte>
    requires AllShort(es)
  {
    if es == [] then [] else Encode(es[0]) + EncodeAll(es[1..])
  }

  /** The element list a byte string spells, if it spells one. */
  function Elements(p: seq<byte>): (r: Option<seq<Element>>)
    ensures r.Some? ==> AllShort(r.value)
    decreases |p|
  {
    if p == [] then Some([])
    else if |p| < 2 || p[1] as nat > |p| - 2 then None
    else
      var n := p[1] as nat;
      var rest := Elements(p[2 + n..]);
      if rest.None? then None else Some([Element(p[0], p[2..2 + n])] + rest.value)
  }

  lemma {:induction false} EncodeAllFirst(e: Element, es: seq<Element>)
    requires |e.body| < 256 && AllShort(es)
    ensures AllShort([e] + es) && EncodeAll([e] + es) == Encode(e) + EncodeAll(es)
  {
    assert ([e] + es)[1..] == es;
  }

  /** Reading is the exact inverse of writing: every list is read back from its bytes... */
  lemma {:induction false} ElementsOfEncoding(es: seq<Element>)
    requires AllShort(es)
    ensures Elements(EncodeAll(es)) == Some(es)
    decreases |es|
  {
    if es != [] {
      var e := es[0];
      var p := EncodeAll(es);
      assert p[1] == |e.body| && p[2..2 + |e.body|] == e.body && p[2 + |e.body|..] == EncodeAll(es[1..]);
      ElementsOfEncoding(es[1..]);
      assert es == [e] + es[1..];
    }
  }

  /** ...and every accepted byte string is the encoding of the list read from it. */
  lemma {:induction false} EncodingOfElements(p: seq<byte>)
    requires Elements(p).Some?
    ensures EncodeAll(Elements(p).value) == p
    decreases |p|
  {
    if p != [] {
      var e, rest := ElementsFirst(p);
      hide Elements, Encode, EncodeAll;
      EncodingOfElements(rest);
      EncodeAllFirst(e, Elements(rest).value);
    }
  }

  lemma {:induction false} ElementsFirst(p: seq<byte>) returns (e: Element, rest: seq<byte>)
    requires p != [] && Elements(p).Some?
    ensures |e.body| < 256 && p == Encode(e) + rest && |rest| < |p|
    ensures Elements(rest).Some? && Elements(p).value == [e] + Elements(rest).value
  {
    var n := p[1] as nat;
    e, rest := Element(p[0], p[2..2 + n]), p[2 + n..];
  }

  // ---------------------------------------------------------------- the RSN element

  predicate Suite(p: seq<byte>, at: nat, kind: byte)
    requires at + 4 <= |p|
  {
    p[at] == 0 && p[at + 1] == 15 && p[at + 2] == 172 && p[at + 3] == kind
  }

  /** Some suite of the list of n suites at `at` is of this kind. */
  predicate HasSuite(p: seq<byte>, at: nat, n: nat, kind: byte)
    requires at + 4 * n <= |p|
  {
    exists i :: 0 <= i < n && Suite(p, at + 4 * i, kind)
  }

  /** A list of suites at `at`: its count is not zero and it fits. */
  predicate ListAt(p: seq<byte>, at: nat) {
    at + 2 <= |p| && Le16(p, at) > 0 && at + 2 + 4 * Le16(p, at) <= |p|
  }

  function ListEnd(p: seq<byte>, at: nat): nat
    requires ListAt(p, at)
  {
    at + 2 + 4 * Le16(p, at)
  }

  /** What may follow the two lists: nothing; capabilities; a PMKID list; one group-management suite. */
  predicate TailOk(p: seq<byte>, at: nat)
    requires at <= |p|
  {
    var left := |p| - at;
    left == 0 || left == 2 ||
    (left >= 4 && var ids := 16 * Le16(p, at + 2); left == 4 + ids || left == 8 + ids)
  }

  predicate RsnOk(p: seq<byte>) {
    && |p| >= 8 && Le16(p, 0) == 1 && ListAt(p, 6) && ListAt(p, ListEnd(p, 6))
    && TailOk(p, ListEnd(p, ListEnd(p, 6)))
  }

  function RsnFlags(p: seq<byte>): nat {
    if !RsnOk(p) then MALFORMED
    else
      var akms := ListEnd(p, 6);
      var tail := ListEnd(p, akms);
      if tail < |p| && Le16(p, tail) / 64 % 2 == 1 then PMF_REQUIRED
      else if Suite(p, 2, 4) && HasSuite(p, 8, Le16(p, 6), 4) && HasSuite(p, akms + 2, Le16(p, akms), 2) then WPA2
      else 0
  }

  /** Walks one list of suites. */
  method FindSuite(p: seq<byte>, at: nat, n: nat, kind: byte) returns (found: bool)
    requires at + 4 * n <= |p|
    ensures found == HasSuite(p, at, n, kind)
  {
    found := false;
    for i := 0 to n
      invariant found <==> exists j :: 0 <= j < i && Suite(p, at + 4 * j, kind)
    {
      if Suite(p, at + 4 * i, kind) { found := true; }
    }
  }

  /** CywScanRsn. */
  method Rsn(p: seq<byte>) returns (flags: nat)
    ensures flags == RsnFlags(p)
  {
    hide HasSuite, Suite, Le16;
    var n := |p|;
    if n < 8 || Le16(p, 0) != 1 { return MALFORMED; }
    var group := Suite(p, 2, 4);
    var count := Le16(p, 6);
    if count == 0 || count > (n - 8) / 4 { return MALFORMED; }
    var pair := FindSuite(p, 8, count, 4);
    var off := 8 + 4 * count;
    assert off == ListEnd(p, 6);
    if n - off < 2 { return MALFORMED; }
    count := Le16(p, off);
    if count == 0 || count > (n - off - 2) / 4 { return MALFORMED; }
    var psk := FindSuite(p, off + 2, count, 2);
    ghost var akms := off;
    off := off + 2 + 4 * count;
    assert off == ListEnd(p, akms);
    ghost var tail := off;
    var caps := 0;
    if off < n {
      if n - off < 2 { return MALFORMED; }
      caps := Le16(p, off);
      off := off + 2;
    }
    if off < n {
      if n - off < 2 { return MALFORMED; }
      count := Le16(p, off);
      off := off + 2;
      if count > (n - off) / 16 { return MALFORMED; }
      off := off + 16 * count;
      if off < n {
        if n - off != 4 { return MALFORMED; }
        off := off + 4;
      }
    }
    if off != n { assert false; }
    if caps / 64 % 2 == 1 { return PMF_REQUIRED; }
    return if group && pair && psk then WPA2 else 0;
  }

  // ---------------------------------------------------------------- the security of a network

  /** The bodies of the RSN elements, in order. */
  function Rsns(es: seq<Element>): seq<seq<byte>> {
    if es == [] then [] else Rsns(es[..|es| - 1]) + if es[|es| - 1].id == 48 then [es[|es| - 1].body] else []
  }

  predicate IsWpa(e: Element) { e.id == 221 && |e.body| >= 4 && e.body[..4] == [0, 80, 242, 1] }

  predicate HasWpa(es: seq<Element>) { exists i :: 0 <= i < |es| && IsWpa(es[i]) }

  function CombineFlags(capability: nat, seen: bool, rsn: nat, wpa: bool): nat {
    var base :=
      if capability % 2 == 0 || capability / 2 % 2 == 1 then UNSUPPORTED
      else if capability / 16 % 2 == 0 && !seen && !wpa then OPEN
      else if capability / 16 % 2 == 1 && seen && rsn == WPA2 then WPA2
      else UNSUPPORTED;
    base + if rsn in {MALFORMED, PMF_REQUIRED} then rsn else 0
  }

  function SecurityFlags(capability: nat, p: seq<byte>): nat {
    var es := Elements(p);
    if es.None? || |Rsns(es.value)| > 1 then UNSUPPORTED + MALFORMED
    else
      var rsns := Rsns(es.value);
      CombineFlags(capability, rsns != [], if rsns != [] then RsnFlags(rsns[0]) else 0, HasWpa(es.value))
  }

  /** WPA2 is reported exactly for a well-formed element list with one well-formed RSN element that names
      the supported suites and does not require protected management frames, in a network that is an
      infrastructure one with privacy. */
  lemma SupportedExactly(capability: nat, p: seq<byte>)
    ensures SecurityFlags(capability, p) == WPA2 <==>
      && Elements(p).Some? && |Rsns(Elements(p).value)| == 1 && RsnFlags(Rsns(Elements(p).value)[0]) == WPA2
      && capability % 2 == 1 && capability / 2 % 2 == 0 && capability / 16 % 2 == 1
  {}

  lemma {:induction false} RsnsGrow(a: seq<Element>, b: seq<Element>)
    ensures |Rsns(a + b)| >= |Rsns(a)|
    decreases |b|
  {
    if b == [] {
      assert a + b == a;
    } else {
      assert (a + b)[..|a + b| - 1] == a + b[..|b| - 1];
      RsnsGrow(a, b[..|b| - 1]);
    }
  }

  /** The list read so far, and what the rest of the bytes adds. */
  predicate ReadSoFar(p: seq<byte>, off: nat, done: seq<Element>)
    requires off <= |p|
  {
    var rest := Elements(p[off..]);
    Elements(p) == if rest.None? then None else Some(done + rest.value)
  }

  lemma {:induction false} ReadOne(p: seq<byte>, off: nat, done: seq<Element>)
    requires off < |p| && ReadSoFar(p, off, done)
    ensures |p| - off < 2 || p[off + 1] as nat > |p| - off - 2 ==> Elements(p).None?
    ensures |p| - off >= 2 && p[off + 1] as nat <= |p| - off - 2 ==>
      var n := p[off + 1] as nat; ReadSoFar(p, off + 2 + n, done + [Element(p[off], p[off + 2..off + 2 + n])])
  {
    if |p| - off >= 2 && p[off + 1] as nat <= |p| - off - 2 {
      var n := p[off + 1] as nat;
      var e := Element(p[off], p[off + 2..off + 2 + n]);
      assert p[off..][2 + n..] == p[off + 2 + n..];
      assert p[off..][2..2 + n] == e.body;
      var rest := Elements(p[off + 2 + n..]);
      if rest.Some? { assert done + ([e] + rest.value) == (done + [e]) + rest.value; }
    }
  }

  lemma DuplicateRejected(capability: nat, p: seq<byte>, off: nat, done: seq<Element>)
    requires off <= |p| && ReadSoFar(p, off, done) && |Rsns(done)| > 1
    ensures SecurityFlags(capability, p) == UNSUPPORTED + MALFORMED
  {
    if Elements(p).Some? { RsnsGrow(done, Elements(p[off..]).value); }
  }

  /** CywScanSecurity. */
  method Security(capability: nat, p: seq<byte>) returns (flags: nat)
    ensures flags == SecurityFlags(capability, p)
  {
    hide RsnFlags, Elements, CombineFlags, HasWpa, ReadSoFar;
    var off, rsn, wpa, seen := 0, 0, false, false;
    ghost var done := [];
    NothingRead(p);
    while off < |p|
      invariant off <= |p| && ReadSoFar(p, off, done)
      invariant seen == (Rsns(done) != []) && |Rsns(done)| <= 1 && rsn == (if seen then RsnFlags(Rsns(done)[0]) else 0)
      invariant wpa == HasWpa(done)
    {
      ReadOne(p, off, done);
      if |p| - off < 2 { return UNSUPPORTED + MALFORMED; }
      var id, len: nat := p[off], p[off + 1];
      if len > |p| - off - 2 { return UNSUPPORTED + MALFORMED; }
      var body := p[off + 2..off + 2 + len];
      ghost var next := done + [Element(id, body)];
      assert next[..|done|] == done;
      if id == 48 {
        if seen {
          DuplicateRejected(capability, p, off + 2 + len, next);
          return UNSUPPORTED + MALFORMED;
        }
        seen := true;
        rsn := Rsn(body);
      }
      if id == 221 && len >= 4 && body[0] == 0 && body[1] == 80 && body[2] == 242 && body[3] == 1 {
        wpa := true;
      }
      WpaStep(done, Element(id, body));
      off, done := off + 2 + len, next;
    }
    NothingLeft(p, off, done);
    flags := CombineFlags(capability, seen, rsn, wpa);
  }

  lemma NothingRead(p: seq<byte>)
    ensures ReadSoFar(p, 0, []) && !HasWpa([])
  {
    assert p[0..] == p;
    assert Elements(p).Some? ==> [] + Elements(p).value == Elements(p).value;
  }

  lemma WpaStep(done: seq<Element>, e: Element)
    ensures HasWpa(done + [e]) <==> HasWpa(done) || IsWpa(e)
  {
    var next := done + [e];
    assert next[|done|] == e;
    if i :| 0 <= i < |done| && IsWpa(done[i]) { assert IsWpa(next[i]); }
  }

  lemma {:induction false} NothingLeft(p: seq<byte>, off: nat, done: seq<Element>)
    requires off == |p| && ReadSoFar(p, off, done)
    ensures Elements(p) == Some(done)
  {
    assert p[off..] == [];
    assert done + [] == done;
  }

  // ---------------------------------------------------------------- one partial record

  datatype Parsed = Accepted(entry: Entry) | Stale | Bad

  predicate ChannelOk(c: nat) { 1 <= c <= 14 || 32 <= c <= 196 }

  /** What is promised of every record that enters the table. */
  predicate Presentable(e: Entry) {
    && |e.bssid| == 6 && e.bssid[0] % 2 == 0 && (exists i :: 0 <= i < 6 && e.bssid[i] != 0)
    && |e.ssid| <= 32 && ChannelOk(e.channel) && -0x8000 <= e.rssi < 0x8000
    && (e.security / HIDDEN % 2 == 1 <==> e.ssid == [])
  }

  function Signed16(v: nat): int { if v >= 0x8000 then v - 0x1_0000 else v }

  /** The fixed part of a version-109 record of `length` bytes at the start of b, and its element area. */
  predicate FrameOk(b: seq<byte>, length: nat) {
    && 128 <= length <= |b| && Le32(b, 0) == 109 && Le32(b, 4) == length && b[18] <= 32
    && 128 <= Le16(b, 116) <= length && Le32(b, 120) <= length - Le16(b, 116)
  }

  function EntryOf(b: seq<byte>): Entry
    requires |b| >= 128 && b[18] <= 32 && Le16(b, 116) + Le32(b, 120) <= |b|
  {
    var ies := b[Le16(b, 116)..Le16(b, 116) + Le32(b, 120)];
    var n: nat := b[18];
    Entry(b[8..14], b[19..19 + n], Le16(b, 72), Signed16(Le16(b, 78)),
          SecurityFlags(Le16(b, 16), ies) + (if n == 0 then HIDDEN else 0), b[88])
  }

  function Parse(p: seq<byte>, sync: nat): Parsed {
    if |p| < 12 then Bad
    else if Le16(p, 8) != sync % 0x1_0000 then Stale
    else
      var total := Le32(p, 0);
      if total < 140 || total > |p| || Le16(p, 10) != 1 || !FrameOk(p[12..total], total - 12) then Bad
      else
        var b := p[12..total];
        if b[8] % 2 == 1 || b[8..14] == [0, 0, 0, 0, 0, 0] || !ChannelOk(b[88]) then Bad
        else Accepted(EntryOf(b))
  }

  lemma FlagsWithoutHidden(capability: nat, p: seq<byte>)
    ensures SecurityFlags(capability, p) in {1, 2, 4, 20, 36}
  {}

  lemma ZeroAddress(a: seq<byte>)
    requires |a| == 6
    ensures a == [0, 0, 0, 0, 0, 0] <==> forall i :: 0 <= i < 6 ==> a[i] == 0
  {}

  /** No partial or ill-formed record is ever published, and a record of another scan never is. */
  lemma OnlyPresentable(p: seq<byte>, sync: nat)
    requires Parse(p, sync).Accepted?
    ensures Presentable(Parse(p, sync).entry) && |p| >= 140 && Le16(p, 8) == sync % 0x1_0000
  {
    hide SecurityFlags, Le32;
    var b := p[12..Le32(p, 0)];
    FlagsWithoutHidden(Le16(b, 16), b[Le16(b, 116)..Le16(b, 116) + Le32(b, 120)]);
    assert b[8..14][0] == b[8];
    ZeroAddress(b[8..14]);
  }

  /** CywScanParsePartial. */
  method ParsePartial(p: seq<byte>, sync: nat) returns (r: Parsed)
    ensures r == Parse(p, sync)
    ensures r.Accepted? ==> Presentable(r.entry)
  {
    hide Le16, Le32, SecurityFlags, Presentable;
    if |p| < 12 { return Bad; }
    if Le16(p, 8) != sync % 0x1_0000 { return Stale; }
    var total := Le32(p, 0);
    if total < 140 || total > |p| || Le16(p, 10) != 1 { return Bad; }
    var b := p[12..total];
    var length := Le32(b, 4);
    if Le32(b, 0) != 109 || length != total - 12 || b[18] > 32 { return Bad; }
    var ieoff, ielen := Le16(b, 116), Le32(b, 120);
    if ieoff < 128 || ieoff > length || ielen > length - ieoff { return Bad; }
    if b[8] % 2 == 1 { return Bad; }
    var allzero := true;
    for i := 8 to 14
      invariant allzero <==> forall j :: 8 <= j < i ==> b[j] == 0
    {
      if b[i] != 0 { allzero := false; }
    }
    ZeroAddress(b[8..14]);
    assert forall j :: 8 <= j < 14 ==> b[j] == b[8..14][j - 8];
    if allzero { return Bad; }
    var channel: nat := b[88];
    if channel == 0 || channel > 196 || (channel > 14 && channel < 32) { return Bad; }
    var security := Security(Le16(b, 16), b[ieoff..ieoff + ielen]);
    var n: nat := b[18];
    if n == 0 { security := security + HIDDEN; }
    r := Accepted(Entry(b[8..14], b[19..19 + n], Le16(b, 72), Signed16(Le16(b, 78)), security, channel));
    OnlyPresentable(p, sync);
  }
}
