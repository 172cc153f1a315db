/** One diagnostics batch: records appended to a bounded buffer by the bus worker, read back, validated
    and written by the diagnostics thread. */
module DiagSnapshot {
  import opened Wire

  const CAPACITY: nat := 131072
  const HEADER: nat := 16
  const NAME_MAX: nat := 65532

  /** A caller's buffer: bytes, or a null pointer with a claimed length. */
  datatype Blob = Null(length: nat) | Bytes(bytes: seq<byte>)

  function Len(b: Blob): nat { if b.Null? then b.length else |b.bytes| }

  datatype Record = Record(name: seq<byte>, kind: nat, data: seq<byte>)

  function NameRoom(length: nat): nat { Align8(length + 2) }

  function Total(nameBytes: nat, dataBytes: nat): nat { HEADER + NameRoom(nameBytes) + Align8(dataBytes) }

  /** What append accepts, apart from room: a nonempty name of whole 16-bit units. */
  predicate Recordable(r: Record) {
    0 < |r.name| < 0x1_0000 && |r.name| % 2 == 0 && r.kind < 0x1_0000_0000 && |r.data| <= CAPACITY
  }

  function Encode(r: Record): (e: seq<byte>)
    requires Recordable(r)
    ensures |e| == Total(|r.name|, |r.data|)
  {
    Bytes32(|r.name|) + Bytes32(r.kind) + Bytes32(|r.data|) + Bytes32(Total(|r.name|, |r.data|))
    + (r.name + Zeros(NameRoom(|r.name|) - |r.name|)) + (r.data + Zeros(Align8(|r.data|) - |r.data|))
  }

  function EncodeAll(records: seq<Record>): seq<byte>
    requires forall i :: 0 <= i < |records| ==> Recordable(records[i])
  {
    if records == [] then [] else Encode(records[0]) + EncodeAll(records[1..])
  }

  /** CywDiagRead at `offset` of the used bytes of a batch that has not failed: the record and its size. */
  function Decode(used: seq<byte>, offset: nat): (d: Option<(Record, nat)>)
    ensures d.Some? ==>
      && HEADER < d.value.1 && offset + d.value.1 <= |used| && 0 < |d.value.0.name| <= NAME_MAX
      && offset + HEADER + NameRoom(|d.value.0.name|) + |d.value.0.data| <= offset + d.value.1
  {
    if |used| > CAPACITY || offset > |used| || |used| - offset < HEADER then None
    else
      var nameBytes, kind, dataBytes, total :=
        Le32(used, offset), Le32(used, offset + 4), Le32(used, offset + 8), Le32(used, offset + 12);
      if nameBytes == 0 || nameBytes % 2 == 1 || nameBytes > NAME_MAX || dataBytes > CAPACITY then None
      else if total != Total(nameBytes, dataBytes) || total > |used| - offset then None
      else
        var name, data := offset + HEADER, offset + HEADER + NameRoom(nameBytes);
        Some((Record(used[name..name + nameBytes], kind, used[data..data + dataBytes]), total))
  }

  /** The whole batch, record after record to its end, or nothing when one record does not read. */
  function ReadAll(used: seq<byte>, offset: nat): Option<seq<Record>>
    requires offset <= |used|
    decreases |used| - offset
  {
    if offset == |used| then Some([])
    else
      var d := Decode(used, offset);
      if d.None? then None
      else
        var rest := ReadAll(used, offset + d.value.1);
        if rest.None? then None else Some([d.value.0] + rest.value)
  }

  // ---------------------------------------------------------------- round trip

  lemma HeaderFields(before: seq<byte>, a: nat, b: nat, c: nat, d: nat, after: seq<byte>)
    requires a < 0x1_0000_0000 && b < 0x1_0000_0000 && c < 0x1_0000_0000 && d < 0x1_0000_0000
    ensures var p, n := before + (Bytes32(a) + Bytes32(b) + Bytes32(c) + Bytes32(d)) + after, |before|;
      |p| == n + 16 + |after| && Le32(p, n) == a && Le32(p, n + 4) == b && Le32(p, n + 8) == c && Le32(p, n + 12) == d
  {
    hide Bytes32, Le32;
    var p := before + (Bytes32(a) + Bytes32(b) + Bytes32(c) + Bytes32(d)) + after;
    Bytes32Length(a); Bytes32Length(b); Bytes32Length(c); Bytes32Length(d);
    Bytes32RoundTrip(before, a, Bytes32(b) + Bytes32(c) + Bytes32(d) + after);
    assert p == before + Bytes32(a) + (Bytes32(b) + Bytes32(c) + Bytes32(d) + after);
    Bytes32RoundTrip(before + Bytes32(a), b, Bytes32(c) + Bytes32(d) + after);
    assert p == (before + Bytes32(a)) + Bytes32(b) + (Bytes32(c) + Bytes32(d) + after);
    Bytes32RoundTrip(before + Bytes32(a) + Bytes32(b), c, Bytes32(d) + after);
    assert p == (before + Bytes32(a) + Bytes32(b)) + Bytes32(c) + (Bytes32(d) + after);
    Bytes32RoundTrip(before + Bytes32(a) + Bytes32(b) + Bytes32(c), d, after);
    assert p == (before + Bytes32(a) + Bytes32(b) + Bytes32(c)) + Bytes32(d) + after;
  }

  lemma Bytes32Length(v: nat)
    requires v < 0x1_0000_0000
    ensures |Bytes32(v)| == 4
  {}

  /** Where the name and the data of an encoded record lie. */
  lemma BodySlices(head: seq<byte>, name: seq<byte>, pad: seq<byte>, data: seq<byte>, after: seq<byte>)
    ensures var p, n := head + ((name + pad) + (data + after)), |head|;
      p[n..n + |name|] == name && p[n + |name| + |pad|..n + |name| + |pad| + |data|] == data
  {}

  /** An appended record reads back as itself, wherever it stands, unless its name is 65534 bytes long:
      the writer accepts every even length that fits 16 bits, the reader stops at 65532. */
  lemma DecodeEncode(before: seq<byte>, r: Record, after: seq<byte>)
    requires Recordable(r) && |before| + |Encode(r)| + |after| <= CAPACITY
    ensures Decode(before + Encode(r) + after, |before|)
         == if |r.name| <= NAME_MAX then Some((r, |Encode(r)|)) else None
  {
    hide Bytes32, Le32, NameRoom, Align8;
    var total := Total(|r.name|, |r.data|);
    var head := Bytes32(|r.name|) + Bytes32(r.kind) + Bytes32(|r.data|) + Bytes32(total);
    var pad, tail := Zeros(NameRoom(|r.name|) - |r.name|), Zeros(Align8(|r.data|) - |r.data|);
    var p := before + Encode(r) + after;
    var rest := (r.name + pad) + (r.data + (tail + after));
    assert p == before + head + rest;
    HeaderFields(before, |r.name|, r.kind, |r.data|, total, rest);
    Bytes32Length(|r.name|); Bytes32Length(r.kind); Bytes32Length(|r.data|); Bytes32Length(total);
    BodySlices(before + head, r.name, pad, r.data, tail + after);
  }

  predicate Readable(records: seq<Record>) { forall i :: 0 <= i < |records| ==> |records[i].name| != 65534 }

  predicate AllRecordable(records: seq<Record>) { forall i :: 0 <= i < |records| ==> Recordable(records[i]) }

  /** Any list of records that was appended is read back exactly, ending at the used length, if and only
      if no name is 65534 bytes long; otherwise the whole batch is refused. */
  lemma {:induction false} ReadsBackExactly(before: seq<byte>, records: seq<Record>)
    requires AllRecordable(records) && |before| + |EncodeAll(records)| <= CAPACITY
    ensures ReadAll(before + EncodeAll(records), |before|) == if Readable(records) then Some(records) else None
    decreases |records|
  {
    hide Encode, Decode, Recordable;
    if records == [] {
      assert before + EncodeAll(records) == before;
    } else {
      var r, rest := records[0], records[1..];
      assert Recordable(r);
      var e := Encode(r);
      var p := before + EncodeAll(records);
      EncodingSize(r);
      DecodeEncode(before, r, EncodeAll(rest));
      assert p == before + e + EncodeAll(rest);
      ReadsBackExactly(before + e, rest);
      assert records == [r] + rest;
      assert Readable(records) <==> |r.name| != 65534 && Readable(rest);
    }
  }

  lemma EncodingSize(r: Record)
    requires Recordable(r)
    ensures |Encode(r)| > HEADER && (|r.name| <= NAME_MAX <==> |r.name| != 65534)
  {}

  lemma {:induction false} EncodeAllAppends(records: seq<Record>, r: Record)
    requires AllRecordable(records) && Recordable(r)
    ensures EncodeAll(records + [r]) == EncodeAll(records) + Encode(r)
  {
    hide Encode, Recordable;
    if records == [] {
      assert [r][1..] == [];
      assert [] + [r] == [r];
    } else {
      EncodeAllAppends(records[1..], r);
      assert (records + [r])[1..] == records[1..] + [r];
    }
  }

  // ---------------------------------------------------------------- the buffer

  class Batch {
    const data: array<byte>
    var used: nat
    var failed: bool
    ghost var records: seq<Record>

    ghost predicate Valid()
      reads this, data
    {
      && data.Length == CAPACITY && used <= CAPACITY
      && AllRecordable(records) && data[..used] == EncodeAll(records)
    }

    constructor ()
      ensures Valid() && records == [] && !failed && fresh(data)
    {
      data := new byte[CAPACITY];
      used, failed, records := 0, false, [];
    }

    method Reset()
      requires data.Length == CAPACITY
      modifies this
      ensures Valid() && records == [] && !failed
    {
      used, failed, records := 0, false, [];
    }

    method Put(at: nat, bytes: seq<byte>)
      requires at + |bytes| <= data.Length
      modifies data
      ensures data[..at + |bytes|] == old(data[..at]) + bytes
    {
      ghost var before := data[..at];
      forall i | 0 <= i < |bytes| { data[at + i] := bytes[i]; }
      forall i | 0 <= i < at + |bytes| ensures data[i] == (before + bytes)[i] {
        if i >= at { assert data[at + (i - at)] == bytes[i - at]; }
      }
    }

    /** Pieces laid end to end. */
    method PutAll(at: nat, pieces: seq<seq<byte>>)
      requires at + |Concat(pieces)| <= data.Length
      modifies data
      ensures data[..at + |Concat(pieces)|] == old(data[..at]) + Concat(pieces)
    {
      ghost var before := data[..at];
      var to := at;
      for i := 0 to |pieces|
        invariant to == at + |Concat(pieces[..i])| <= data.Length
        invariant data[..to] == before + Concat(pieces[..i])
      {
        ConcatStep(pieces, i);
        Put(to, pieces[i]);
        to := to + |pieces[i]|;
      }
      assert pieces[..|pieces|] == pieces;
    }

    predicate Accepts(name: Blob, kind: nat, value: Blob)
      reads this
    {
      && !failed && 0 < Len(name) < 0x1_0000 && Len(name) % 2 == 0 && name.Bytes?
      && Len(value) <= CAPACITY && (Len(value) > 0 ==> value.Bytes?)
      && used <= CAPACITY && Total(Len(name), Len(value)) <= CAPACITY - used
    }

    /** CywDiagAppend: the record whole, or nothing and the batch marked failed for good. */
    method Append(name: Blob, kind: nat, value: Blob)
      requires Valid() && Len(name) < 0x1_0000 && kind < 0x1_0000_0000
      modifies this, data
      ensures Valid() && failed == !old(Accepts(name, kind, value))
      ensures !failed ==> records == old(records) + [Record(name.bytes, kind, if value.Bytes? then value.bytes else [])]
      ensures failed ==> records == old(records) && used == old(used) && data[..] == old(data[..])
    {
      hide Encode, EncodeAll, Align8;
      if failed { return; }
      if Len(name) == 0 || Len(name) % 2 == 1 || name.Null? || Len(value) > CAPACITY
        || (Len(value) > 0 && value.Null?) {
        failed := true;
        return;
      }
      var total := Total(Len(name), Len(value));
      if used > CAPACITY || total > CAPACITY - used {
        failed := true;
        return;
      }
      var r := Record(name.bytes, kind, if value.Bytes? then value.bytes else []);
      PutRecord(r);
      EncodeAllAppends(records, r);
      used, records := used + total, records + [r];
    }

    /** The header, the name and the value with their padding, field by field. */
    method PutRecord(r: Record)
      requires data.Length == CAPACITY && Recordable(r) && used + Total(|r.name|, |r.data|) <= CAPACITY
      modifies data
      ensures data[..used + Total(|r.name|, |r.data|)] == old(data[..used]) + Encode(r)
    {
      hide Bytes32, Recordable, NameRoom, Align8, Encode, Zeros;
      RecordFits(r);
      var names, body := NameRoom(|r.name|), Align8(|r.data|);
      Bytes32Length(|r.name|); Bytes32Length(r.kind); Bytes32Length(|r.data|); Bytes32Length(Total(|r.name|, |r.data|));
      var head := Bytes32(|r.name|) + Bytes32(r.kind) + Bytes32(|r.data|) + Bytes32(Total(|r.name|, |r.data|));
      var namePad, dataPad := Zeros(names - |r.name|), Zeros(body - |r.data|);
      ConcatFive(head, r.name, namePad, r.data, dataPad);
      PutAll(used, [head, r.name, namePad, r.data, dataPad]);
      EncodeIs(r, head, namePad, dataPad);
    }

    /** CywDiagRead. */
    method Read(offset: nat) returns (d: Option<(Record, nat)>)
      requires data.Length == CAPACITY
      ensures d == if failed || used > CAPACITY then None else Decode(data[..used], offset)
    {
      if failed || used > CAPACITY || offset > used || used - offset < HEADER { return None; }
      var p := data[..used];
      var nameBytes, kind, dataBytes, total :=
        Le32(p, offset), Le32(p, offset + 4), Le32(p, offset + 8), Le32(p, offset + 12);
      if nameBytes == 0 || nameBytes % 2 == 1 || nameBytes > NAME_MAX || dataBytes > CAPACITY { return None; }
      if total != Total(nameBytes, dataBytes) || total > used - offset { return None; }
      var name := offset + HEADER;
      var value := name + NameRoom(nameBytes);
      return Some((Record(p[name..name + nameBytes], kind, p[value..value + dataBytes]), total));
    }

    /** The first walk: is every record readable, to the end? */
    method Validate() returns (ok: bool)
      requires data.Length == CAPACITY && used <= CAPACITY && !failed
      ensures ok == ReadAll(data[..used], 0).Some?
    {
      hide Decode;
      ghost var p := data[..used];
      var offset := 0;
      while offset < used
        invariant offset <= used && (ReadAll(p, offset).Some? <==> ReadAll(p, 0).Some?)
      {
        var d := Read(offset);
        if d.None? { return false; }
        offset := offset + d.value.1;
      }
      return true;
    }

    /** The second walk, which stops at the first record that does not read. */
    method Emit() returns (out: seq<Record>)
      requires data.Length == CAPACITY && used <= CAPACITY && !failed && ReadAll(data[..used], 0).Some?
      ensures Some(out) == ReadAll(data[..used], 0)
    {
      hide Decode;
      ghost var p := data[..used];
      out := [];
      var offset, more := 0, true;
      while more
        invariant offset <= used && ReadAll(p, offset).Some? && out + ReadAll(p, offset).value == ReadAll(p, 0).value
        invariant !more ==> offset == used
        decreases used - offset, more
      {
        var d := Read(offset);
        NothingAtTheEnd(p, offset);
        if d.None? {
          more := false;
        } else {
          ghost var rest := ReadAll(p, offset + d.value.1);
          assert (out + [d.value.0]) + rest.value == out + ([d.value.0] + rest.value);
          out, offset := out + [d.value.0], offset + d.value.1;
        }
      }
      assert out + [] == out;
    }

    /** The thread's use of a batch: a first walk validates all of it, a second one writes. Either every
        record that was appended is written, in order, or none is. */
    method WriteOut(keyOpens: bool) returns (out: seq<Record>)
      requires Valid()
      ensures out == if !failed && keyOpens && Readable(records) then records else []
    {
      hide Decode, Encode, EncodeAll, Readable, ReadAll;
      ReadsBackExactly([], records);
      assert [] + EncodeAll(records) == data[..used];
      SomethingEncoded(records);
      out := [];
      if failed || used == 0 { return; }
      var ok := Validate();
      if ok && keyOpens { out := Emit(); }
    }
  }

  function Concat(pieces: seq<seq<byte>>): seq<byte> {
    if pieces == [] then [] else Concat(pieces[..|pieces| - 1]) + pieces[|pieces| - 1]
  }

  lemma {:induction false} ConcatStep(pieces: seq<seq<byte>>, i: nat)
    requires i < |pieces|
    ensures Concat(pieces[..i + 1]) == Concat(pieces[..i]) + pieces[i] && |Concat(pieces[..i + 1])| <= |Concat(pieces)|
    decreases |pieces|
  {
    assert pieces[..i + 1][..i] == pieces[..i];
    if i + 1 < |pieces| {
      ConcatStep(pieces[..|pieces| - 1], i);
      assert pieces[..|pieces| - 1][..i] == pieces[..i] && pieces[..|pieces| - 1][..i + 1] == pieces[..i + 1];
    } else {
      assert pieces[..i + 1] == pieces;
    }
  }

  lemma {:induction false} ConcatMore(pieces: seq<seq<byte>>, last: seq<byte>)
    ensures Concat(pieces + [last]) == Concat(pieces) + last
  {
    assert (pieces + [last])[..|pieces|] == pieces;
  }

  lemma {:induction false} ConcatFive(a: seq<byte>, b: seq<byte>, c: seq<byte>, d: seq<byte>, e: seq<byte>)
    ensures Concat([a, b, c, d, e]) == a + (b + c) + (d + e)
  {
    assert Concat([]) == [];
    hide Concat;
    ConcatMore([], a);
    ConcatMore([a], b);
    ConcatMore([a, b], c);
    ConcatMore([a, b, c], d);
    ConcatMore([a, b, c, d], e);
    assert [] + [a] == [a] && [a] + [b] == [a, b] && [a, b] + [c] == [a, b, c];
    assert [a, b, c] + [d] == [a, b, c, d] && [a, b, c, d] + [e] == [a, b, c, d, e];
    assert a + b + c + d + e == a + (b + c) + (d + e);
  }

  lemma NothingAtTheEnd(used: seq<byte>, offset: nat)
    requires offset <= |used|
    ensures offset == |used| ==> Decode(used, offset).None?
  {}

  lemma EncodeIs(r: Record, head: seq<byte>, namePad: seq<byte>, dataPad: seq<byte>)
    requires Recordable(r) && Total(|r.name|, |r.data|) < 0x1_0000_0000
    requires |r.name| < 0x1_0000_0000 && |r.data| < 0x1_0000_0000 && r.kind < 0x1_0000_0000
    requires head == Bytes32(|r.name|) + Bytes32(r.kind) + Bytes32(|r.data|) + Bytes32(Total(|r.name|, |r.data|))
    requires namePad == Zeros(NameRoom(|r.name|) - |r.name|) && dataPad == Zeros(Align8(|r.data|) - |r.data|)
    ensures Encode(r) == head + (r.name + namePad) + (r.data + dataPad)
  {}

  lemma RecordFits(r: Record)
    requires Recordable(r)
    ensures Total(|r.name|, |r.data|) < 0x1_0000_0000 && NameRoom(|r.name|) >= |r.name| && Align8(|r.data|) >= |r.data|
    ensures |r.name| < 0x1_0000_0000 && |r.data| < 0x1_0000_0000 && r.kind < 0x1_0000_0000
  {}

  lemma {:induction false} SomethingEncoded(records: seq<Record>)
    requires AllRecordable(records)
    ensures records != [] ==> |EncodeAll(records)| > 0
  {
    if records != [] { EncodingSize(records[0]); }
  }
}
