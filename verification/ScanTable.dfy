/** The bounded scan result table: updated in place record by record, and what it amounts to. */
module ScanTable {
  import opened Wire

  const MAX_ENTRIES: nat := 64

  /** One network as reported. The SSID is its first SsidLength bytes. */
  datatype Entry = Entry(bssid: seq<byte>, ssid: seq<byte>, chanspec: nat, rssi: int, security: nat, channel: nat)

  datatype Key = Key(bssid: seq<byte>, ssid: seq<byte>)

  const BLANK := Entry([], [], 0, 0, 0, 0)

  function KeyOf(e: Entry): Key { Key(e.bssid, e.ssid) }

  // ---------------------------------------------------------------- what the table must be

  /** The distinct networks among the records, in the order they were first seen. */
  function Networks(records: seq<Entry>): seq<Key> {
    if records == [] then []
    else
      var before := Networks(records[..|records| - 1]);
      var k := KeyOf(records[|records| - 1]);
      if k in before then before else before + [k]
  }

  /** The last record of a network. */
  function Latest(records: seq<Entry>, k: Key): Option<Entry> {
    if records == [] then None
    else if KeyOf(records[|records| - 1]) == k then Some(records[|records| - 1])
    else Latest(records[..|records| - 1], k)
  }

  function Kept(records: seq<Entry>): nat {
    if |Networks(records)| < MAX_ENTRIES then |Networks(records)| else MAX_ENTRIES
  }

  /** The table after these records: the first 64 networks, each with its latest record. */
  ghost predicate IsTable(table: seq<Entry>, records: seq<Entry>) {
    && |table| == Kept(records)
    && forall i :: 0 <= i < |table| ==> Latest(records, Networks(records)[i]) == Some(table[i])
  }

  lemma {:induction false} LatestKey(records: seq<Entry>, k: Key)
    ensures Latest(records, k).Some? ==> KeyOf(Latest(records, k).value) == k && Latest(records, k).value in records
    ensures Latest(records, k).Some? <==> k in Networks(records)
  {
    if records != [] { LatestKey(records[..|records| - 1], k); }
  }

  lemma {:induction false} NetworksDistinct(records: seq<Entry>)
    ensures forall i, j :: 0 <= i < j < |Networks(records)| ==> Networks(records)[i] != Networks(records)[j]
  {
    if records != [] { NetworksDistinct(records[..|records| - 1]); }
  }

  /** Position of the record's network in the table; its length when the table does not hold it. */
  predicate FoundAt(table: seq<Entry>, e: Entry, i: nat) {
    i <= |table| && (forall j :: 0 <= j < i ==> KeyOf(table[j]) != KeyOf(e))
    && (i < |table| ==> KeyOf(table[i]) == KeyOf(e))
  }

  lemma {:induction false} TableStep(table: seq<Entry>, records: seq<Entry>, e: Entry, i: nat)
    requires IsTable(table, records) && FoundAt(table, e, i)
    ensures i < |table| ==> IsTable(table[i := e], records + [e]) && |Networks(records + [e])| == |Networks(records)|
    ensures i == |table| < MAX_ENTRIES ==>
      IsTable(table + [e], records + [e]) && |Networks(records + [e])| <= MAX_ENTRIES
    ensures i == |table| == MAX_ENTRIES ==> IsTable(table, records + [e]) && |Networks(records + [e])| > MAX_ENTRIES
  {
    var records', k, nets := records + [e], KeyOf(e), Networks(records);
    assert records'[..|records|] == records;
    NetworksDistinct(records);
    forall j | 0 <= j < |table| ensures KeyOf(table[j]) == nets[j] { LatestKey(records, nets[j]); }
    if i < |table| {
      assert nets[i] == k;
    } else if i < MAX_ENTRIES {
      assert k !in nets;
    }
  }

  /** Two tables of the same records are the same, so the description is complete. */
  lemma TableUnique(a: seq<Entry>, b: seq<Entry>, records: seq<Entry>)
    requires IsTable(a, records) && IsTable(b, records)
    ensures a == b
  {
    forall i | 0 <= i < |a| ensures a[i] == b[i] {
      assert Some(a[i]) == Some(b[i]);
    }
  }

  // ---------------------------------------------------------------- the table itself

  class Report {
    const entries: array<Entry>
    var count: nat
    var truncated: bool
    ghost var records: seq<Entry>      // every record offered since the table was cleared

    ghost predicate Valid()
      reads this, entries
    {
      && entries.Length == MAX_ENTRIES && count <= MAX_ENTRIES
      && IsTable(entries[..count], records)
      && truncated == (|Networks(records)| > MAX_ENTRIES)
    }

    constructor ()
      ensures Valid() && records == [] && fresh(entries)
    {
      entries := new Entry[MAX_ENTRIES](_ => BLANK);
      count, truncated, records := 0, false, [];
    }

    method Clear()
      requires entries.Length == MAX_ENTRIES
      modifies this, entries
      ensures Valid() && records == [] && count == 0
    {
      forall i | 0 <= i < MAX_ENTRIES { entries[i] := BLANK; }
      count, truncated, records := 0, false, [];
    }

    /** CywScanAdd: a known network is replaced where it stands, a new one appended while there is room. */
    method Add(e: Entry)
      requires Valid()
      modifies this, entries
      ensures Valid() && records == old(records) + [e]
    {
      ghost var table := entries[..count];
      for i := 0 to count
        invariant forall j :: 0 <= j < i ==> KeyOf(entries[j]) != KeyOf(e)
      {
        if entries[i].bssid == e.bssid && |entries[i].ssid| == |e.ssid| && entries[i].ssid == e.ssid {
          TableStep(table, records, e, i);
          entries[i] := e;
          assert entries[..count] == table[i := e];
          records := records + [e];
          return;
        }
      }
      TableStep(table, records, e, count);
      records := records + [e];
      if count == MAX_ENTRIES {
        truncated := true;
        return;
      }
      entries[count] := e;
      count := count + 1;
      assert entries[..count] == table + [e];
    }
  }
}
