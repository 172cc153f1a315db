/** Byte-level wire format of the SDPCM transport: little-endian fields, the frame header, the 8-bit
    credit window. */
module Wire {
  type byte = b: int | 0 <= b < 256

  const WIRE_CAPACITY: nat := 65536
  const CONTROL_CAPACITY: nat := 8192
  const WINDOW_MAX: nat := 0x40
  const BURST_MAX: nat := 4

  datatype Option<+T> = None | Some(value: T)

  function Zeros(n: nat): (r: seq<byte>)
    ensures |r| == n && forall i :: 0 <= i < n ==> r[i] == 0
  {
    seq(n, i => 0)
  }

  function Le16(p: seq<byte>, at: nat): nat
    requires at + 2 <= |p|
  {
    var lo: nat, hi: nat := p[at], p[at + 1];
    lo + 256 * hi
  }

  function Le32(p: seq<byte>, at: nat): nat
    requires at + 4 <= |p|
  {
    Le16(p, at) + 0x1_0000 * Le16(p, at + 2)
  }

  function Bytes16(v: nat): seq<byte>
    requires v < 0x1_0000
  {
    [v % 256, v / 256]
  }

  function Bytes32(v: nat): seq<byte>
    requires v < 0x1_0000_0000
  {
    Bytes16(v % 0x1_0000) + Bytes16(v / 0x1_0000)
  }

  lemma Bytes32RoundTrip(before: seq<byte>, v: nat, after: seq<byte>)
    requires v < 0x1_0000_0000
    ensures Le32(before + Bytes32(v) + after, |before|) == v
  {
    var p := before + Bytes32(v) + after;
    var lo, hi := v % 0x1_0000, v / 0x1_0000;
    var n := |before|;
    assert p[n] == lo % 256 && p[n + 1] == lo / 256 && p[n + 2] == hi % 256 && p[n + 3] == hi / 256;
  }

  /** (n + 3) & ~3, and the same for the other block sizes in use. */
  function Align4(n: nat): (r: nat)
    ensures n <= r < n + 4 && r % 4 == 0 && (n % 4 == 0 ==> r == n)
  {
    (n + 3) / 4 * 4
  }

  function Align8(n: nat): (r: nat)
    ensures n <= r < n + 8 && r % 8 == 0 && (n % 8 == 0 ==> r == n)
  {
    (n + 7) / 8 * 8
  }

  function Align16(n: nat): (r: nat)
    ensures n <= r < n + 16 && r % 16 == 0 && (n % 16 == 0 ==> r == n)
  {
    (n + 15) / 16 * 16
  }

  function Align512(n: nat): (r: nat)
    ensures n <= r < n + 512 && r % 512 == 0 && (n % 512 == 0 ==> r == n)
  {
    (n + 511) / 512 * 512
  }

  datatype Header = Header(length: nat, offset: nat)

  /** CywSdpcmHeader: the length, its complement, the payload offset and the channel must agree. */
  function SdpcmHeader(p: seq<byte>): (r: Option<Header>)
    ensures r.Some? ==> |p| >= 12 && 12 <= r.value.offset <= r.value.length < 0x1_0000
  {
    if |p| < 12 then None
    else
      var n := Le16(p, 0);
      if n < 12 || Le16(p, 2) != 0xffff - n || p[7] < 12 || p[7] > n || p[5] % 16 > 3 then None
      else Some(Header(n, p[7]))
  }

  function Channel(p: seq<byte>): byte
    requires |p| >= 12
  {
    p[5] % 16
  }

  /** Remaining credits as the 8-bit difference the code computes. */
  function Window(seqNo: byte, maxNo: byte): byte { (maxNo - seqNo) % 256 }

  /** CywTxCredit with no flow argument. */
  predicate Credit(seqNo: byte, maxNo: byte) { 0 < Window(seqNo, maxNo) <= WINDOW_MAX }

  /** The credit update of every accepted header: an implausible window is ignored. */
  function CreditUpdate(seqNo: byte, maxNo: byte, announced: byte): byte {
    if Window(seqNo, announced) <= WINDOW_MAX then announced else maxNo
  }
}
