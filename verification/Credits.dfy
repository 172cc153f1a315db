/** The firmware credit window: 8-bit counters that wrap, against the unbounded counts they stand for. */
module Credits {
  import opened Wire

  /** `seqNo` and `maxNo` are the low bytes of the frames sent and the frames granted. */
  ghost predicate CreditInv(sent: nat, granted: nat, seqNo: byte, maxNo: byte) {
    seqNo == sent % 256 && maxNo == granted % 256 && sent <= granted <= sent + WINDOW_MAX
  }

  lemma NeverOverdrawn(sent: nat, granted: nat, seqNo: byte, maxNo: byte)
    requires CreditInv(sent, granted, seqNo, maxNo)
    ensures sent <= granted
  {}

  lemma ModDifference(a: nat, b: nat)
    requires a <= b < a + 256
    ensures (b % 256 - a % 256) % 256 == b - a
  {
    var qa, qb := a / 256, b / 256;
    assert a == 256 * qa + a % 256 && b == 256 * qb + b % 256;
    assert qb == qa || qb == qa + 1;
  }

  /** The byte difference is the true number of unused grants, and the credit test asks for one. */
  lemma WindowExact(sent: nat, granted: nat, seqNo: byte, maxNo: byte)
    requires CreditInv(sent, granted, seqNo, maxNo)
    ensures Window(seqNo, maxNo) == granted - sent
    ensures Credit(seqNo, maxNo) <==> sent < granted
  {
    ModDifference(sent, granted);
  }

  lemma SendKeeps(sent: nat, granted: nat, seqNo: byte, maxNo: byte)
    requires CreditInv(sent, granted, seqNo, maxNo) && Credit(seqNo, maxNo)
    ensures CreditInv(sent + 1, granted, (seqNo + 1) % 256, maxNo)
    ensures Window((seqNo + 1) % 256, maxNo) == Window(seqNo, maxNo) - 1
  {
    WindowExact(sent, granted, seqNo, maxNo);
    WindowExact(sent + 1, granted, (seqNo + 1) % 256, maxNo);
  }

  /** The grant the host works with after reading an announced byte. */
  ghost function Regrant(sent: nat, granted: nat, seqNo: byte, announced: byte): nat {
    if Window(seqNo, announced) <= WINDOW_MAX then sent + Window(seqNo, announced) else granted
  }

  lemma UpdateKeeps(sent: nat, granted: nat, seqNo: byte, maxNo: byte, announced: byte)
    requires CreditInv(sent, granted, seqNo, maxNo)
    ensures CreditInv(sent, Regrant(sent, granted, seqNo, announced), seqNo, CreditUpdate(seqNo, maxNo, announced))
  {
    var w := Window(seqNo, announced);
    assert (sent + w) % 256 == announced by {
      assert sent == 256 * (sent / 256) + seqNo;
      assert announced == (seqNo + w) % 256;
    }
  }

  // ---------------------------------------------------------------- whole runs

  /** A frame leaves, or a header announces the firmware's absolute limit. */
  datatype Op = Frame | Announce(limit: nat)

  datatype Host = Host(seqNo: byte, maxNo: byte)

  function Apply(h: Host, op: Op): Host {
    match op
    case Frame => if Credit(h.seqNo, h.maxNo) then h.(seqNo := (h.seqNo + 1) % 256) else h
    case Announce(limit) => h.(maxNo := CreditUpdate(h.seqNo, h.maxNo, limit % 256))
  }

  function Run(ops: seq<Op>): Host {
    if ops == [] then Host(0, 1) else Apply(Run(ops[..|ops| - 1]), ops[|ops| - 1])
  }

  /** Frames that really left. */
  function Sent(ops: seq<Op>): nat {
    if ops == [] then 0
    else
      var before := ops[..|ops| - 1];
      Sent(before) + if ops[|ops| - 1].Frame? && Credit(Run(before).seqNo, Run(before).maxNo) then 1 else 0
  }

  /** The last limit announced; the card starts with one credit. */
  function Limit(ops: seq<Op>): nat {
    if ops == [] then 1 else if ops[|ops| - 1].Announce? then ops[|ops| - 1].limit else Limit(ops[..|ops| - 1])
  }

  /** Limits never retreat, and never run more than 64 frames ahead of what was sent. */
  ghost predicate Honest(ops: seq<Op>)
    decreases |ops|
  {
    ops == [] ||
    (var before := ops[..|ops| - 1];
     Honest(before)
     && (ops[|ops| - 1].Announce? ==> Limit(before) <= ops[|ops| - 1].limit <= Sent(before) + WINDOW_MAX))
  }

  /** Over every run with such firmware the wrapped window equals the true one: no frame is sent
      without a grant and no grant is lost, however often the counters wrap. */
  lemma {:induction false} HonestFirmwareIsTracked(ops: seq<Op>)
    requires Honest(ops)
    ensures CreditInv(Sent(ops), Limit(ops), Run(ops).seqNo, Run(ops).maxNo)
    ensures Window(Run(ops).seqNo, Run(ops).maxNo) == Limit(ops) - Sent(ops)
  {
    if ops != [] {
      var before := ops[..|ops| - 1];
      HonestFirmwareIsTracked(before);
      var h := Run(before);
      match ops[|ops| - 1]
      case Frame => if Credit(h.seqNo, h.maxNo) { SendKeeps(Sent(before), Limit(before), h.seqNo, h.maxNo); }
      case Announce(limit) => ModDifference(Sent(before), limit);
    }
    WindowExact(Sent(ops), Limit(ops), Run(ops).seqNo, Run(ops).maxNo);
  }

  lemma WindowCases(seqNo: byte, maxNo: byte)
    ensures Window(seqNo, maxNo) == if maxNo >= seqNo then maxNo - seqNo else maxNo - seqNo + 256
  {}

  /** Whatever any firmware announces, the window stays between 0 and 64, so the upper half of the
      credit test never decides. */
  lemma {:induction false} AnyFirmwareIsBounded(ops: seq<Op>)
    ensures Window(Run(ops).seqNo, Run(ops).maxNo) <= WINDOW_MAX
    ensures Credit(Run(ops).seqNo, Run(ops).maxNo) <==> Run(ops).seqNo != Run(ops).maxNo
  {
    if ops != [] {
      var h := Run(ops[..|ops| - 1]);
      AnyFirmwareIsBounded(ops[..|ops| - 1]);
      WindowCases(h.seqNo, h.maxNo);
      WindowCases((h.seqNo + 1) % 256, h.maxNo);
    }
    WindowCases(Run(ops).seqNo, Run(ops).maxNo);
  }
}
