/** Pending-send records, admission preparation and the abort policy of the transmit queue. */
module TxTypes {
  const ACTIVE_LIMIT: nat := 64
  const BACKLOG_LIMIT: nat := 128
  const SMALL_MAX: nat := 512
  const MAX_AGE: nat := 300_000_000
  const CLOCK_MOD: nat := 0x1_0000_0000_0000_0000

  /** The 64-bit interrupt-time counter. */
  type Time = t: int | 0 <= t < 0x1_0000_0000_0000_0000

  datatype Status =
    | Success | Resources | InvalidLength | Paused | SendAborted | Failure | MediaDisconnected | LowPower

  /** A NET_BUFFER_LIST: its cancel id and the lengths of its chain of NET_BUFFERs. */
  datatype Nbl = Nbl(cancelId: int, lens: seq<nat>)

  /** One pending-send record. `next` is the position of the chain pointer, `ticket` the value of the
      accepted-NBL counter at admission: it only names the acceptance in the history. */
  datatype Item = Item(ticket: nat, nbl: Nbl, next: nat, frames: nat, heldFrames: nat, bytes: nat,
                       maxLength: nat, submitted: Time, cancelled: bool)

  const ZERO_ITEM := Item(0, Nbl(0, []), 0, 0, 0, 0, 0, 0, false)

  predicate LenOk(len: nat) { 14 <= len <= 1514 }

  predicate Small(length: nat) { length <= SMALL_MAX }

  function Sum(s: seq<nat>): nat { if s == [] then 0 else Sum(s[..|s| - 1]) + s[|s| - 1] }

  function Max(s: seq<nat>): nat {
    if s == [] then 0 else var m := Max(s[..|s| - 1]); if s[|s| - 1] > m then s[|s| - 1] else m
  }

  /** What admission answers for a chain: the first fault met while walking it decides. */
  function PrepareStatus(lens: seq<nat>): Status {
    if (exists i :: 0 <= i < |lens| && i <= ACTIVE_LIMIT && !LenOk(lens[i])) then InvalidLength
    else if |lens| > ACTIVE_LIMIT then Resources
    else if |lens| == 0 then InvalidLength
    else Success
  }

  function MakeItem(ticket: nat, nbl: Nbl, now: Time): Item {
    Item(ticket, nbl, 0, |nbl.lens|, |nbl.lens|, Sum(nbl.lens), Max(nbl.lens), now, false)
  }

  /** CywTxPrepare: one walk over the chain, stopping at the first fault. */
  method Prepare(ticket: nat, nbl: Nbl, now: Time) returns (status: Status, item: Item)
    ensures status == PrepareStatus(nbl.lens)
    ensures status == Success ==> item == MakeItem(ticket, nbl, now)
    ensures status == Success <==>
      1 <= |nbl.lens| <= ACTIVE_LIMIT && forall i :: 0 <= i < |nbl.lens| ==> LenOk(nbl.lens[i])
    ensures status == Success ==> item.bytes <= ACTIVE_LIMIT * 1514
  {
    var lens := nbl.lens;
    var frames, bytes, maxLength := 0, 0, 0;
    item := ZERO_ITEM;
    for i := 0 to |lens|
      invariant frames == i <= ACTIVE_LIMIT
      invariant bytes == Sum(lens[..i]) <= i * 1514
      invariant maxLength == Max(lens[..i])
      invariant forall j :: 0 <= j < i ==> LenOk(lens[j])
    {
      var len := lens[i];
      if len < 14 || len > 1514 {
        assert !LenOk(lens[i]);
        return InvalidLength, item;
      }
      frames := frames + 1;
      if frames > ACTIVE_LIMIT {
        return Resources, item;
      }
      bytes := bytes + len;
      assert lens[..i + 1][..i] == lens[..i];
      if len > maxLength { maxLength := len; }
    }
    if frames == 0 {
      return InvalidLength, item;
    }
    assert lens[..|lens|] == lens;
    item := Item(ticket, nbl, 0, frames, frames, bytes, maxLength, now, false);
    status := Success;
  }

  /** Unsigned 64-bit subtraction. */
  function Age(now: Time, submitted: Time): Time { (now - submitted) % CLOCK_MOD }

  /** CywTxAbortStatus. */
  function AbortStatus(gate: Status, item: Item, now: Time): Status {
    if gate != Success then gate
    else if item.cancelled then SendAborted
    else if Age(now, item.submitted) >= MAX_AGE then Failure
    else Success
  }

  /** An open queue fails an uncancelled record exactly when it is 30 seconds old, or when the clock
      was sampled before the record was stamped: the unsigned difference then wraps. The cleanup loop
      samples the clock before it takes the lock, so the second case can occur. */
  lemma ExpiryExact(item: Item, now: Time)
    requires !item.cancelled
    ensures AbortStatus(Success, item, now) == Failure
       <==> now - item.submitted >= MAX_AGE || 0 < item.submitted - now <= CLOCK_MOD - MAX_AGE
    ensures AbortStatus(Success, item, now) in {Failure, Success}
  {
    if now >= item.submitted {
      assert (now - item.submitted) % CLOCK_MOD == now - item.submitted;
    } else {
      assert (now - item.submitted) % CLOCK_MOD == now - item.submitted + CLOCK_MOD;
    }
  }

  /** Witness of the wrap: a record stamped one tick after the sample is failed at age zero. */
  lemma StaleClockFailsFreshItem(nbl: Nbl)
    ensures AbortStatus(Success, MakeItem(0, nbl, 1), 0) == Failure
    ensures AbortStatus(Success, MakeItem(0, nbl, 1), 1) == Success
  {
    ExpiryExact(MakeItem(0, nbl, 1), 0);
    ExpiryExact(MakeItem(0, nbl, 1), 1);
  }

  lemma {:induction false} MaxBounds(s: seq<nat>, k: nat)
    requires k < |s|
    ensures s[k] <= Max(s)
  {
    if k < |s| - 1 { MaxBounds(s[..|s| - 1], k); }
  }

  lemma {:induction false} MaxAttained(s: seq<nat>) returns (k: nat)
    requires s != []
    ensures k < |s| && s[k] == Max(s)
  {
    if |s| == 1 {
      k := 0;
    } else if s[|s| - 1] > Max(s[..|s| - 1]) {
      k := |s| - 1;
    } else {
      k := MaxAttained(s[..|s| - 1]);
    }
  }
}
