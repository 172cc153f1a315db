/** Whole-run safety of the transmit queue: what every interleaving keeps, and what the history of
    acceptances, bus writes and completions can and cannot contain. */
module TxSafety {
  import opened TxTypes
  import opened TxMachine

  // ---------------------------------------------------------------- the history, said without the queue

  function Acceptances(log: seq<Event>): nat {
    if log == [] then 0 else Acceptances(log[..|log| - 1]) + if log[|log| - 1].Accepted? then 1 else 0
  }

  /** A bus write of `e` may still be followed by a write of buffer k of ticket t. */
  predicate Precedes(e: Event, t: nat, k: nat)
    requires e.Written?
  {
    e.ticket < t || (e.ticket == t && e.buffer < k && e.ok)
  }

  ghost predicate Unreturned(log: seq<Event>, t: nat) {
    forall e :: e in log && e.Returned? ==> e.ticket != t
  }

  ghost predicate AllWritten(log: seq<Event>, t: nat, upto: nat) {
    forall k: nat :: k < upto ==> Written(t, k, true) in log
  }

  /** Which event may come next. */
  ghost predicate Admissible(log: seq<Event>, e: Event) {
    match e
    case Accepted(t, nbl) => t == Acceptances(log) && PrepareStatus(nbl.lens) == Success
    case Written(t, k, ok) =>
      && (exists nbl :: Accepted(t, nbl) in log && k < |nbl.lens|)
      && AllWritten(log, t, k)
      && (forall d :: d in log && d.Written? ==> Precedes(d, t, k))
      && Unreturned(log, t)
    case Returned(t, status) =>
      && (exists nbl :: Accepted(t, nbl) in log && (status == Success ==> AllWritten(log, t, |nbl.lens|)))
      && Unreturned(log, t)
  }

  ghost predicate LogSafe(log: seq<Event>)
    decreases |log|
  {
    log == [] || (LogSafe(log[..|log| - 1]) && Admissible(log[..|log| - 1], log[|log| - 1]))
  }

  lemma {:induction false} PrefixSafe(log: seq<Event>, n: nat)
    requires LogSafe(log) && n < |log|
    ensures LogSafe(log[..n]) && Admissible(log[..n], log[n])
  {
    var m := |log| - 1;
    if n < m {
      PrefixSafe(log[..m], n);
      assert log[..m][..n] == log[..n];
    }
  }

  /** No buffer is written twice, none after a failed write of its list, and writes follow acceptance
      order and chain order. */
  lemma {:induction false} WritesAreOrdered(log: seq<Event>, i: nat, j: nat)
    requires LogSafe(log) && i < j < |log| && log[i].Written? && log[j].Written?
    ensures log[i].ticket < log[j].ticket
      || (log[i].ticket == log[j].ticket && log[i].buffer < log[j].buffer && log[i].ok)
  {
    PrefixSafe(log, j);
    assert log[i] in log[..j];
  }

  /** An accepted list is given back at most once, and never written afterwards. */
  lemma {:induction false} ReturnedOnceAndLast(log: seq<Event>, i: nat, j: nat)
    requires LogSafe(log) && i < j < |log| && log[i].Returned? && (log[j].Returned? || log[j].Written?)
    ensures log[i].ticket != log[j].ticket
  {
    PrefixSafe(log, j);
    assert log[i] in log[..j];
  }

  lemma {:induction false} AcceptancesBound(log: seq<Event>, e: Event)
    requires LogSafe(log) && e in log && e.Accepted?
    ensures e.ticket < Acceptances(log)
  {
    var m := |log| - 1;
    if e != log[m] { AcceptancesBound(log[..m], e); }
  }

  /** A ticket names one acceptance. */
  lemma {:induction false} TicketsUnique(log: seq<Event>, i: nat, j: nat)
    requires LogSafe(log) && i < j < |log| && log[i].Accepted? && log[j].Accepted?
    ensures log[i].ticket < log[j].ticket
  {
    PrefixSafe(log, j);
    assert log[i] in log[..j];
    AcceptancesBound(log[..j], log[i]);
  }

  /** A list reported as sent had every one of its buffers written, each before the report. */
  lemma {:induction false} SuccessMeansAllWritten(log: seq<Event>, j: nat, a: nat, k: nat)
    requires LogSafe(log) && j < |log| && log[j].Returned? && log[j].status == Success
    requires a < |log| && log[a].Accepted? && log[a].ticket == log[j].ticket && k < |log[a].nbl.lens|
    ensures Written(log[j].ticket, k, true) in log[..j]
  {
    PrefixSafe(log, j);
    var t := log[j].ticket;
    var nbl :| Accepted(t, nbl) in log[..j] && AllWritten(log[..j], t, |nbl.lens|);
    var b :| 0 <= b < j && log[..j][b] == Accepted(t, nbl);
    if a < b { TicketsUnique(log, a, b); } else if b < a { TicketsUnique(log, b, a); }
  }

  /** The successful bus writes, in order, as (ticket, buffer) pairs. */
  function WroteOk(log: seq<Event>): seq<(nat, nat)> {
    if log == [] then []
    else
      var e := log[|log| - 1];
      WroteOk(log[..|log| - 1]) + if e.Written? && e.ok then [(e.ticket, e.buffer)] else []
  }

  lemma {:induction false} WroteOkEvent(log: seq<Event>, i: nat)
    requires i < |WroteOk(log)|
    ensures Written(WroteOk(log)[i].0, WroteOk(log)[i].1, true) in log
  {
    var before := log[..|log| - 1];
    if i < |WroteOk(before)| { WroteOkEvent(before, i); }
  }

  /** The buffers that reached the bus form one strictly increasing sequence, by acceptance and then by
      place in the chain: nothing is replayed, nothing overtakes. */
  lemma {:induction false} FramesInOrder(log: seq<Event>, i: nat, j: nat)
    requires LogSafe(log) && i < j < |WroteOk(log)|
    ensures WroteOk(log)[i].0 < WroteOk(log)[j].0
      || (WroteOk(log)[i].0 == WroteOk(log)[j].0 && WroteOk(log)[i].1 < WroteOk(log)[j].1)
    decreases |log|
  {
    var before, e := log[..|log| - 1], log[|log| - 1];
    if j < |WroteOk(before)| {
      FramesInOrder(before, i, j);
    } else {
      WroteOkEvent(before, i);
      assert Precedes(Written(WroteOk(before)[i].0, WroteOk(before)[i].1, true), e.ticket, e.buffer);
    }
  }

  // ---------------------------------------------------------------- the invariant

  function All(q: Queue): seq<Item> { q.active + q.backlog }

  /** The acceptance tickets of the queued lists, in queue order. */
  function Tickets(q: Queue): (r: seq<nat>)
    ensures |r| == |All(q)| && forall i :: 0 <= i < |r| ==> r[i] == All(q)[i].ticket
  {
    seq(|All(q)|, i requires 0 <= i < |All(q)| => All(q)[i].ticket)
  }

  function SumHeld(items: seq<Item>): nat {
    if items == [] then 0 else SumHeld(items[..|items| - 1]) + items[|items| - 1].heldFrames
  }

  function SumBytes(items: seq<Item>): nat {
    if items == [] then 0 else SumBytes(items[..|items| - 1]) + items[|items| - 1].bytes
  }

  /** The queue's four sums, its limits, and where every accepted list is charged. */
  ghost predicate Counted(w: World) {
    && w.q.frames == SumHeld(w.q.active) <= ACTIVE_LIMIT
    && w.q.bytes == SumBytes(w.q.active)
    && w.q.backlogFrames == SumHeld(w.q.backlog) <= BACKLOG_LIMIT
    && w.q.backlogBytes == SumBytes(w.q.backlog)
    && w.q.outstanding == |w.q.active| + (if w.hand.Removed? then 1 else 0)
    && w.q.completing == (if w.hand.Charged? || w.hand.Called? then 1 else 0)
    && w.q.outstanding + |w.q.backlog| + w.q.completing == w.accepted - w.completed
  }

  predicate ItemOk(item: Item) {
    && PrepareStatus(item.nbl.lens) == Success
    && item.heldFrames == |item.nbl.lens| == item.next + item.frames
    && item.bytes == Sum(item.nbl.lens)
    && item.maxLength == Max(item.nbl.lens)
  }

  ghost predicate Deferred(backlog: seq<Item>) {
    forall i :: 0 <= i < |backlog| ==> backlog[i].next == 0 && Small(backlog[i].maxLength)
  }

  /** Queued records in acceptance order; only the first may be partly written. */
  ghost predicate Ordered(all: seq<Item>, accepted: nat) {
    && (forall i :: 0 <= i < |all| ==> ItemOk(all[i]) && all[i].frames > 0 && all[i].ticket < accepted)
    && (forall i, j :: 0 <= i < j < |all| ==> all[i].ticket < all[j].ticket)
    && (forall i :: 0 < i < |all| ==> all[i].next == 0)
  }

  ghost predicate ItemTraced(item: Item, log: seq<Event>) {
    && Accepted(item.ticket, item.nbl) in log
    && AllWritten(log, item.ticket, item.next)
    && Unreturned(log, item.ticket)
  }

  /** No write reaches a queued record's remaining buffers. */
  ghost predicate Fresh(log: seq<Event>, item: Item) {
    forall e :: e in log && e.Written? ==> Precedes(e, item.ticket, item.next)
  }

  /** The head while its transport call has returned and the queue has not been updated. */
  ghost predicate FreshButLast(log: seq<Event>, item: Item, last: Event) {
    last in log && forall e :: e in log && e.Written? && e != last ==> Precedes(e, item.ticket, item.next)
  }

  ghost predicate HeadFresh(all: seq<Item>, hand: Hand, log: seq<Event>) {
    match hand
    case Settling(Sent) => all != [] && FreshButLast(log, all[0], Written(all[0].ticket, all[0].next, true))
    case Settling(Fault) => all != [] && FreshButLast(log, all[0], Written(all[0].ticket, all[0].next, false))
    case _ => all != [] ==> Fresh(log, all[0])
  }

  ghost predicate HandOk(all: seq<Item>, hand: Hand, log: seq<Event>, accepted: nat) {
    match hand
    case Removed(item, status) => HeldOk(all, item, status, log, accepted)
    case Charged(item, status) => HeldOk(all, item, status, log, accepted)
    case _ => true
  }

  ghost predicate HeldOk(all: seq<Item>, item: Item, status: Status, log: seq<Event>, accepted: nat) {
    && ItemOk(item) && ItemTraced(item, log) && item.ticket < accepted
    && (status == Success ==> item.frames == 0)
    && forall i :: 0 <= i < |all| ==> all[i].ticket != item.ticket
  }

  predicate Queued(all: seq<Item>, t: nat) { exists i :: 0 <= i < |all| && all[i].ticket == t }

  predicate InHand(hand: Hand, t: nat) { (hand.Removed? || hand.Charged?) && hand.item.ticket == t }

  ghost predicate WasReturned(log: seq<Event>, t: nat) { exists status :: Returned(t, status) in log }

  /** Nothing accepted is lost: it is queued, in the worker's hand, or was returned. */
  ghost predicate Accounted(all: seq<Item>, hand: Hand, log: seq<Event>, accepted: nat) {
    forall t: nat :: t < accepted ==> Queued(all, t) || InHand(hand, t) || WasReturned(log, t)
  }

  ghost predicate Traced(all: seq<Item>, hand: Hand, log: seq<Event>, accepted: nat) {
    && LogSafe(log) && Acceptances(log) == accepted
    && (forall i :: 0 <= i < |all| ==> ItemTraced(all[i], log))
    && (forall e :: e in log && e.Written? ==> forall i :: 0 < i < |all| ==> e.ticket < all[i].ticket)
    && (forall e :: e in log && e.Written? ==> e.ticket < accepted)
    && HeadFresh(all, hand, log)
    && HandOk(all, hand, log, accepted)
    && Accounted(all, hand, log, accepted)
  }

  /** What holds at every lock release. */
  ghost predicate Inv(w: World) {
    && Counted(w)
    && Deferred(w.q.backlog)
    && Ordered(All(w.q), w.accepted)
    && Traced(All(w.q), w.hand, w.log, w.accepted)
    && (w.hand.Sending? || w.hand.Settling? ==> w.q.active != [])
    && w.hand != Settling(Busy)
  }
}
