/** The transmit queue as a state machine. Every step is one lock region, or one unlocked action of the
    bus worker between two of them, so a sequence of steps is one interleaving of the worker with the
    submit, cancel and gate calls of other threads (and of completion callbacks that re-enter submit). */
module TxMachine {
  import opened TxTypes

  datatype Queue = Queue(gate: Status, active: seq<Item>, frames: int, bytes: int,
                         outstanding: int, completing: int,
                         backlog: seq<Item>, backlogFrames: int, backlogBytes: int)

  /** The result of handing the head buffer to the transport. */
  datatype Outcome = Sent | Busy | Fault | Unmapped

  /** What the worker holds outside the lock. */
  datatype Hand =
    | Idle
    | Sending                                  // the head is in the transport
    | Settling(outcome: Outcome)               // the transport returned, the queue is not yet updated
    | Removed(item: Item, status: Status)      // taken from the active queue, still charged to it
    | Charged(item: Item, status: Status)      // charged to Completing
    | Called(item: Item, status: Status)       // given back to NDIS, still charged

  datatype Event =
    | Accepted(ticket: nat, nbl: Nbl)
    | Written(ticket: nat, buffer: nat, ok: bool)
    | Returned(ticket: nat, status: Status)

  /** The history went on from `before`, and `e` was recorded meanwhile. */
  ghost predicate Gained(before: seq<Event>, after: seq<Event>, e: Event) {
    before <= after && exists i :: |before| <= i < |after| && after[i] == e
  }

  lemma GainedWithin(before: seq<Event>, start: seq<Event>, end: seq<Event>, after: seq<Event>, e: Event)
    requires before <= start && Gained(start, end, e) && end <= after
    ensures Gained(before, after, e) && e in after
  {
    var i :| |start| <= i < |end| && end[i] == e;
    assert after[i] == e;
  }

  datatype World = World(q: Queue, hand: Hand, log: seq<Event>, accepted: nat, completed: nat)

  datatype Step =
    | Submit(nbl: Nbl, stamp: Time)
    | Cancel(cancelId: int)
    | SetGate(gate: Status)
    | Reap(now: Time)
    | Release
    | Callback
    | EndCallback
    | Pick(now: Time)
    | Transfer(outcome: Outcome)
    | Settle(now: Time)
    | FlushOne(status: Status)

  /** Steps other threads, and re-entrant callbacks, can take at any time. */
  predicate External(s: Step) { s.Submit? || s.Cancel? || s.SetGate? }

  predicate ActiveFits(q: Queue, frames: nat) {
    q.outstanding < ACTIVE_LIMIT && |q.active| < ACTIVE_LIMIT && q.frames <= ACTIVE_LIMIT - frames
  }

  predicate BacklogFits(q: Queue, frames: nat) {
    |q.backlog| < BACKLOG_LIMIT && q.backlogFrames <= BACKLOG_LIMIT - frames
  }

  function Activate(q: Queue, item: Item): Queue {
    q.(active := q.active + [item], frames := q.frames + item.heldFrames, bytes := q.bytes + item.bytes,
       outstanding := q.outstanding + 1)
  }

  function Defer(q: Queue, item: Item): Queue {
    q.(backlog := q.backlog + [item], backlogFrames := q.backlogFrames + item.heldFrames,
       backlogBytes := q.backlogBytes + item.bytes)
  }

  predicate Admits(q: Queue, item: Item) {
    (q.backlog == [] && ActiveFits(q, item.heldFrames)) || (Small(item.maxLength) && BacklogFits(q, item.heldFrames))
  }

  function Admit(q: Queue, item: Item): Queue
    requires Admits(q, item)
  {
    if q.backlog == [] && ActiveFits(q, item.heldFrames) then Activate(q, item) else Defer(q, item)
  }

  function Without<T>(s: seq<T>, i: nat): seq<T>
    requires i < |s|
  {
    s[..i] + s[i + 1..]
  }

  function MarkCancelled(items: seq<Item>, cancelId: int): (r: seq<Item>)
    ensures |r| == |items|
    ensures forall i :: 0 <= i < |items| ==>
      r[i] == if items[i].nbl.cancelId == cancelId then items[i].(cancelled := true) else items[i]
  {
    seq(|items|, i requires 0 <= i < |items| =>
      if items[i].nbl.cancelId == cancelId then items[i].(cancelled := true) else items[i])
  }

  function RemoveActive(q: Queue, i: nat): Queue
    requires i < |q.active|
  {
    q.(active := Without(q.active, i), frames := q.frames - q.active[i].heldFrames,
       bytes := q.bytes - q.active[i].bytes)
  }

  predicate CanPromote(q: Queue) {
    q.gate == Success && q.backlog != [] && ActiveFits(q, q.backlog[0].heldFrames)
  }

  function Popped(q: Queue): Queue
    requires q.backlog != []
  {
    q.(backlog := q.backlog[1..], backlogFrames := q.backlogFrames - q.backlog[0].heldFrames,
       backlogBytes := q.backlogBytes - q.backlog[0].bytes)
  }

  function PromoteOne(q: Queue): Queue
    requires CanPromote(q)
  {
    Activate(Popped(q), q.backlog[0])
  }

  function PromoteAll(q: Queue): Queue
    decreases |q.backlog|
  {
    if CanPromote(q) then PromoteAll(PromoteOne(q)) else q
  }

  function CutBacklog(q: Queue, i: nat): Queue
    requires i < |q.backlog|
  {
    q.(backlog := Without(q.backlog, i), backlogFrames := q.backlogFrames - q.backlog[i].heldFrames,
       backlogBytes := q.backlogBytes - q.backlog[i].bytes, completing := q.completing + 1)
  }

  function RemoveBacklog(q: Queue, i: nat): Queue
    requires i < |q.backlog|
  {
    PromoteAll(CutBacklog(q, i))
  }

  /** First index at or after `from` whose entry must be aborted; the length when there is none. */
  function FirstAbort(gate: Status, items: seq<Item>, now: Time, from: nat): (r: nat)
    requires from <= |items|
    ensures from <= r <= |items|
    ensures forall j :: from <= j < r ==> AbortStatus(gate, items[j], now) == Success
    ensures r < |items| ==> AbortStatus(gate, items[r], now) != Success
    decreases |items| - from
  {
    if from == |items| || AbortStatus(gate, items[from], now) != Success then from
    else FirstAbort(gate, items, now, from + 1)
  }

  predicate Enabled(w: World, s: Step) {
    match s
    case Submit(_, _) => true
    case Cancel(_) => true
    case SetGate(_) => true
    case Reap(_) => w.hand.Idle?
    case Release => w.hand.Removed? && w.q.outstanding > 0
    case Callback => w.hand.Charged?
    case EndCallback => w.hand.Called?
    case Pick(_) => w.hand.Idle?
    case Transfer(_) => w.hand.Sending? && w.q.active != []
    case Settle(_) => w.hand.Settling? && w.q.active != [] && w.q.active[0].frames > 0
    case FlushOne(status) => w.hand.Idle? && status != Success
  }

  function StepSubmit(w: World, nbl: Nbl, stamp: Time): World {
    var item := MakeItem(w.accepted, nbl, stamp);
    if w.q.gate != Success || PrepareStatus(nbl.lens) != Success || !Admits(w.q, item) then w
    else w.(q := Admit(w.q, item), log := w.log + [Accepted(w.accepted, nbl)], accepted := w.accepted + 1)
  }

  function StepCancel(w: World, cancelId: int): World {
    w.(q := w.q.(active := MarkCancelled(w.q.active, cancelId), backlog := MarkCancelled(w.q.backlog, cancelId)))
  }

  function TakeActive(w: World, i: nat, status: Status): World
    requires i < |w.q.active|
  {
    w.(q := RemoveActive(w.q, i), hand := Removed(w.q.active[i], status))
  }

  function TakeBacklog(w: World, i: nat, status: Status): World
    requires i < |w.q.backlog|
  {
    w.(q := RemoveBacklog(w.q, i), hand := Charged(w.q.backlog[i], status))
  }

  function StepReap(w: World, now: Time): World {
    var a := FirstAbort(w.q.gate, w.q.active, now, 0);
    var b := FirstAbort(w.q.gate, w.q.backlog, now, 0);
    if a < |w.q.active| then TakeActive(w, a, AbortStatus(w.q.gate, w.q.active[a], now))
    else if b < |w.q.backlog| then TakeBacklog(w, b, AbortStatus(w.q.gate, w.q.backlog[b], now))
    else w
  }

  function StepRelease(w: World): World
    requires w.hand.Removed?
  {
    var q := PromoteAll(w.q.(outstanding := w.q.outstanding - 1));
    w.(q := q.(completing := q.completing + 1), hand := Charged(w.hand.item, w.hand.status))
  }

  function StepPick(w: World, now: Time): World {
    var v := if w.q.active == [] && CanPromote(w.q) then w.(q := PromoteOne(w.q)) else w;
    if v.q.active == [] then v
    else
      var status := AbortStatus(v.q.gate, v.q.active[0], now);
      if status != Success then TakeActive(v, 0, status) else v.(hand := Sending)
  }

  function StepTransfer(w: World, outcome: Outcome): World
    requires w.q.active != []
  {
    var head := w.q.active[0];
    match outcome
    case Busy => w.(hand := Idle)
    case Unmapped => w.(hand := Settling(outcome))
    case Sent => w.(hand := Settling(outcome), log := w.log + [Written(head.ticket, head.next, true)])
    case Fault => w.(hand := Settling(outcome), log := w.log + [Written(head.ticket, head.next, false)])
  }

  function Advanced(item: Item): Item
    requires item.frames > 0
  {
    item.(next := item.next + 1, frames := item.frames - 1)
  }

  function StepSettle(w: World, now: Time): World
    requires w.hand.Settling? && w.q.active != [] && w.q.active[0].frames > 0
  {
    var aborted := AbortStatus(w.q.gate, w.q.active[0], now);
    var sent := w.hand.outcome == Sent;
    var head := if sent then Advanced(w.q.active[0]) else w.q.active[0];
    var status := if !sent && aborted == Success then Failure else aborted;
    var v := w.(q := w.q.(active := w.q.active[0 := head]));
    if status != Success || head.frames == 0 then TakeActive(v, 0, status) else v.(hand := Idle)
  }

  function StepFlush(w: World, status: Status): World {
    if w.q.active != [] then TakeActive(w, 0, status)
    else if w.q.backlog != [] then TakeBacklog(w, 0, status)
    else w
  }

  function Next(w: World, s: Step): World
    requires Enabled(w, s)
  {
    match s
    case Submit(nbl, stamp) => StepSubmit(w, nbl, stamp)
    case Cancel(cancelId) => StepCancel(w, cancelId)
    case SetGate(gate) => w.(q := w.q.(gate := gate))
    case Reap(now) => StepReap(w, now)
    case Release => StepRelease(w)
    case Callback => w.(hand := Called(w.hand.item, w.hand.status),
                        log := w.log + [Returned(w.hand.item.ticket, w.hand.status)])
    case EndCallback => w.(q := w.q.(completing := w.q.completing - 1), hand := Idle, completed := w.completed + 1)
    case Pick(now) => StepPick(w, now)
    case Transfer(outcome) => StepTransfer(w, outcome)
    case Settle(now) => StepSettle(w, now)
    case FlushOne(status) => StepFlush(w, status)
  }

  /** Adapter start: the gate is closed until the first restart. */
  function Init(): World {
    World(Queue(Paused, [], 0, 0, 0, 0, [], 0, 0), Idle, [], 0, 0)
  }

  /** A run: every step was enabled where it was taken. */
  ghost predicate IsRun(w: World, steps: seq<Step>, w': World)
    decreases |steps|
  {
    if steps == [] then w == w'
    else
      var n := |steps| - 1;
      exists mid: World :: IsRun(w, steps[..n], mid) && Enabled(mid, steps[n]) && w' == Next(mid, steps[n])
  }

  lemma {:induction false} RunExtends(w: World, steps: seq<Step>, mid: World, s: Step)
    requires IsRun(w, steps, mid) && Enabled(mid, s)
    ensures IsRun(w, steps + [s], Next(mid, s))
  {
    assert (steps + [s])[..|steps|] == steps;
  }
}
