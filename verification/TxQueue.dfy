/** The queue itself: two arrays shifted in place and the counters beside them. Every lock region is one
    method; each is proved to be one step of the state machine, so every execution is a run of it. */
module TxQueue {
  import opened TxTypes
  import opened TxMachine
  import opened TxSafety
  import opened TxRuns
  import Wire

  /** What the worker found at the head of the queue. */
  datatype Picked = Nothing | Dropped | Ready

  /** Some list was given back since, not as a success. */
  ghost predicate GaveBack(before: seq<Event>, after: seq<Event>) {
    exists t, st :: st != Success && Gained(before, after, Returned(t, st))
  }

  lemma GaveBackWithin(before: seq<Event>, start: seq<Event>, end: seq<Event>, after: seq<Event>)
    requires before <= start && GaveBack(start, end) && end <= after
    ensures GaveBack(before, after)
  {
    hide Gained;
    var t, st :| st != Success && Gained(start, end, Returned(t, st));
    GainedWithin(before, start, end, after, Returned(t, st));
  }

  class TxState {
    const env: nat -> seq<Step>     // what other threads do at the n-th lock release
    const clock: nat -> Time        // the n-th reading of the interrupt-time counter
    const mapped: nat -> bool       // whether the n-th buffer mapping succeeds

    var tick: nat
    var gate: Status
    var count: nat
    var frames: int
    var bytes: int
    var outstanding: int
    var completing: int
    const entries: array<Item>
    var backlogCount: nat
    var backlogFrames: int
    var backlogBytes: int
    const backlog: array<Item>
    var accepted: nat
    var completed: nat
    ghost var hand: Hand
    ghost var log: seq<Event>
    ghost var trace: seq<Step>

    ghost predicate Shape()
      reads this
    {
      && entries.Length == ACTIVE_LIMIT && backlog.Length == BACKLOG_LIMIT && entries != backlog
      && count <= ACTIVE_LIMIT && backlogCount <= BACKLOG_LIMIT
    }

    /** The fields, as the machine sees them. */
    ghost function Q(): Queue
      reads this, entries, backlog
      requires Shape()
    {
      Queue(gate, entries[..count], frames, bytes, outstanding, completing,
            backlog[..backlogCount], backlogFrames, backlogBytes)
    }

    ghost function W(): World
      reads this, entries, backlog
      requires Shape()
    {
      World(Q(), hand, log, accepted, completed)
    }

    /** The object's state is reachable, by the recorded steps. */
    ghost predicate Valid()
      reads this, entries, backlog
    {
      Shape() && IsRun(Init(), trace, W())
    }

    constructor (env: nat -> seq<Step>, clock: nat -> Time, mapped: nat -> bool)
      ensures Valid() && W() == Init() && fresh(entries) && fresh(backlog)
    {
      this.env, this.clock, this.mapped := env, clock, mapped;
      tick, gate, count, frames, bytes, outstanding, completing := 0, Paused, 0, 0, 0, 0, 0;
      backlogCount, backlogFrames, backlogBytes, accepted, completed := 0, 0, 0, 0, 0;
      hand, log, trace := Idle, [], [];
      entries := new Item[ACTIVE_LIMIT](_ => ZERO_ITEM);
      backlog := new Item[BACKLOG_LIMIT](_ => ZERO_ITEM);
    }

    // -------------------------------------------------------------- parts of lock regions

    method Activate(item: Item)
      requires Shape() && count < ACTIVE_LIMIT
      modifies this`count, this`frames, this`bytes, this`outstanding, entries
      ensures Shape() && Q() == TxMachine.Activate(old(Q()), item)
    {
      entries[count] := item;
      count, frames, bytes, outstanding := count + 1, frames + item.heldFrames, bytes + item.bytes, outstanding + 1;
    }

    method Defer(item: Item)
      requires Shape() && backlogCount < BACKLOG_LIMIT
      modifies this`backlogCount, this`backlogFrames, this`backlogBytes, backlog
      ensures Shape() && Q() == TxMachine.Defer(old(Q()), item)
    {
      backlog[backlogCount] := item;
      backlogCount, backlogFrames, backlogBytes :=
        backlogCount + 1, backlogFrames + item.heldFrames, backlogBytes + item.bytes;
    }

    /** Closing the hole at `index` and clearing the vacated slot. */
    static method Shift(a: array<Item>, index: nat, n: nat)
      requires index < n <= a.Length
      modifies a
      ensures a[..n - 1] == Without(old(a[..n]), index)
      ensures a[n - 1] == ZERO_ITEM && a[n..] == old(a[n..])
    {
      ghost var before := a[..];
      for i := index + 1 to n
        invariant a[..index] == before[..index]
        invariant a[i - 1..] == before[i - 1..]
        invariant forall k :: index < k < i ==> a[k - 1] == before[k]
      {
        a[i - 1] := a[i];
      }
      ghost var want := Without(before[..n], index);
      forall k | 0 <= k < n - 1 ensures a[k] == want[k] {
        if k >= index { assert a[k + 1 - 1] == before[k + 1]; }
      }
      a[n - 1] := ZERO_ITEM;
    }

    method RemoveEntry(index: nat)
      requires Shape() && index < count
      modifies this`count, this`frames, this`bytes, entries
      ensures Shape() && Q() == RemoveActive(old(Q()), index)
    {
      frames, bytes := frames - entries[index].heldFrames, bytes - entries[index].bytes;
      Shift(entries, index, count);
      count := count - 1;
    }

    method PopBacklog() returns (item: Item)
      requires Shape() && backlogCount > 0
      modifies this`backlogCount, this`backlogFrames, this`backlogBytes, backlog
      ensures Shape() && backlogCount == old(backlogCount) - 1 && item == old(backlog[0])
      ensures Q() == Popped(old(Q()))
    {
      item := backlog[0];
      backlogFrames, backlogBytes := backlogFrames - item.heldFrames, backlogBytes - item.bytes;
      Shift(backlog, 0, backlogCount);
      backlogCount := backlogCount - 1;
    }

    /** CywTxPromoteOneLocked. */
    method PromoteOne() returns (promoted: bool)
      requires Shape()
      modifies this`count, this`frames, this`bytes, this`outstanding, this`backlogCount, this`backlogFrames,
        this`backlogBytes, entries, backlog
      ensures Shape() && promoted == old(CanPromote(Q()))
      ensures Q() == if promoted then TxMachine.PromoteOne(old(Q())) else old(Q())
      ensures promoted ==> backlogCount < old(backlogCount) && count > 0
    {
      if gate != Success || backlogCount == 0 || outstanding >= ACTIVE_LIMIT || count >= ACTIVE_LIMIT
         || frames > ACTIVE_LIMIT - backlog[0].heldFrames {
        return false;
      }
      var item := PopBacklog();
      Activate(item);
      return true;
    }

    /** The refill loop shared by completion and backlog removal. */
    method PromoteAll()
      requires Shape()
      modifies this`count, this`frames, this`bytes, this`outstanding, this`backlogCount, this`backlogFrames,
        this`backlogBytes, entries, backlog
      ensures Shape() && Q() == TxMachine.PromoteAll(old(Q()))
    {
      var more := true;
      while more
        invariant Shape()
        invariant TxMachine.PromoteAll(Q()) == TxMachine.PromoteAll(old(Q()))
        invariant !more ==> !CanPromote(Q())
        decreases backlogCount, more
      {
        more := PromoteOne();
      }
    }

    /** The removed record's charge moves to Completing before the lock is dropped. */
    method CutEntry(index: nat)
      requires Shape() && index < backlogCount
      modifies this`completing, this`backlogCount, this`backlogFrames, this`backlogBytes, backlog
      ensures Shape() && Q() == CutBacklog(old(Q()), index)
    {
      backlogFrames, backlogBytes := backlogFrames - backlog[index].heldFrames, backlogBytes - backlog[index].bytes;
      Shift(backlog, index, backlogCount);
      backlogCount, completing := backlogCount - 1, completing + 1;
    }

    /** CywTxBacklogRemove. */
    method RemoveBacklogEntry(index: nat)
      requires Shape() && index < backlogCount
      modifies this`count, this`frames, this`bytes, this`outstanding, this`completing, this`backlogCount,
        this`backlogFrames, this`backlogBytes, entries, backlog
      ensures Shape() && Q() == RemoveBacklog(old(Q()), index)
    {
      CutEntry(index);
      PromoteAll();
    }

    static method Mark(a: array<Item>, n: nat, cancelId: int)
      requires n <= a.Length
      modifies a
      ensures a[..n] == MarkCancelled(old(a[..n]), cancelId) && a[n..] == old(a[n..])
    {
      for i := 0 to n
        invariant forall k :: 0 <= k < a.Length ==>
          a[k] == if k < i && old(a[k]).nbl.cancelId == cancelId then old(a[k]).(cancelled := true) else old(a[k])
      {
        if a[i].nbl.cancelId == cancelId { a[i] := a[i].(cancelled := true); }
      }
    }

    /** Index of the first entry that must be aborted, as the cleanup loop searches it. */
    method FindAbort(a: array<Item>, n: nat, now: Time) returns (index: nat)
      requires n <= a.Length
      ensures index == FirstAbort(gate, a[..n], now, 0)
    {
      index := 0;
      while index < n
        invariant index <= n && FirstAbort(gate, a[..n], now, 0) == FirstAbort(gate, a[..n], now, index)
      {
        if AbortStatus(gate, a[index], now) != Success { return; }
        index := index + 1;
      }
    }

    /** Closes a lock region: the new state is the machine's next state. */
    ghost method Took(before: World, steps: seq<Step>, s: Step)
      requires Shape() && trace == steps && IsRun(Init(), steps, before)
      requires Enabled(before, s) && W() == Next(before, s)
      modifies this`trace
      ensures Valid() && trace == steps + [s]
    {
      RunExtends(Init(), steps, before, s);
      trace := steps + [s];
    }

    // -------------------------------------------------------------- lock regions of other threads

    method SetGate(status: Status)
      requires Valid()
      modifies this`gate, this`trace
      ensures Valid() && trace == old(trace) + [Step.SetGate(status)] && W() == Next(old(W()), Step.SetGate(status))
    {
      ghost var w, t := W(), trace;
      gate := status;
      Took(w, t, Step.SetGate(status));
    }

    method Cancel(cancelId: int)
      requires Valid()
      modifies this`trace, entries, backlog
      ensures Valid() && trace == old(trace) + [Step.Cancel(cancelId)] && W() == Next(old(W()), Step.Cancel(cancelId))
    {
      ghost var w, t := W(), trace;
      Mark(entries, count, cancelId);
      Mark(backlog, backlogCount, cancelId);
      Took(w, t, Step.Cancel(cancelId));
    }

    method Admit(item: Item) returns (admitted: bool)
      requires Shape()
      modifies this`count, this`frames, this`bytes, this`outstanding, this`backlogCount, this`backlogFrames,
        this`backlogBytes, entries, backlog
      ensures Shape() && admitted == old(Admits(Q(), item))
      ensures Q() == if admitted then TxMachine.Admit(old(Q()), item) else old(Q())
    {
      if backlogCount == 0 && outstanding < ACTIVE_LIMIT && count < ACTIVE_LIMIT
        && frames <= ACTIVE_LIMIT - item.heldFrames {
        Activate(item);
      } else if Small(item.maxLength) && backlogCount < BACKLOG_LIMIT
        && backlogFrames <= BACKLOG_LIMIT - item.heldFrames {
        Defer(item);
      } else {
        return false;
      }
      return true;
    }

    /** The admission lock region of CywTxSubmitWithBacklog. */
    method SubmitLocked(nbl: Nbl, stamp: Time) returns (pending: bool, why: Status)
      requires Valid()
      modifies this, entries, backlog
      ensures Valid() && trace == old(trace) + [Step.Submit(nbl, stamp)]
      ensures W() == Next(old(W()), Step.Submit(nbl, stamp))
      ensures pending == (accepted > old(accepted)) && tick == old(tick)
      ensures pending <==>
        old(gate) == Success && PrepareStatus(nbl.lens) == Success && old(Admits(Q(), MakeItem(accepted, nbl, stamp)))
      ensures !pending ==>
        why == if old(gate) != Success then old(gate)
        else if PrepareStatus(nbl.lens) != Success then PrepareStatus(nbl.lens)
        else Resources
    {
      hide PrepareStatus, IsRun, Admits, TxMachine.Admit;
      ghost var w, t := W(), trace;
      var status, item := Prepare(accepted, nbl, stamp);
      pending, why := false, if gate != Success then gate else status;
      if gate == Success && status == Success {
        pending := Admit(item);
        if pending { accepted, log := accepted + 1, log + [Accepted(accepted, nbl)]; } else { why := Resources; }
      }
      Took(w, t, Step.Submit(nbl, stamp));
    }

    /** The lock is free: other threads, and callbacks that re-enter the driver, run their steps. */
    method Interfere()
      requires Valid()
      modifies this, entries, backlog
      ensures Valid() && Undisturbed(old(W()), W()) && tick == old(tick) + 1 && accepted >= old(accepted)
      ensures GateQuiet() && old(gate) != Success ==> gate == old(gate) && Closed(old(W()), W())
      ensures Frozen() ==> gate == old(gate) && DoomedIn(W(), clock(0)) == old(DoomedIn(W(), clock(0)))
      ensures env(old(tick)) == [] ==> W() == old(W())
    {
      hide IsRun, Undisturbed, DoomedIn, Closed;
      var script := env(tick);
      ghost var w0 := W();
      SameWorld(w0);
      for i := 0 to |script|
        invariant Valid() && Undisturbed(w0, W()) && tick == old(tick) && accepted >= w0.accepted
        invariant GateQuiet() && w0.q.gate != Success ==> gate == w0.q.gate && Closed(w0, W())
        invariant Frozen() ==> gate == w0.q.gate && DoomedIn(W(), clock(0)) == DoomedIn(w0, clock(0))
        invariant script == [] ==> W() == w0
      {
        ghost var w := W();
        External1(script[i]);
        UndisturbedTransitive(w0, w, W());
        if GateQuiet() && w0.q.gate != Success {
          assert !env(tick)[i].SetGate?;
          ClosedTransitive(w0, w, W());
        }
      }
      ghost var w := W();
      tick := tick + 1;
      assert W() == w;
    }

    /** No other thread moves the gate. */
    ghost predicate GateQuiet() { forall n: nat, i: nat :: i < |env(n)| ==> !env(n)[i].SetGate? }

    /** The clock stands still and other threads only submit. */
    ghost predicate Frozen() {
      && (forall n: nat :: clock(n) == clock(0))
      && (forall n: nat, i: nat :: i < |env(n)| ==> env(n)[i].Submit? && env(n)[i].stamp == clock(0))
    }

    method External1(s: Step)
      requires Valid()
      modifies this, entries, backlog
      ensures Valid() && Undisturbed(old(W()), W()) && tick == old(tick)
      ensures W() == old(W()) || (External(s) && W() == Next(old(W()), s))
      ensures !s.SetGate? && old(gate) != Success ==> gate == old(gate) && Closed(old(W()), W())
      ensures s.Submit? && s.stamp == clock(0) ==>
        gate == old(gate) && DoomedIn(W(), clock(0)) == old(DoomedIn(W(), clock(0)))
    {
      hide Undisturbed, DoomedIn, Closed, IsRun;
      ghost var w := W();
      SameWorld(w);
      if External(s) {
        ExternalUndisturbs(w, s);
        if !s.SetGate? && gate != Success { ClosedGateAdmitsNothing(w, s); }
        if s.Submit? && s.stamp == clock(0) { FrozenStepsDoomNothing(w, s, clock(0)); }
      }
      match s
      case Submit(nbl, stamp) => var _, _ := SubmitLocked(nbl, stamp);
      case Cancel(cancelId) => Cancel(cancelId);
      case SetGate(status) => SetGate(status);
      case _ =>
    }

    // -------------------------------------------------------------- lock regions of the worker

    /** Facts every reachable state has, in the terms the worker's code relies on. */
    lemma Facts()
      requires Valid()
      ensures Inv(W())
      ensures forall i :: 0 <= i < count ==> entries[i].frames > 0
      ensures hand.Removed? ==> outstanding > 0
      ensures hand.Sending? || hand.Settling? ==> count > 0
      ensures DoomedIn(W(), clock(0)) <= ACTIVE_LIMIT + BACKLOG_LIMIT
    {
      EveryRunIsSafe(trace, W());
      CountsBounded(W());
      CleanupBoundSuffices(W(), clock(0));
      assert forall i :: 0 <= i < count ==> entries[i] == entries[..count][i];
    }

    /** The completion callback: from here on the list belongs to NDIS again. */
    method GiveBack()
      requires Valid() && hand.Charged?
      modifies this`hand, this`log, this`trace
      ensures Valid() && Q() == old(Q()) && hand == Called(old(hand).item, old(hand).status)
      ensures log == old(log) + [Returned(old(hand).item.ticket, old(hand).status)] && WroteOk(log) == old(WroteOk(log))
    {
      hide IsRun, WroteOk;
      ghost var w, t := W(), trace;
      ReturnWritesNothing(log, Returned(hand.item.ticket, hand.status));
      hand, log := Called(hand.item, hand.status), log + [Returned(hand.item.ticket, hand.status)];
      Took(w, t, Callback);
    }

    /** The lock region that closes a completion. */
    method Uncharge()
      requires Valid() && hand.Called?
      modifies this`completing, this`completed, this`hand, this`trace
      ensures Valid() && hand == Idle && Q() == old(Q()).(completing := old(completing) - 1)
      ensures completed == old(completed) + 1
    {
      hide IsRun;
      ghost var w, t := W(), trace;
      completing, completed, hand := completing - 1, completed + 1, Idle;
      Took(w, t, EndCallback);
    }

    /** The lock region that moves a removed record's charge from the active queue to the callback. */
    method ReleaseCharge()
      requires Valid() && hand.Removed?
      modifies this`count, this`frames, this`bytes, this`outstanding, this`completing, this`backlogCount,
        this`backlogFrames, this`backlogBytes, this`hand, this`trace, entries, backlog
      ensures Valid() && hand == Charged(old(hand).item, old(hand).status) && old(outstanding) > 0
      ensures W() == Next(old(W()), Release)
    {
      hide IsRun, Inv;
      Facts();
      ghost var w, t := W(), trace;
      outstanding := outstanding - 1;
      PromoteAll();
      completing, hand := completing + 1, Charged(hand.item, hand.status);
      Took(w, t, Release);
    }

    /** CywTxCompleteBacklog, for a list already charged to Completing. */
    method CompleteBacklog()
      requires Valid() && hand.Charged?
      modifies this, entries, backlog
      ensures Valid() && hand == Idle && WroteOk(log) == old(WroteOk(log)) && old(log) <= log
      ensures Gained(old(log), log, Returned(old(hand).item.ticket, old(hand).status))
      ensures completed == old(completed) + 1
      ensures tick >= old(tick)
      ensures GateQuiet() && old(gate) != Success ==> Finished(old(W()), W(), old(hand))
      ensures Frozen() ==> Calm(old(W()), W(), clock(0))
    {
      hide IsRun, WroteOk, Tickets, Closed, DoomedIn;
      ghost var w0 := W();
      Interfere();
      ghost var w1 := W();
      GiveBack();
      ghost var w2 := W();
      Interfere();
      ghost var w3 := W();
      Uncharge();
      assert W().log[|w2.log| - 1] == Returned(w0.hand.item.ticket, w0.hand.status) && |w0.log| < |w2.log|;
      CalmSteps(w1, w2, clock(0));
      CalmSteps(w3, W(), clock(0));
      if GateQuiet() && w0.q.gate != Success { FinishedSteps(w0, w1, w2, w3, W(), w0.hand); }
    }

    /** CywTxComplete: the active charge and the callback charge change hands in one lock region. */
    method Complete()
      requires Valid() && hand.Removed?
      modifies this, entries, backlog
      ensures Valid() && hand == Idle && WroteOk(log) == old(WroteOk(log)) && old(log) <= log
      ensures Gained(old(log), log, Returned(old(hand).item.ticket, old(hand).status))
      ensures completed == old(completed) + 1
      ensures tick >= old(tick)
      ensures GateQuiet() && old(gate) != Success ==> Finished(old(W()), W(), old(hand))
      ensures Frozen() ==> Calm(old(W()), W(), clock(0))
    {
      hide IsRun, WroteOk, Tickets, Closed, DoomedIn, Gained;
      ghost var w0 := W();
      Interfere();
      ghost var w1 := W();
      ReleaseCharge();
      FrozenStepsDoomNothing(w1, Release, clock(0));
      ghost var w2 := W();
      CompleteBacklog();
      GainedWithin(w0.log, w2.log, log, log, Returned(w0.hand.item.ticket, w0.hand.status));
      if GateQuiet() && w0.q.gate != Success { FinishedRelease(w0, w1, w2, W()); }
    }

    // -------------------------------------------------------------- the worker's regions

    /** One turn of the cleanup loop's lock region. */
    method ReapRegion(now: Time) returns (found: bool, active: bool)
      requires Valid() && hand == Idle
      modifies this`count, this`frames, this`bytes, this`outstanding, this`completing, this`backlogCount,
        this`backlogFrames, this`backlogBytes, this`hand, this`trace, entries, backlog
      ensures Valid() && W() == Next(old(W()), Reap(now)) && found == (hand != Idle)
      ensures found ==> if active then hand.Removed? else hand.Charged?
    {
      hide IsRun, AbortStatus, RemoveActive, RemoveBacklog;
      ghost var w, t := W(), trace;
      found, active := true, false;
      var a := FindAbort(entries, count, now);
      if a < count {
        var item, status := entries[a], AbortStatus(gate, entries[a], now);
        RemoveEntry(a);
        active, hand := true, Removed(item, status);
      } else {
        var b := FindAbort(backlog, backlogCount, now);
        if b < backlogCount {
          var item, status := backlog[b], AbortStatus(gate, backlog[b], now);
          RemoveBacklogEntry(b);
          hand := Charged(item, status);
        } else {
          found := false;
        }
      }
      Took(w, t, Reap(now));
    }

    /** A list taken from the active queue or from the backlog, as `active` says. */
    method CompleteHeld(active: bool)
      requires Valid() && (if active then hand.Removed? else hand.Charged?)
      modifies this, entries, backlog
      ensures Valid() && hand == Idle && WroteOk(log) == old(WroteOk(log)) && old(log) <= log
      ensures Gained(old(log), log, Returned(old(hand).item.ticket, old(hand).status))
      ensures completed == old(completed) + 1
      ensures tick >= old(tick)
      ensures GateQuiet() && old(gate) != Success ==> Finished(old(W()), W(), old(hand))
      ensures Frozen() ==> Calm(old(W()), W(), clock(0))
    {
      hide IsRun, WroteOk, Finished, Calm, Gained;
      if active { Complete(); } else { CompleteBacklog(); }
    }

    /** One turn of the cleanup loop. The clock is read before the lock is taken. */
    method CleanupTurn() returns (found: bool)
      requires Valid() && hand == Idle
      modifies this, entries, backlog
      ensures Valid() && hand == Idle && WroteOk(log) == old(WroteOk(log)) && old(log) <= log
      ensures Frozen() ==> DoomedIn(W(), clock(0)) == (if found then old(DoomedIn(W(), clock(0))) - 1 else 0)
      ensures tick >= old(tick)
    {
      hide IsRun, WroteOk, DoomedIn, Finished;
      var now := clock(tick);
      Interfere();
      ghost var w := W();
      var any, active := ReapRegion(now);
      found := any;
      if Frozen() { ReapRemovesOne(w, now); }
      ReapWritesNothing(w, now);
      if found { CompleteHeld(active); }
    }

    /** The cleanup loop at the head of CywTxPump: with the clock and the flags standing still, its 192
        turns leave no cancelled, expired or gate-closed record in either queue. */
    method Cleanup()
      requires Valid() && hand == Idle
      modifies this, entries, backlog
      ensures Valid() && hand == Idle && WroteOk(log) == old(WroteOk(log)) && old(log) <= log
      ensures Frozen() ==> DoomedIn(W(), clock(0)) == 0
      ensures tick >= old(tick)
    {
      hide IsRun, WroteOk, DoomedIn;
      Facts();
      for i := 0 to ACTIVE_LIMIT + BACKLOG_LIMIT
        invariant Valid() && hand == Idle && WroteOk(log) == old(WroteOk(log)) && old(log) <= log
        invariant Frozen() ==> DoomedIn(W(), clock(0)) <= ACTIVE_LIMIT + BACKLOG_LIMIT - i
        invariant tick >= old(tick)
      {
        var found := CleanupTurn();
        if !found { break; }
      }
    }

    method FlushRegion(status: Status) returns (found: bool, active: bool)
      requires Valid() && hand == Idle && status != Success
      modifies this`count, this`frames, this`bytes, this`outstanding, this`completing, this`backlogCount,
        this`backlogFrames, this`backlogBytes, this`hand, this`trace, entries, backlog
      ensures Valid() && W() == Next(old(W()), FlushOne(status)) && found == (hand != Idle)
      ensures found <==> old(count + backlogCount) > 0
      ensures found ==> if active then hand.Removed? else hand.Charged?
    {
      hide IsRun, RemoveActive, RemoveBacklog;
      ghost var w, t := W(), trace;
      found, active := true, false;
      if count > 0 {
        var item := entries[0];
        RemoveEntry(0);
        active, hand := true, Removed(item, status);
      } else if backlogCount > 0 {
        var item := backlog[0];
        RemoveBacklogEntry(0);
        hand := Charged(item, status);
      } else {
        found := false;
      }
      Took(w, t, FlushOne(status));
    }

    /** One turn of the flush: the oldest queued list, active or deferred, goes back to NDIS. */
    method FlushTurn(status: Status) returns (found: bool)
      requires Valid() && hand == Idle && GateQuiet() && gate == status != Success
      modifies this, entries, backlog
      ensures Valid() && hand == Idle && gate == status && accepted == old(accepted)
      ensures WroteOk(log) == old(WroteOk(log))
      ensures found <==> old(count + backlogCount) > 0
      ensures found ==>
        && old(Tickets(Q())) != [] && Tickets(Q()) == old(Tickets(Q()))[1..]
        && count + backlogCount < old(count + backlogCount)
      ensures found ==> log == old(log) + [Returned(old(Tickets(Q()))[0], status)]
      ensures !found ==> log == old(log) && Tickets(Q()) == old(Tickets(Q()))
    {
      hide IsRun, WroteOk, Tickets, Closed, DoomedIn;
      ghost var w0 := W();
      Interfere();
      ghost var w := W();
      ClosedCounts(w0, w);
      FlushTakesFirst(w, status);
      var any, active := FlushRegion(status);
      found := any;
      ghost var w2 := W();
      if found {
        CompleteHeld(active);
        ClosedLog(w0, w);
        CountsAre(w2.q, Q());
      } else {
        ClosedLog(w0, w);
      }
    }

    /** CywTxFlush. While nobody reopens the gate it terminates with both queues empty, every counter at
        zero, and every list that was queued returned once with this status, in acceptance order. */
    method Flush(status: Status)
      requires Valid() && hand == Idle && GateQuiet() && status != Success
      modifies this, entries, backlog
      ensures Valid() && hand == Idle && gate == status && WroteOk(log) == old(WroteOk(log))
      ensures count == 0 && backlogCount == 0
      ensures log == old(log) + Returns(old(Tickets(Q())), status)
      ensures frames == bytes == outstanding == completing == backlogFrames == backlogBytes == 0
      ensures completed == accepted
    {
      hide IsRun, WroteOk, DoomedIn;
      ghost var all, log0, n := Tickets(Q()), log, 0;
      SetGate(status);
      CalmTickets(old(Q()), Q());
      ReturnsNone(all, status);
      var found := true;
      while found
        invariant Valid() && hand == Idle && gate == status && WroteOk(log) == old(WroteOk(log))
        invariant n <= |all| && Tickets(Q()) == all[n..] && log == log0 + Returns(all[..n], status)
        invariant !found ==> count + backlogCount == 0
        decreases count + backlogCount, found
      {
        ghost var log1 := log;
        found := FlushTurn(status);
        if found {
          ReturnsOne(all, n, status);
          n := n + 1;
        }
      }
      assert all[..n] == all;
      EmptyCounts();
    }

    /** With both queues empty and nothing in hand, every counter reads zero. */
    lemma EmptyCounts()
      requires Valid() && hand == Idle && count == 0 && backlogCount == 0
      ensures frames == bytes == outstanding == completing == backlogFrames == backlogBytes == 0
      ensures completed == accepted
    {
      hide IsRun, Traced;
      Facts();
    }

    /** CywTxSubmitWithBacklog: the gate is peeked at, the chain is measured outside the lock, and the
        gate is looked at again under it. */
    method Submit(nbl: Nbl) returns (pending: bool, why: Status)
      requires Valid()
      modifies this, entries, backlog
      ensures Valid() && Undisturbed(old(W()), W())
      ensures (!pending && why == gate != Success)
        || (trace != [] && trace[|trace| - 1].Submit? && trace[|trace| - 1].nbl == nbl)
      ensures pending ==>
        && PrepareStatus(nbl.lens) == Success && accepted > old(accepted) && log != []
        && log[|log| - 1] == Accepted(accepted - 1, nbl)
      ensures !pending ==>
        why == (if gate != Success then gate
        else if PrepareStatus(nbl.lens) != Success then PrepareStatus(nbl.lens)
        else Resources)
      ensures env(old(tick)) == env(old(tick) + 1) == [] ==>
        (pending <==>
          (old(gate) == Success && PrepareStatus(nbl.lens) == Success
           && old(Admits(Q(), MakeItem(accepted, nbl, clock(tick + 2))))))
    {
      hide IsRun, Undisturbed, DoomedIn, Closed, PrepareStatus;
      ghost var w0 := W();
      Interfere();
      if gate != Success { return false, gate; }
      ghost var w1 := W();
      Interfere();
      UndisturbedTransitive(w0, w1, W());
      ghost var w2 := W();
      var stamp := clock(tick);
      pending, why := SubmitLocked(nbl, stamp);
      ExternalUndisturbs(w2, Step.Submit(nbl, stamp));
      UndisturbedTransitive(w0, w2, W());
    }

    /** CywTxOutstanding, the count Pause and D3 poll: zero means that every accepted list is back. */
    method Outstanding() returns (n: int)
      requires Valid()
      ensures n == accepted - completed >= 0
      ensures n == 0 ==>
        !hand.Removed? && !hand.Charged? && !hand.Called? && forall t: nat :: t < accepted ==> WasReturned(log, t)
    {
      hide IsRun, Traced;
      n := outstanding + backlogCount + completing;
      Facts();
      if n == 0 { ZeroMeansAllReturned(W()); }
    }

    /** The region that looks at the head before a transfer. */
    method PickRegion(now: Time) returns (picked: Picked, head: Item)
      requires Valid() && hand == Idle
      modifies this`count, this`frames, this`bytes, this`outstanding, this`backlogCount, this`backlogFrames,
        this`backlogBytes, this`hand, this`trace, entries, backlog
      ensures Valid() && W() == Next(old(W()), Pick(now)) && log == old(log) && completed == old(completed)
      ensures picked == Nothing ==> hand == Idle && count == 0 && !CanPromote(Q())
      ensures picked == Dropped ==> hand.Removed? && hand.status != Success
      ensures picked == Ready ==> hand == Sending && count > 0 && head == entries[0]
    {
      hide IsRun, AbortStatus, CanPromote, RemoveActive, TxMachine.PromoteOne;
      ghost var w, t := W(), trace;
      if count == 0 { var _ := PromoteOne(); }
      picked, head := Nothing, ZERO_ITEM;
      if count > 0 {
        head := entries[0];
        var status := AbortStatus(gate, head, now);
        if status != Success {
          RemoveEntry(0);
          picked, hand := Dropped, Removed(head, status);
        } else {
          picked, hand := Ready, Sending;
        }
      }
      Took(w, t, Pick(now));
    }

    /** The pump's look at the head: nothing there, one list dropped and completed, or the head in the worker's
        hand, still in its place when the lock is free again. */
    method PickOrDrop() returns (picked: Picked, head: Item)
      requires Valid() && hand == Idle
      modifies this, entries, backlog
      ensures Valid() && old(log) <= log && WroteOk(log) == WroteOk(old(log))
      ensures picked == Nothing ==> hand == Idle && count == 0 && !CanPromote(Q())
      ensures picked == Dropped ==> hand == Idle && GaveBack(old(log), log) && completed == old(completed) + 1
      ensures tick >= old(tick)
      ensures picked == Ready ==> hand == Sending && count > 0 && SameButFlag(head, entries[0])
    {
      hide IsRun, WroteOk, CanPromote, DoomedIn, Closed, Calm, Finished, AbortStatus, Gained;
      Interfere();
      ghost var w0 := W();
      picked, head := PickRegion(clock(tick));
      if picked == Nothing { return; }
      if picked == Dropped {
        ghost var held := hand;
        Complete();
        GainedWithin(old(log), w0.log, log, log, Returned(held.item.ticket, held.status));
        return;
      }
      ghost var w := W();
      Interfere();
      assert SameButFlag(w.q.active[0], entries[..count][0]);
    }

    /** The transport has answered for the head buffer. */
    ghost method Handed(outcome: Outcome)
      requires Valid() && hand == Sending && count > 0
      modifies this`hand, this`log, this`trace
      ensures Valid() && W() == Next(old(W()), Transfer(outcome)) && Q() == old(Q())
      ensures hand == if outcome == Busy then Idle else Settling(outcome)
      ensures outcome in {Sent, Fault} ==>
        log == old(log) + [Written(entries[0].ticket, entries[0].next, outcome == Sent)]
      ensures outcome in {Busy, Unmapped} ==> log == old(log)
    {
      hide IsRun;
      var w, t := W(), trace;
      var head := entries[0];
      match outcome {
        case Busy => hand := Idle;
        case Unmapped => hand := Settling(outcome);
        case Sent => hand, log := Settling(outcome), log + [Written(head.ticket, head.next, true)];
        case Fault => hand, log := Settling(outcome), log + [Written(head.ticket, head.next, false)];
      }
      Took(w, t, Transfer(outcome));
    }

    /** The head, and every record behind it, has buffers left. */
    lemma HeadWaits()
      requires Valid()
      ensures hand.Settling? || hand.Sending? ==> count > 0
      ensures forall i :: 0 <= i < count ==> entries[i].frames > 0 && entries[i].next < |entries[i].nbl.lens|
    {
      hide IsRun, Traced, Counted;
      EveryRunIsSafe(trace, W());
      forall i | 0 <= i < count ensures entries[i].frames > 0 && entries[i].next < |entries[i].nbl.lens| {
        assert entries[i] == All(Q())[i];
      }
    }

    lemma HeadAccepted()
      requires Valid() && count > 0
      ensures Accepted(entries[0].ticket, entries[0].nbl) in log
    {
      hide IsRun, Counted, Ordered;
      EveryRunIsSafe(trace, W());
      assert entries[0] == All(Q())[0];
    }

    method AdvanceHead(next: nat)
      requires Shape() && count > 0 && entries[0].frames > 0 && next == entries[0].next + 1
      modifies entries
      ensures Shape() && Q() == old(Q()).(active := old(Q().active)[0 := Advanced(old(entries[0]))])
    {
      entries[0] := entries[0].(next := next, frames := entries[0].frames - 1);
    }

    /** The region after a transfer: cancellation and gate are looked at again before completing. The
        caller's chain pointer was read before the transfer; it must still be the head's. */
    method SettleRegion(sent: bool, next: nat, now: Time) returns (status: Status, removed: bool)
      requires Valid() && hand.Settling? && sent == (hand.outcome == Sent)
      requires sent && count > 0 ==> next == entries[0].next + 1
      modifies this`count, this`frames, this`bytes, this`hand, this`trace, entries
      ensures Valid() && old(count > 0 && entries[0].frames > 0) && W() == Next(old(W()), Settle(now))
      ensures removed ==> hand.Removed? && hand.item.ticket == old(entries[0].ticket)
      ensures removed == hand.Removed?
      ensures if removed then hand.status == status else hand == Idle && status == Success && sent
      ensures log == old(log) && (!sent ==> status != Success)
    {
      hide IsRun, AbortStatus;
      HeadWaits();
      ghost var w, t := W(), trace;
      status := AbortStatus(gate, entries[0], now);
      if sent {
        AdvanceHead(next);
      } else if status == Success {
        status := Failure;
      }
      hand, removed := Idle, false;
      if status != Success || entries[0].frames == 0 {
        var item := entries[0];
        RemoveEntry(0);
        hand, removed := Removed(item, status), true;
      }
      Took(w, t, Settle(now));
    }

    /** CywTxBurstPendingFrames: how many of the next waiting buffers are small, up to the budget and four. */
    method BurstPendingFrames(remaining: nat) returns (pending: nat)
      requires Valid()
      ensures pending <= remaining && pending <= Wire.BURST_MAX
      ensures pending ==
        if gate != Success then 0
        else LeadingSmall(Waiting(entries[..count]), if remaining > Wire.BURST_MAX then Wire.BURST_MAX else remaining)
    {
      hide IsRun, LeadingSmall, Waiting;
      var cap := if remaining > Wire.BURST_MAX then Wire.BURST_MAX else remaining;
      pending := 0;
      NoneLeading(Waiting(entries[..count]));
      if cap == 0 || gate != Success { return; }
      HeadWaits();
      ghost var items := entries[..count];
      var i := 0;
      while i < count && pending < cap
        invariant i <= count && pending <= cap
        invariant LeadingSmall(Waiting(items), cap) == pending + LeadingSmall(Waiting(items[i..]), cap - pending)
      {
        ghost var rest := Waiting(items[i + 1..]);
        WaitingStep(items, i);
        var n, big := CountSmall(entries[i].nbl.lens, entries[i].next, rest, cap - pending);
        pending := pending + n;
        if big { return; }
        i := i + 1;
      }
      NoneLeading(Waiting(items[i..]));
      NoneWaiting(items);
    }

    /** The small buffers in front of one list's rest, and whether a big one stopped the count. */
    static method CountSmall(lens: seq<nat>, next: nat, ghost rest: seq<nat>, cap: nat) returns (n: nat, big: bool)
      requires next <= |lens| && cap > 0
      ensures n <= cap
      ensures LeadingSmall(lens[next..] + rest, cap) == n + if big then 0 else LeadingSmall(rest, cap - n)
    {
      hide LeadingSmall;
      var k := next;
      n, big := 0, false;
      while k < |lens| && n < cap
        invariant next <= k <= |lens| && n <= cap
        invariant LeadingSmall(lens[next..] + rest, cap) == n + LeadingSmall(lens[k..] + rest, cap - n)
      {
        OneLeading(lens, k, rest, cap - n);
        if !Small(lens[k]) { return n, true; }
        n, k := n + 1, k + 1;
      }
      NoneLeading(lens[k..] + rest);
      NoneLeading(rest);
      if n < cap { assert lens[k..] + rest == rest; }
    }
  }

  lemma {:induction false} WaitingStep(items: seq<Item>, i: nat)
    requires i < |items| && items[i].next <= |items[i].nbl.lens|
    ensures Waiting(items[i..]) == items[i].nbl.lens[items[i].next..] + Waiting(items[i + 1..])
  {
    assert items[i..][1..] == items[i + 1..];
  }

  lemma {:induction false} NoneWaiting(items: seq<Item>)
    ensures Waiting(items[|items|..]) == [] && items[0..] == items
  {}

  lemma {:induction false} NoneLeading(lens: seq<nat>)
    ensures LeadingSmall(lens, 0) == 0
    ensures forall cap: nat :: lens == [] ==> LeadingSmall(lens, cap) == 0
  {}

  lemma {:induction false} OneLeading(lens: seq<nat>, k: nat, rest: seq<nat>, cap: nat)
    requires k < |lens| && cap > 0
    ensures LeadingSmall(lens[k..] + rest, cap) ==
      if Small(lens[k]) then 1 + LeadingSmall(lens[k + 1..] + rest, cap - 1) else 0
  {
    assert (lens[k..] + rest)[1..] == lens[k + 1..] + rest;
  }

  /** The lengths of the buffers still to be sent, across lists, in sending order. */
  function Waiting(items: seq<Item>): seq<nat> {
    if items == [] then []
    else (if items[0].next <= |items[0].nbl.lens| then items[0].nbl.lens[items[0].next..] else []) + Waiting(items[1..])
  }

  /** Length of the longest run of small buffers at the front, cut at `cap`. */
  function LeadingSmall(lens: seq<nat>, cap: nat): (r: nat)
    ensures r <= cap && r <= |lens| && (forall i :: 0 <= i < r ==> Small(lens[i]))
    ensures r < cap && r < |lens| ==> !Small(lens[r])
  {
    if cap == 0 || lens == [] || !Small(lens[0]) then 0 else 1 + LeadingSmall(lens[1..], cap - 1)
  }

  function Returns(tickets: seq<nat>, status: Status): (r: seq<Event>)
    ensures |r| == |tickets| && forall i :: 0 <= i < |r| ==> r[i] == Returned(tickets[i], status)
  {
    seq(|tickets|, i requires 0 <= i < |tickets| => Returned(tickets[i], status))
  }

  lemma {:induction false} ReturnsNone(all: seq<nat>, status: Status)
    ensures Returns(all[..0], status) == [] && all[0..] == all
  {}

  lemma {:induction false} ReturnsOne(all: seq<nat>, n: nat, status: Status)
    requires n < |all|
    ensures Returns(all[..n + 1], status) == Returns(all[..n], status) + [Returned(all[n], status)]
    ensures all[n..][1..] == all[n + 1..]
  {}

  lemma {:induction false} CalmTickets(q: Queue, r: Queue)
    requires r.active == q.active && r.backlog == q.backlog
    ensures Tickets(r) == Tickets(q)
  {}

  lemma {:induction false} ReapWritesNothing(w: World, now: Time)
    requires w.hand == Idle
    ensures Next(w, Reap(now)).log == w.log
  {
    hide FirstAbort;
  }

  lemma {:induction false} ClosedCounts(w: World, w': World)
    requires Closed(w, w')
    ensures Tickets(w'.q) == Tickets(w.q) && |w'.q.active| + |w'.q.backlog| == |w.q.active| + |w.q.backlog|
  {}

  lemma {:induction false} ClosedLog(w: World, w': World)
    requires Closed(w, w')
    ensures w'.log == w.log && w'.accepted == w.accepted
  {}

  lemma {:induction false} CountsAre(q: Queue, r: Queue)
    requires |Tickets(q)| == |Tickets(r)|
    ensures |q.active| + |q.backlog| == |r.active| + |r.backlog|
  {}

  /** Each turn of a flush takes the oldest list. */
  lemma {:induction false} FlushTakesFirst(w: World, status: Status)
    requires w.hand == Idle && w.q.gate != Success && status != Success
    ensures var w' := Next(w, FlushOne(status)); w'.log == w.log && w'.accepted == w.accepted && w'.q.gate == w.q.gate
    ensures All(w.q) == [] ==> Next(w, FlushOne(status)) == w
    ensures All(w.q) != [] ==> var w' := Next(w, FlushOne(status));
      && Tickets(w'.q) == Tickets(w.q)[1..] && |w'.q.active| + |w'.q.backlog| == |w.q.active| + |w.q.backlog| - 1
      && (w'.hand.Removed? || w'.hand.Charged?) && w'.hand.item.ticket == Tickets(w.q)[0] && w'.hand.status == status
  {
    var w' := Next(w, FlushOne(status));
    if w.q.active == [] && w.q.backlog != [] { ClosedGatePromotesNothing(CutBacklog(w.q, 0)); }
    if |w.q.active| + |w.q.backlog| > 0 {
      assert All(w'.q) == All(w.q)[1..];
      assert Tickets(w'.q) == Tickets(w.q)[1..];
    }
  }

  /** A completion under a closed gate: one list is given back, nothing else is admitted or moved. */
  ghost predicate Finished(w: World, w': World, held: Hand)
    requires held.Removed? || held.Charged?
  {
    && w'.q.gate == w.q.gate && w'.accepted == w.accepted
    && |w'.q.active| == |w.q.active| && |w'.q.backlog| == |w.q.backlog| && Tickets(w'.q) == Tickets(w.q)
    && w'.log == w.log + [Returned(held.item.ticket, held.status)]
  }

  /** The number of entries that must go has not changed. */
  predicate Calm(w: World, w': World, now: Time) {
    w'.q.gate == w.q.gate && DoomedIn(w', now) == DoomedIn(w, now)
  }

  lemma {:induction false} CalmSteps(w: World, w': World, now: Time)
    requires w'.q.gate == w.q.gate && w'.q.active == w.q.active && w'.q.backlog == w.q.backlog
    ensures Calm(w, w', now) && Tickets(w'.q) == Tickets(w.q)
  {}

  lemma {:induction false} FinishedSteps(w0: World, w1: World, w2: World, w3: World, w4: World, held: Hand)
    requires held.Charged? && Closed(w0, w1) && Closed(w2, w3)
    requires w2.q == w1.q && w2.log == w1.log + [Returned(held.item.ticket, held.status)] && w2.accepted == w1.accepted
    requires w4.q == w3.q.(completing := w3.q.completing - 1) && w4.log == w3.log && w4.accepted == w3.accepted
    ensures Finished(w0, w4, held)
  {
    hide Tickets;
    CalmSteps(w3, w4, 0);
  }

  lemma {:induction false} FinishedRelease(w0: World, w1: World, w2: World, w3: World)
    requires w1.hand.Removed? && w1.q.outstanding > 0 && w0.hand == w1.hand && w0.q.gate != Success
    requires Closed(w0, w1) && w2 == Next(w1, Release) && Finished(w2, w3, w2.hand)
    ensures Finished(w0, w3, w0.hand)
  {
    hide Tickets;
    ClosedGatePromotesNothing(w1.q.(outstanding := w1.q.outstanding - 1));
    CalmSteps(w1, w2, 0);
  }

  lemma SameWorld(w: World)
    ensures Undisturbed(w, w) && Closed(w, w)
  {}

  lemma ClosedTransitive(a: World, b: World, c: World)
    requires Closed(a, b) && Closed(b, c)
    ensures Closed(a, c)
  {}

  lemma ReturnWritesNothing(log: seq<Event>, e: Event)
    requires e.Returned?
    ensures WroteOk(log + [e]) == WroteOk(log)
  {
    assert (log + [e])[..|log|] == log;
  }
}
