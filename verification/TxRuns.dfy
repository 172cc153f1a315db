/** Every step keeps the invariant; so does every run. */
module TxRuns {
  import opened TxTypes
  import opened TxMachine
  import opened TxSafety

  // ---------------------------------------------------------------- sums

  lemma {:induction false} SumHeldConcat(a: seq<Item>, b: seq<Item>)
    ensures SumHeld(a + b) == SumHeld(a) + SumHeld(b) && SumBytes(a + b) == SumBytes(a) + SumBytes(b)
    decreases |b|
  {
    if b == [] {
      assert a + b == a;
    } else {
      assert (a + b)[..|a + b| - 1] == a + b[..|b| - 1];
      SumHeldConcat(a, b[..|b| - 1]);
    }
  }

  lemma {:induction false} SumsOne(item: Item)
    ensures SumHeld([item]) == item.heldFrames && SumBytes([item]) == item.bytes
  {
    assert [item][..0] == [];
  }

  lemma {:induction false} SumsWithout(items: seq<Item>, i: nat)
    requires i < |items|
    ensures SumHeld(Without(items, i)) == SumHeld(items) - items[i].heldFrames
    ensures SumBytes(Without(items, i)) == SumBytes(items) - items[i].bytes
  {
    hide SumHeld, SumBytes;
    var before, one, after := items[..i], [items[i]], items[i + 1..];
    assert items == before + (one + after);
    SumHeldConcat(before, one + after);
    SumHeldConcat(one, after);
    SumHeldConcat(before, after);
    SumsOne(items[i]);
  }

  lemma {:induction false} SumsAppend(items: seq<Item>, item: Item)
    ensures SumHeld(items + [item]) == SumHeld(items) + item.heldFrames
    ensures SumBytes(items + [item]) == SumBytes(items) + item.bytes
  {
    assert (items + [item])[..|items|] == items;
  }

  /** The sums only see held frames and bytes. */
  lemma {:induction false} SumsCongruent(a: seq<Item>, b: seq<Item>)
    requires |a| == |b|
    requires forall i :: 0 <= i < |a| ==> a[i].heldFrames == b[i].heldFrames && a[i].bytes == b[i].bytes
    ensures SumHeld(a) == SumHeld(b) && SumBytes(a) == SumBytes(b)
  {
    if a != [] { SumsCongruent(a[..|a| - 1], b[..|b| - 1]); }
  }

  lemma {:induction false} SumHeldAtLeastCount(items: seq<Item>)
    requires forall i :: 0 <= i < |items| ==> items[i].heldFrames > 0
    ensures SumHeld(items) >= |items|
  {
    if items != [] { SumHeldAtLeastCount(items[..|items| - 1]); }
  }

  // ---------------------------------------------------------------- promotion

  /** What promotion may and may not touch: the frame, the order, every sum, and no overtaking. */
  ghost predicate Promoted(q: Queue, r: Queue) {
    && All(r) == All(q)
    && |r.active| >= |q.active| && r.active[..|q.active|] == q.active
    && r.gate == q.gate && r.completing == q.completing
    && r.outstanding - |r.active| == q.outstanding - |q.active|
    && r.frames - SumHeld(r.active) == q.frames - SumHeld(q.active)
    && r.bytes - SumBytes(r.active) == q.bytes - SumBytes(q.active)
    && r.backlogFrames - SumHeld(r.backlog) == q.backlogFrames - SumHeld(q.backlog)
    && r.backlogBytes - SumBytes(r.backlog) == q.backlogBytes - SumBytes(q.backlog)
    && r.backlogFrames <= q.backlogFrames
    && (q.frames <= ACTIVE_LIMIT ==> r.frames <= ACTIVE_LIMIT)
    && |r.backlog| <= |q.backlog| && r.backlog == q.backlog[|q.backlog| - |r.backlog|..]
  }

  lemma {:induction false} SumsSplitFirst(items: seq<Item>)
    requires items != []
    ensures SumHeld(items) == items[0].heldFrames + SumHeld(items[1..])
    ensures SumBytes(items) == items[0].bytes + SumBytes(items[1..])
  {
    SumsOne(items[0]);
    SumHeldConcat([items[0]], items[1..]);
    assert items == [items[0]] + items[1..];
  }

  lemma {:induction false} MoveFirst<T>(a: seq<T>, b: seq<T>)
    requires b != []
    ensures (a + [b[0]]) + b[1..] == a + b && (a + [b[0]])[..|a|] == a
  {}

  lemma {:induction false} PromoteOneKeeps(q: Queue)
    requires CanPromote(q)
    ensures Promoted(q, PromoteOne(q))
  {
    MoveFirst(q.active, q.backlog);
    SumsAppend(q.active, q.backlog[0]);
    SumsSplitFirst(q.backlog);
  }

  lemma {:induction false} PromoteAllKeeps(q: Queue)
    ensures Promoted(q, PromoteAll(q)) && !CanPromote(PromoteAll(q))
    decreases |q.backlog|
  {
    if CanPromote(q) {
      var p := PromoteOne(q);
      PromoteOneKeeps(q);
      PromoteAllKeeps(p);
      var r := PromoteAll(p);
      assert r.active[..|q.active|] == r.active[..|p.active|][..|q.active|];
    }
  }

  // ---------------------------------------------------------------- steps on the traced queue

  lemma {:induction false} LogAccept(log: seq<Event>, nbl: Nbl)
    requires LogSafe(log) && PrepareStatus(nbl.lens) == Success
    ensures var log' := log + [Accepted(Acceptances(log), nbl)];
      LogSafe(log') && Acceptances(log') == Acceptances(log) + 1 && Unreturned(log', Acceptances(log))
  {
    var e := Accepted(Acceptances(log), nbl);
    assert (log + [e])[..|log|] == log;
    forall d | d in log && d.Returned? ensures d.ticket < Acceptances(log) {
      ReturnedWereAccepted(log, d);
    }
  }

  lemma {:induction false} AcceptAccounted(all: seq<Item>, hand: Hand, log: seq<Event>, accepted: nat, item: Item,
                                           e: Event)
    requires Accounted(all, hand, log, accepted) && item.ticket == accepted
    ensures Accounted(all + [item], hand, log + [e], accepted + 1)
  {
    var all', log' := all + [item], log + [e];
    forall t: nat | t < accepted + 1 ensures Queued(all', t) || InHand(hand, t) || WasReturned(log', t) {
      if t == accepted {
        assert all'[|all|].ticket == t;
      } else if Queued(all, t) {
        var i :| 0 <= i < |all| && all[i].ticket == t;
        assert all'[i].ticket == t;
      } else if WasReturned(log, t) {
        var status :| Returned(t, status) in log;
        assert Returned(t, status) in log';
      }
    }
  }

  lemma {:induction false} TracedAppend(item: Item, log: seq<Event>, e: Event)
    requires ItemTraced(item, log) && !e.Returned?
    ensures ItemTraced(item, log + [e])
  {}

  lemma {:induction false} AcceptHeadFresh(all: seq<Item>, hand: Hand, log: seq<Event>, accepted: nat, item: Item,
                                           e: Event)
    requires HeadFresh(all, hand, log) && e.Accepted? && item.ticket == accepted
    requires forall d :: d in log && d.Written? ==> d.ticket < accepted
    ensures HeadFresh(all + [item], hand, log + [e])
  {
    if all != [] { assert (all + [item])[0] == all[0]; }
  }

  lemma {:induction false} OrderedAppend(all: seq<Item>, accepted: nat, nbl: Nbl, stamp: Time)
    requires Ordered(all, accepted) && PrepareStatus(nbl.lens) == Success
    ensures Ordered(all + [MakeItem(accepted, nbl, stamp)], accepted + 1)
  {}

  lemma {:induction false} TraceAccept(all: seq<Item>, hand: Hand, log: seq<Event>, accepted: nat, nbl: Nbl,
                                       stamp: Time)
    requires Ordered(all, accepted) && Traced(all, hand, log, accepted)
    requires PrepareStatus(nbl.lens) == Success
    ensures var all' := all + [MakeItem(accepted, nbl, stamp)];
      Ordered(all', accepted + 1) && Traced(all', hand, log + [Accepted(accepted, nbl)], accepted + 1)
  {
    hide LogSafe, HeadFresh, Accounted, PrepareStatus;
    var e, item := Accepted(accepted, nbl), MakeItem(accepted, nbl, stamp);
    var all' := all + [item];
    OrderedAppend(all, accepted, nbl, stamp);
    LogAccept(log, nbl);
    AcceptAccounted(all, hand, log, accepted, item, e);
    AcceptHeadFresh(all, hand, log, accepted, item, e);
    forall i | 0 <= i < |all'| ensures ItemTraced(all'[i], log + [e]) {
      if i < |all| { TracedAppend(all[i], log, e); }
    }
    if hand.Removed? || hand.Charged? { TracedAppend(hand.item, log, e); }
  }

  lemma {:induction false} ReturnedWereAccepted(log: seq<Event>, d: Event)
    requires LogSafe(log) && d in log && d.Returned?
    ensures d.ticket < Acceptances(log)
  {
    var m := |log| - 1;
    if d == log[m] {
      var nbl :| Accepted(d.ticket, nbl) in log[..m];
      AcceptancesBound(log[..m], Accepted(d.ticket, nbl));
    } else {
      ReturnedWereAccepted(log[..m], d);
    }
  }

  ghost predicate SameButFlag(a: Item, b: Item) { b == a || b == a.(cancelled := true) }

  lemma {:induction false} OrderedFlags(all: seq<Item>, all': seq<Item>, accepted: nat)
    requires Ordered(all, accepted)
    requires |all'| == |all| && forall i :: 0 <= i < |all| ==> SameButFlag(all[i], all'[i])
    ensures Ordered(all', accepted)
  {}

  lemma {:induction false} HeadFreshFlags(all: seq<Item>, all': seq<Item>, hand: Hand, log: seq<Event>)
    requires HeadFresh(all, hand, log)
    requires |all'| == |all| && (all != [] ==> SameButFlag(all[0], all'[0]))
    ensures HeadFresh(all', hand, log)
  {}

  /** Changing cancel flags changes nothing the history depends on. */
  lemma {:induction false} TraceFlags(all: seq<Item>, all': seq<Item>, hand: Hand, log: seq<Event>, accepted: nat)
    requires Ordered(all, accepted) && Traced(all, hand, log, accepted)
    requires |all'| == |all| && forall i :: 0 <= i < |all| ==> SameButFlag(all[i], all'[i])
    ensures Ordered(all', accepted) && Traced(all', hand, log, accepted)
  {
    OrderedFlags(all, all', accepted);
    HeadFreshFlags(all, all', hand, log);
    SameTicketsAccounted(all, all', hand, log, accepted);
  }

  lemma {:induction false} SameTicketsAccounted(all: seq<Item>, all': seq<Item>, hand: Hand, log: seq<Event>,
                                                accepted: nat)
    requires |all| == |all'| && forall i :: 0 <= i < |all| ==> all'[i].ticket == all[i].ticket
    requires Accounted(all, hand, log, accepted)
    ensures Accounted(all', hand, log, accepted)
  {
    forall t: nat | t < accepted ensures Queued(all', t) || InHand(hand, t) || WasReturned(log, t) {
      if Queued(all, t) {
        var i :| 0 <= i < |all| && all[i].ticket == t;
        assert all'[i].ticket == t;
      }
    }
  }

  lemma {:induction false} OrderedWithout(all: seq<Item>, i: nat, accepted: nat)
    requires i < |all| && Ordered(all, accepted)
    ensures Ordered(Without(all, i), accepted)
    ensures forall j :: 0 <= j < |all| - 1 ==> Without(all, i)[j] == if j < i then all[j] else all[j + 1]
    ensures forall j :: 0 <= j < |all| - 1 ==> Without(all, i)[j].ticket != all[i].ticket
  {}

  lemma {:induction false} HeadFreshWithout(all: seq<Item>, i: nat, log: seq<Event>)
    requires i < |all| && Fresh(log, all[0])
    requires forall e :: e in log && e.Written? ==> forall j :: 0 < j < |all| ==> e.ticket < all[j].ticket
    ensures Without(all, i) != [] ==> Fresh(log, Without(all, i)[0])
  {
    if i == 0 && |all| > 1 {
      assert Without(all, i)[0] == all[1];
    }
  }

  /** Taking record i out of the queue into the worker's hand. */
  lemma {:induction false} TraceTake(all: seq<Item>, i: nat, log: seq<Event>, accepted: nat, hand: Hand)
    requires i < |all| && Ordered(all, accepted) && Traced(all, Idle, log, accepted)
    requires (hand.Removed? || hand.Charged?) && hand.item == all[i] && hand.status != Success
    ensures Ordered(Without(all, i), accepted) && Traced(Without(all, i), hand, log, accepted)
  {
    OrderedWithout(all, i, accepted);
    HeadFreshWithout(all, i, log);
    TakeAccounted(all, i, log, accepted, hand);
  }

  lemma {:induction false} TakeAccounted(all: seq<Item>, i: nat, log: seq<Event>, accepted: nat, hand: Hand)
    requires i < |all| && Accounted(all, Idle, log, accepted)
    requires (hand.Removed? || hand.Charged?) && hand.item.ticket == all[i].ticket
    ensures Accounted(Without(all, i), hand, log, accepted)
  {
    var all' := Without(all, i);
    forall t: nat | t < accepted ensures Queued(all', t) || InHand(hand, t) || WasReturned(log, t) {
      if Queued(all, t) {
        var j :| 0 <= j < |all| && all[j].ticket == t;
        if j < i { assert all'[j].ticket == t; } else if j > i { assert all'[j - 1].ticket == t; }
      }
    }
  }

  lemma {:induction false} TraceReturn(all: seq<Item>, hand: Hand, log: seq<Event>, accepted: nat)
    requires hand.Charged? && Ordered(all, accepted) && Traced(all, hand, log, accepted)
    ensures Traced(all, Called(hand.item, hand.status), log + [Returned(hand.item.ticket, hand.status)], accepted)
  {
    var e := Returned(hand.item.ticket, hand.status);
    var log' := log + [e];
    assert log'[..|log|] == log;
    assert forall d :: d in log' <==> d in log || d == e;
    assert Accepted(hand.item.ticket, hand.item.nbl) in log;
    assert Admissible(log, e);
    forall t: nat | t < accepted
      ensures Queued(all, t) || InHand(Called(hand.item, hand.status), t) || WasReturned(log', t) {
      if InHand(hand, t) {
        assert Returned(t, hand.status) in log';
      } else if WasReturned(log, t) {
        var status :| Returned(t, status) in log;
        assert Returned(t, status) in log';
      }
    }
  }

  lemma {:induction false} TraceWrite(all: seq<Item>, log: seq<Event>, accepted: nat, ok: bool)
    requires all != [] && Ordered(all, accepted) && Traced(all, Sending, log, accepted)
    ensures Traced(all, Settling(if ok then Sent else Fault), log + [Written(all[0].ticket, all[0].next, ok)], accepted)
  {
    var head := all[0];
    var e := Written(head.ticket, head.next, ok);
    var log' := log + [e];
    assert log'[..|log|] == log;
    assert forall d :: d in log' <==> d in log || d == e;
    assert Accepted(head.ticket, head.nbl) in log && head.next < |head.nbl.lens|;
    assert Admissible(log, e);
    forall t: nat | t < accepted ensures Queued(all, t) || InHand(Sending, t) || WasReturned(log', t) {
      if WasReturned(log, t) {
        var status :| Returned(t, status) in log;
        assert Returned(t, status) in log';
      }
    }
  }

  /** The head stays queued with its pointer advanced. */
  lemma {:induction false} TraceAdvance(all: seq<Item>, log: seq<Event>, accepted: nat)
    requires all != [] && Ordered(all, accepted) && Traced(all, Settling(Sent), log, accepted) && all[0].frames > 1
    ensures var all' := all[0 := Advanced(all[0])]; Ordered(all', accepted) && Traced(all', Idle, log, accepted)
  {
    var all' := all[0 := Advanced(all[0])];
    assert ItemTraced(all'[0], log);
    forall e | e in log && e.Written? ensures Precedes(e, all'[0].ticket, all'[0].next) {
      if e != Written(all[0].ticket, all[0].next, true) { assert Precedes(e, all[0].ticket, all[0].next); }
    }
    SameTicketsAccounted(all, all', Settling(Sent), log, accepted);
    assert Accounted(all', Idle, log, accepted) by {
      forall t: nat | t < accepted ensures Queued(all', t) || InHand(Idle, t) || WasReturned(log, t) {
        assert Queued(all', t) || InHand(Settling(Sent), t) || WasReturned(log, t);
      }
    }
  }

  /** The head leaves after its transport call, as updated by it. */
  lemma {:induction false} TraceSettleOut(all: seq<Item>, outcome: Outcome, log: seq<Event>, accepted: nat, head: Item,
                                          status: Status)
    requires all != [] && Ordered(all, accepted) && Traced(all, Settling(outcome), log, accepted)
    requires head == if outcome == Sent then Advanced(all[0]) else all[0]
    requires status == Success ==> head.frames == 0
    ensures Ordered(all[1..], accepted) && Traced(all[1..], Removed(head, status), log, accepted)
  {
    assert ItemTraced(all[0], log);
    assert outcome == Sent ==> Written(all[0].ticket, all[0].next, true) in log;
    assert ItemTraced(head, log);
    var rest := all[1..];
    assert forall i :: 0 <= i < |rest| ==> rest[i] == all[i + 1];
    forall t: nat | t < accepted ensures Queued(rest, t) || InHand(Removed(head, status), t) || WasReturned(log, t) {
      if Queued(all, t) {
        var i :| 0 <= i < |all| && all[i].ticket == t;
        if i > 0 { assert rest[i - 1].ticket == t; }
      }
    }
  }

  /** Only the kind of hand matters to a history with nothing in flight. */
  lemma {:induction false} TraceIdle(all: seq<Item>, hand: Hand, hand': Hand, log: seq<Event>, accepted: nat)
    requires Traced(all, hand, log, accepted)
    requires hand in {Idle, Sending} || hand.Called? || hand == Settling(Unmapped)
    requires hand' in {Idle, Sending} || hand'.Called? || hand' == Settling(Unmapped)
    ensures Traced(all, hand', log, accepted)
  {
    forall t: nat | t < accepted ensures Queued(all, t) || InHand(hand', t) || WasReturned(log, t) {
      assert Queued(all, t) || InHand(hand, t) || WasReturned(log, t);
    }
  }

  lemma {:induction false} TraceCharge(all: seq<Item>, item: Item, status: Status, log: seq<Event>, accepted: nat)
    requires Traced(all, Removed(item, status), log, accepted)
    ensures Traced(all, Charged(item, status), log, accepted)
  {
    forall t: nat | t < accepted ensures Queued(all, t) || InHand(Charged(item, status), t) || WasReturned(log, t) {
      assert Queued(all, t) || InHand(Removed(item, status), t) || WasReturned(log, t);
    }
  }

  // ---------------------------------------------------------------- steps on the whole world

  lemma {:induction false} ActivateSums(q: Queue, item: Item)
    requires q.frames == SumHeld(q.active) && q.bytes == SumBytes(q.active)
    ensures var r := Activate(q, item); r.frames == SumHeld(r.active) && r.bytes == SumBytes(r.active)
  {
    SumsAppend(q.active, item);
  }

  lemma {:induction false} DeferSums(q: Queue, item: Item)
    requires q.backlogFrames == SumHeld(q.backlog) && q.backlogBytes == SumBytes(q.backlog)
    ensures var r := Defer(q, item); r.backlogFrames == SumHeld(r.backlog) && r.backlogBytes == SumBytes(r.backlog)
  {
    SumsAppend(q.backlog, item);
  }

  lemma {:induction false} SubmitCounted(w: World, item: Item, e: Event)
    requires Counted(w) && Admits(w.q, item)
    ensures Counted(w.(q := Admit(w.q, item), log := w.log + [e], accepted := w.accepted + 1))
  {
    if w.q.backlog == [] && ActiveFits(w.q, item.heldFrames) { ActivateSums(w.q, item); } else { DeferSums(w.q, item); }
  }

  lemma {:induction false} SubmitAppends(q: Queue, item: Item)
    requires Admits(q, item)
    ensures All(Admit(q, item)) == All(q) + [item]
    ensures Deferred(q.backlog) && item.next == 0 ==> Deferred(Admit(q, item).backlog)
  {}

  lemma {:induction false} SubmitKeeps(w: World, nbl: Nbl, stamp: Time)
    requires Inv(w)
    ensures Inv(StepSubmit(w, nbl, stamp))
  {
    hide Traced;
    if StepSubmit(w, nbl, stamp) != w {
      SubmitCounted(w, MakeItem(w.accepted, nbl, stamp), Accepted(w.accepted, nbl));
      SubmitAppends(w.q, MakeItem(w.accepted, nbl, stamp));
      TraceAccept(All(w.q), w.hand, w.log, w.accepted, nbl, stamp);
    }
  }

  lemma {:induction false} CancelKeeps(w: World, cancelId: int)
    requires Inv(w)
    ensures Inv(StepCancel(w, cancelId))
  {
    var w' := StepCancel(w, cancelId);
    SumsCongruent(w.q.active, w'.q.active);
    SumsCongruent(w.q.backlog, w'.q.backlog);
    TraceFlags(All(w.q), All(w'.q), w.hand, w.log, w.accepted);
  }

  lemma {:induction false} TakeActiveCounted(w: World, i: nat, status: Status)
    requires Counted(w) && w.hand == Idle && i < |w.q.active|
    ensures Counted(TakeActive(w, i, status))
  {
    SumsWithout(w.q.active, i);
  }

  lemma {:induction false} WithoutLeft<T>(a: seq<T>, b: seq<T>, i: nat)
    requires i < |a|
    ensures Without(a, i) + b == Without(a + b, i) && (a + b)[i] == a[i]
  {}

  lemma {:induction false} WithoutRight<T>(a: seq<T>, b: seq<T>, i: nat)
    requires i < |b|
    ensures a + Without(b, i) == Without(a + b, |a| + i) && (a + b)[|a| + i] == b[i]
  {}

  lemma {:induction false} TakeActiveKeeps(w: World, i: nat, status: Status)
    requires Inv(w) && w.hand == Idle && i < |w.q.active| && status != Success
    ensures Inv(TakeActive(w, i, status))
  {
    hide Ordered, Traced;
    TakeActiveCounted(w, i, status);
    WithoutLeft(w.q.active, w.q.backlog, i);
    TraceTake(All(w.q), i, w.log, w.accepted, Removed(w.q.active[i], status));
  }

  lemma {:induction false} PromotedDeferred(q: Queue, r: Queue)
    requires Deferred(q.backlog) && Promoted(q, r)
    ensures Deferred(r.backlog)
  {}

  lemma {:induction false} TakeBacklogCounted(w: World, i: nat, status: Status)
    requires Counted(w) && w.hand == Idle && i < |w.q.backlog|
    ensures Counted(TakeBacklog(w, i, status))
  {
    SumsWithout(w.q.backlog, i);
    PromoteAllKeeps(CutBacklog(w.q, i));
  }

  lemma {:induction false} DeferredWithout(backlog: seq<Item>, i: nat)
    requires i < |backlog| && Deferred(backlog)
    ensures Deferred(Without(backlog, i))
  {}

  lemma {:induction false} RemoveBacklogAll(q: Queue, i: nat)
    requires i < |q.backlog|
    ensures All(RemoveBacklog(q, i)) == Without(All(q), |q.active| + i)
    ensures All(q)[|q.active| + i] == q.backlog[i]
  {
    PromoteAllKeeps(CutBacklog(q, i));
    WithoutRight(q.active, q.backlog, i);
  }

  lemma {:induction false} TakeBacklogTraced(q: Queue, r: Queue, i: nat, status: Status, log: seq<Event>, accepted: nat)
    requires Ordered(All(q), accepted) && Traced(All(q), Idle, log, accepted)
    requires i < |q.backlog| && status != Success
    requires All(r) == Without(All(q), |q.active| + i) && All(q)[|q.active| + i] == q.backlog[i]
    ensures Ordered(All(r), accepted) && Traced(All(r), Charged(q.backlog[i], status), log, accepted)
  {
    hide Ordered, Traced;
    TraceTake(All(q), |q.active| + i, log, accepted, Charged(q.backlog[i], status));
  }

  lemma {:induction false} TakeBacklogKeeps(w: World, i: nat, status: Status)
    requires Inv(w) && w.hand == Idle && i < |w.q.backlog| && status != Success
    ensures Inv(TakeBacklog(w, i, status))
  {
    hide Traced;
    TakeBacklogCounted(w, i, status);
    RemoveBacklogAll(w.q, i);
    TakeBacklogTraced(w.q, RemoveBacklog(w.q, i), i, status, w.log, w.accepted);
    PromoteAllKeeps(CutBacklog(w.q, i));
    DeferredWithout(w.q.backlog, i);
    PromotedDeferred(CutBacklog(w.q, i), RemoveBacklog(w.q, i));
  }

  lemma {:induction false} ReapKeeps(w: World, now: Time)
    requires Inv(w) && w.hand == Idle
    ensures Inv(StepReap(w, now))
  {
    hide Inv;
    var a := FirstAbort(w.q.gate, w.q.active, now, 0);
    var b := FirstAbort(w.q.gate, w.q.backlog, now, 0);
    if a < |w.q.active| { TakeActiveKeeps(w, a, AbortStatus(w.q.gate, w.q.active[a], now)); }
    else if b < |w.q.backlog| { TakeBacklogKeeps(w, b, AbortStatus(w.q.gate, w.q.backlog[b], now)); }
  }

  lemma {:induction false} ReleaseCounted(w: World)
    requires Counted(w) && w.hand.Removed?
    ensures Counted(StepRelease(w)) && All(StepRelease(w).q) == All(w.q)
  {
    PromoteAllKeeps(w.q.(outstanding := w.q.outstanding - 1));
  }

  lemma {:induction false} ReleaseKeeps(w: World)
    requires Inv(w) && w.hand.Removed?
    ensures Inv(StepRelease(w))
  {
    hide Ordered, Traced, Counted;
    var q := w.q.(outstanding := w.q.outstanding - 1);
    ReleaseCounted(w);
    PromoteAllKeeps(q);
    PromotedDeferred(q, PromoteAll(q));
    TraceCharge(All(w.q), w.hand.item, w.hand.status, w.log, w.accepted);
  }

  lemma {:induction false} PromoteOneInv(w: World)
    requires Inv(w) && CanPromote(w.q)
    ensures Inv(w.(q := PromoteOne(w.q)))
  {
    hide Ordered, Traced;
    PromoteOneKeeps(w.q);
    PromotedDeferred(w.q, PromoteOne(w.q));
  }

  lemma {:induction false} PickHead(w: World, now: Time)
    requires Inv(w) && w.hand == Idle && w.q.active != []
    ensures Inv(StepPick(w, now))
  {
    hide Ordered, Traced, Deferred;
    var status := AbortStatus(w.q.gate, w.q.active[0], now);
    if status != Success {
      TakeActiveKeeps(w, 0, status);
    } else {
      TraceIdle(All(w.q), Idle, Sending, w.log, w.accepted);
    }
  }

  lemma {:induction false} PickKeeps(w: World, now: Time)
    requires Inv(w) && w.hand == Idle
    ensures Inv(StepPick(w, now))
  {
    hide Inv;
    if w.q.active == [] && CanPromote(w.q) {
      PromoteOneInv(w);
      PickHead(w.(q := PromoteOne(w.q)), now);
    } else if w.q.active != [] {
      PickHead(w, now);
    }
  }

  lemma {:induction false} TransferKeeps(w: World, outcome: Outcome)
    requires Inv(w) && w.hand == Sending && w.q.active != []
    ensures Inv(StepTransfer(w, outcome))
  {
    hide Traced;
    match outcome
    case Busy => TraceIdle(All(w.q), Sending, Idle, w.log, w.accepted);
    case Unmapped => TraceIdle(All(w.q), Sending, Settling(Unmapped), w.log, w.accepted);
    case Sent => TraceWrite(All(w.q), w.log, w.accepted, true);
    case Fault => TraceWrite(All(w.q), w.log, w.accepted, false);
  }

  lemma {:induction false} SettleCounted(w: World, now: Time)
    requires Counted(w) && w.hand.Settling? && w.q.active != [] && w.q.active[0].frames > 0
    ensures Counted(StepSettle(w, now))
  {
    var head := if w.hand.outcome == Sent then Advanced(w.q.active[0]) else w.q.active[0];
    var active := w.q.active[0 := head];
    SumsCongruent(w.q.active, active);
    SumsWithout(active, 0);
  }

  lemma {:induction false} ReplaceHead(a: seq<Item>, b: seq<Item>, head: Item)
    requires a != []
    ensures a[0 := head] + b == (a + b)[0 := head]
    ensures Without(a[0 := head], 0) + b == (a + b)[1..]
  {}

  lemma {:induction false} SettleKeeps(w: World, now: Time)
    requires Inv(w) && w.hand.Settling? && w.q.active != [] && w.q.active[0].frames > 0
    ensures Inv(StepSettle(w, now))
  {
    hide Traced;
    var w' := StepSettle(w, now);
    var outcome := w.hand.outcome;
    var head := if outcome == Sent then Advanced(w.q.active[0]) else w.q.active[0];
    SettleCounted(w, now);
    ReplaceHead(w.q.active, w.q.backlog, head);
    if w'.hand.Removed? {
      TraceSettleOut(All(w.q), outcome, w.log, w.accepted, head, w'.hand.status);
    } else {
      TraceAdvance(All(w.q), w.log, w.accepted);
    }
  }

  lemma {:induction false} GateKeeps(w: World, gate: Status)
    requires Inv(w)
    ensures Inv(w.(q := w.q.(gate := gate)))
  {}

  lemma {:induction false} CallbackKeeps(w: World)
    requires Inv(w) && w.hand.Charged?
    ensures Inv(Next(w, Callback))
  {
    hide Traced;
    TraceReturn(All(w.q), w.hand, w.log, w.accepted);
  }

  lemma {:induction false} EndCallbackKeeps(w: World)
    requires Inv(w) && w.hand.Called?
    ensures Inv(Next(w, EndCallback))
  {
    hide Traced;
    TraceIdle(All(w.q), w.hand, Idle, w.log, w.accepted);
  }

  lemma {:induction false} FlushOneKeeps(w: World, status: Status)
    requires Inv(w) && w.hand == Idle && status != Success
    ensures Inv(StepFlush(w, status))
  {
    hide Inv;
    if w.q.active != [] { TakeActiveKeeps(w, 0, status); }
    else if w.q.backlog != [] { TakeBacklogKeeps(w, 0, status); }
  }

  lemma {:induction false} ExternalKeeps(w: World, s: Step)
    requires Inv(w) && External(s)
    ensures Inv(Next(w, s))
  {
    hide Inv;
    match s
    case Submit(nbl, stamp) => SubmitKeeps(w, nbl, stamp);
    case Cancel(cancelId) => CancelKeeps(w, cancelId);
    case SetGate(gate) => GateKeeps(w, gate);
  }

  lemma {:induction false} LockedKeeps(w: World, s: Step)
    requires Inv(w) && Enabled(w, s) && (s.Reap? || s.Release? || s.FlushOne?)
    ensures Inv(Next(w, s))
  {
    hide Inv;
    match s
    case Reap(now) => ReapKeeps(w, now);
    case Release => ReleaseKeeps(w);
    case FlushOne(status) => FlushOneKeeps(w, status);
  }

  lemma {:induction false} SendKeeps(w: World, s: Step)
    requires Inv(w) && Enabled(w, s) && (s.Pick? || s.Transfer? || s.Settle?)
    ensures Inv(Next(w, s))
  {
    hide Inv;
    match s
    case Pick(now) => PickKeeps(w, now);
    case Transfer(outcome) => TransferKeeps(w, outcome);
    case Settle(now) => SettleKeeps(w, now);
  }

  /** One step of any interleaving. */
  lemma {:induction false} NextKeeps(w: World, s: Step)
    requires Inv(w) && Enabled(w, s)
    ensures Inv(Next(w, s))
  {
    if External(s) { ExternalKeeps(w, s); }
    else if s.Callback? { CallbackKeeps(w); }
    else if s.EndCallback? { EndCallbackKeeps(w); }
    else if s.Pick? || s.Transfer? || s.Settle? { SendKeeps(w, s); }
    else { LockedKeeps(w, s); }
  }

  lemma {:induction false} RunKeeps(w: World, steps: seq<Step>, w': World)
    requires Inv(w) && IsRun(w, steps, w')
    ensures Inv(w')
    decreases |steps|
  {
    if steps != [] {
      var n := |steps| - 1;
      var mid: World :| IsRun(w, steps[..n], mid) && Enabled(mid, steps[n]) && w' == Next(mid, steps[n]);
      RunKeeps(w, steps[..n], mid);
      NextKeeps(mid, steps[n]);
    }
  }

  /** Whole-run safety: from adapter start, under every interleaving of submissions, cancellations and
      gate changes with the worker, the invariant holds at every lock release and the history is safe. */
  lemma {:induction false} EveryRunIsSafe(steps: seq<Step>, w: World)
    requires IsRun(Init(), steps, w)
    ensures Inv(w) && LogSafe(w.log)
    ensures w.q.outstanding + |w.q.backlog| + w.q.completing == w.accepted - w.completed
  {
    InitHolds();
    RunKeeps(Init(), steps, w);
  }

  lemma {:induction false} InitHolds()
    ensures Inv(Init())
  {}

  /** No false zero: when the count Pause and D3 wait for reads zero, every accepted list was returned
      to NDIS and the worker holds none. */
  lemma {:induction false} ZeroMeansAllReturned(w: World)
    requires Inv(w) && w.q.outstanding + |w.q.backlog| + w.q.completing == 0
    ensures !w.hand.Removed? && !w.hand.Charged? && !w.hand.Called?
    ensures forall t: nat :: t < w.accepted ==> WasReturned(w.log, t)
  {
    assert All(w.q) == [];
    forall t: nat | t < w.accepted ensures WasReturned(w.log, t) {
      assert Queued(All(w.q), t) || InHand(w.hand, t) || WasReturned(w.log, t);
    }
  }


  // ---------------------------------------------------------------- the backlog waits only for room

  /** With the gate open and no removed active record awaiting its release, the oldest backlogged list
      does not fit. */
  predicate Tight(w: World) { w.q.gate == Success && !w.hand.Removed? ==> !CanPromote(w.q) }

  /** Every record holds a frame, so the limits on frames bound the counts. */
  lemma {:induction false} CountsBounded(w: World)
    requires Inv(w)
    ensures |w.q.active| <= w.q.frames <= ACTIVE_LIMIT && |w.q.backlog| <= w.q.backlogFrames <= BACKLOG_LIMIT
    ensures forall i :: 0 <= i < |w.q.active| ==> w.q.active[i].frames > 0
    ensures w.hand.Removed? ==> w.q.outstanding > 0
  {
    hide Traced;
    forall i | 0 <= i < |w.q.active| ensures w.q.active[i].frames > 0 && w.q.active[i].heldFrames > 0 {
      assert w.q.active[i] == All(w.q)[i];
    }
    forall i | 0 <= i < |w.q.backlog| ensures w.q.backlog[i].heldFrames > 0 {
      assert w.q.backlog[i] == All(w.q)[|w.q.active| + i];
    }
    SumHeldAtLeastCount(w.q.active);
    SumHeldAtLeastCount(w.q.backlog);
  }

  /** The backlog only ever holds lists whose frames are all at most 512 bytes long, none of them sent. */
  lemma {:induction false} BacklogHoldsSmallFrames(w: World, i: nat, k: nat)
    requires Inv(w) && i < |w.q.backlog| && k < |w.q.backlog[i].nbl.lens|
    ensures w.q.backlog[i].nbl.lens[k] <= SMALL_MAX && w.q.backlog[i].next == 0
  {
    hide Traced, Counted;
    assert All(w.q)[|w.q.active| + i] == w.q.backlog[i];
    MaxBounds(w.q.backlog[i].nbl.lens, k);
  }

  /** Acceptance order: every active record precedes every deferred one, and each queue is in order. */
  lemma {:induction false} QueuesInAcceptanceOrder(w: World, i: nat, j: nat)
    requires Inv(w) && i < j < |w.q.active| + |w.q.backlog|
    ensures Tickets(w.q)[i] < Tickets(w.q)[j]
  {
    hide Traced, Counted;
  }

  lemma {:induction false} TightMeansFull(w: World)
    requires Inv(w) && Tight(w) && w.q.gate == Success && !w.hand.Removed? && w.q.backlog != []
    ensures w.q.frames + w.q.backlog[0].heldFrames > ACTIVE_LIMIT
  {
    hide Traced;
    CountsBounded(w);
    assert All(w.q)[|w.q.active|] == w.q.backlog[0];
  }

  lemma {:induction false} RemoveBacklogTight(q: Queue, i: nat)
    requires i < |q.backlog|
    ensures !CanPromote(RemoveBacklog(q, i)) && RemoveBacklog(q, i).gate == q.gate
  {
    PromoteAllKeeps(CutBacklog(q, i));
  }

  lemma {:induction false} ReleaseTight(w: World)
    requires w.hand.Removed?
    ensures !CanPromote(StepRelease(w).q) && StepRelease(w).q.gate == w.q.gate
  {
    PromoteAllKeeps(w.q.(outstanding := w.q.outstanding - 1));
  }

  lemma {:induction false} SubmitTight(w: World, nbl: Nbl, stamp: Time)
    requires !CanPromote(w.q)
    ensures !CanPromote(StepSubmit(w, nbl, stamp).q) && StepSubmit(w, nbl, stamp).q.gate == w.q.gate
  {}

  lemma {:induction false} ReapTight(w: World, now: Time)
    requires w.hand == Idle && !CanPromote(w.q)
    ensures Tight(StepReap(w, now)) && StepReap(w, now).q.gate == w.q.gate
  {
    var b := FirstAbort(w.q.gate, w.q.backlog, now, 0);
    if b < |w.q.backlog| { RemoveBacklogTight(w.q, b); }
  }

  lemma {:induction false} NextKeepsTight(w: World, s: Step)
    requires Enabled(w, s) && Tight(w) && w.q.gate == Success && (s.SetGate? ==> s.gate == Success)
    ensures Tight(Next(w, s)) && Next(w, s).q.gate == Success
  {
    if s.Reap? { ReapTight(w, s.now); }
    else if s.Release? { ReleaseTight(w); }
    else if s.Submit? { if !w.hand.Removed? { SubmitTight(w, s.nbl, s.stamp); } }
    else if s.FlushOne? && w.q.backlog != [] { RemoveBacklogTight(w.q, 0); }
  }

  /** While the gate stays open, over any run: a backlogged list is held back only for lack of room. */
  lemma {:induction false} OpenRunStaysTight(w: World, steps: seq<Step>, w': World)
    requires IsRun(w, steps, w') && Inv(w) && Tight(w) && w.q.gate == Success
    requires forall i :: 0 <= i < |steps| && steps[i].SetGate? ==> steps[i].gate == Success
    ensures Tight(w') && w'.q.gate == Success
    ensures !w'.hand.Removed? && w'.q.backlog != [] ==> w'.q.frames + w'.q.backlog[0].heldFrames > ACTIVE_LIMIT
    decreases |steps|
  {
    if steps != [] {
      var n := |steps| - 1;
      var mid: World :| IsRun(w, steps[..n], mid) && Enabled(mid, steps[n]) && w' == Next(mid, steps[n]);
      OpenRunStaysTight(w, steps[..n], mid);
      NextKeepsTight(mid, steps[n]);
    }
    RunKeeps(w, steps, w');
    if !w'.hand.Removed? && w'.q.backlog != [] { TightMeansFull(w'); }
  }

  /** Re-opening a closed gate is the only way to leave room unused: the next completion refills it. */
  lemma {:induction false} RefillRestoresTight(w: World)
    requires w.hand.Removed? && w.q.outstanding > 0
    ensures Tight(Next(w, Release))
  {
    ReleaseTight(w);
  }

  // ---------------------------------------------------------------- cleanup

  function Doomed(gate: Status, items: seq<Item>, now: Time): nat {
    if items == [] then 0
    else Doomed(gate, items[..|items| - 1], now) + if AbortStatus(gate, items[|items| - 1], now) != Success then 1
      else 0
  }

  lemma {:induction false} DoomedConcat(gate: Status, a: seq<Item>, b: seq<Item>, now: Time)
    ensures Doomed(gate, a + b, now) == Doomed(gate, a, now) + Doomed(gate, b, now)
    decreases |b|
  {
    if b == [] {
      assert a + b == a;
    } else {
      assert (a + b)[..|a + b| - 1] == a + b[..|b| - 1];
      DoomedConcat(gate, a, b[..|b| - 1], now);
    }
  }

  lemma {:induction false} DoomedOne(gate: Status, item: Item, now: Time)
    ensures Doomed(gate, [item], now) == if AbortStatus(gate, item, now) != Success then 1 else 0
  {
    assert [item][..0] == [];
  }

  lemma {:induction false} DoomedWithout(gate: Status, items: seq<Item>, i: nat, now: Time)
    requires i < |items| && AbortStatus(gate, items[i], now) != Success
    ensures Doomed(gate, Without(items, i), now) == Doomed(gate, items, now) - 1
  {
    hide Doomed;
    var before, one, after := items[..i], [items[i]], items[i + 1..];
    assert items == before + (one + after);
    DoomedConcat(gate, before, one + after, now);
    DoomedConcat(gate, one, after, now);
    DoomedConcat(gate, before, after, now);
    DoomedOne(gate, items[i], now);
  }

  lemma {:induction false} DoomedZero(gate: Status, items: seq<Item>, now: Time)
    ensures Doomed(gate, items, now) <= |items|
    ensures Doomed(gate, items, now) == 0 <==>
      forall i :: 0 <= i < |items| ==> AbortStatus(gate, items[i], now) == Success
  {
    if items != [] { DoomedZero(gate, items[..|items| - 1], now); }
  }

  function DoomedIn(w: World, now: Time): nat { Doomed(w.q.gate, All(w.q), now) }

  lemma {:induction false} TakeActiveDoomed(w: World, i: nat, status: Status, now: Time)
    requires i < |w.q.active| && AbortStatus(w.q.gate, w.q.active[i], now) != Success
    ensures DoomedIn(TakeActive(w, i, status), now) == DoomedIn(w, now) - 1 && TakeActive(w, i, status).hand.Removed?
  {
    WithoutLeft(w.q.active, w.q.backlog, i);
    DoomedWithout(w.q.gate, All(w.q), i, now);
  }

  lemma {:induction false} TakeBacklogDoomed(w: World, i: nat, status: Status, now: Time)
    requires i < |w.q.backlog| && AbortStatus(w.q.gate, w.q.backlog[i], now) != Success
    ensures DoomedIn(TakeBacklog(w, i, status), now) == DoomedIn(w, now) - 1 && TakeBacklog(w, i, status).hand.Charged?
  {
    RemoveBacklogAll(w.q, i);
    RemoveBacklogTight(w.q, i);
    DoomedWithout(w.q.gate, All(w.q), |w.q.active| + i, now);
  }

  /** With the clock standing still, each turn of the cleanup loop removes one entry that must go, and
      finds nothing to do exactly when none is left. */
  lemma {:induction false} ReapRemovesOne(w: World, now: Time)
    requires w.hand == Idle
    ensures var w' := Next(w, Reap(now));
      if DoomedIn(w, now) == 0 then w' == w else w'.hand != Idle && DoomedIn(w', now) == DoomedIn(w, now) - 1
  {
    hide Doomed, AbortStatus, FirstAbort, TakeActive, TakeBacklog;
    var a := FirstAbort(w.q.gate, w.q.active, now, 0);
    var b := FirstAbort(w.q.gate, w.q.backlog, now, 0);
    DoomedConcat(w.q.gate, w.q.active, w.q.backlog, now);
    DoomedZero(w.q.gate, w.q.active, now);
    DoomedZero(w.q.gate, w.q.backlog, now);
    if a < |w.q.active| {
      TakeActiveDoomed(w, a, AbortStatus(w.q.gate, w.q.active[a], now), now);
    } else if b < |w.q.backlog| {
      TakeBacklogDoomed(w, b, AbortStatus(w.q.gate, w.q.backlog[b], now), now);
    }
  }

  /** Completing a removed entry, and submissions stamped by the frozen clock, doom nothing new. */
  lemma {:induction false} FrozenStepsDoomNothing(w: World, s: Step, now: Time)
    requires Enabled(w, s) && (s.Release? || s.Callback? || s.EndCallback? || (s.Submit? && s.stamp == now))
    ensures DoomedIn(Next(w, s), now) == DoomedIn(w, now) && Next(w, s).q.gate == w.q.gate
  {
    match s
    case Release => PromoteAllKeeps(w.q.(outstanding := w.q.outstanding - 1));
    case Submit(nbl, stamp) => FreshIsNotDoomed(w, nbl, now);
    case _ =>
  }

  lemma {:induction false} FreshIsNotDoomed(w: World, nbl: Nbl, now: Time)
    ensures DoomedIn(StepSubmit(w, nbl, now), now) == DoomedIn(w, now) && StepSubmit(w, nbl, now).q.gate == w.q.gate
  {
    hide Doomed, All, PrepareStatus;
    if StepSubmit(w, nbl, now) != w {
      var item := MakeItem(w.accepted, nbl, now);
      SubmitAppends(w.q, item);
      DoomedConcat(w.q.gate, All(w.q), [item], now);
      DoomedOne(w.q.gate, item, now);
      ExpiryExact(item, now);
    }
  }

  /** The loop bound of 192 turns covers every queue that can occur. */
  lemma {:induction false} CleanupBoundSuffices(w: World, now: Time)
    requires Inv(w)
    ensures DoomedIn(w, now) <= |All(w.q)| <= ACTIVE_LIMIT + BACKLOG_LIMIT
  {
    hide Inv;
    CountsBounded(w);
    DoomedZero(w.q.gate, All(w.q), now);
  }

  // ---------------------------------------------------------------- what other threads leave alone

  /** The same records, some perhaps newly cancelled, perhaps followed by others. */
  ghost predicate Kept(a: seq<Item>, b: seq<Item>) {
    |a| <= |b| && forall i :: 0 <= i < |a| ==> SameButFlag(a[i], b[i])
  }

  /** Whatever other threads do while the worker is outside the lock: the worker's hand, the counts it
      is owed, every queued record and every written or returned event stay as they were. */
  ghost predicate Undisturbed(w: World, w': World) {
    && w'.hand == w.hand && w'.completed == w.completed && w'.q.completing == w.q.completing
    && Kept(w.q.active, w'.q.active) && Kept(w.q.backlog, w'.q.backlog)
    && WroteOk(w'.log) == WroteOk(w.log) && w.log <= w'.log
    && w.accepted <= w'.accepted
  }

  lemma {:induction false} ExternalUndisturbs(w: World, s: Step)
    requires External(s)
    ensures Undisturbed(w, Next(w, s))
  {
    if s.Submit? {
      var e := Accepted(w.accepted, s.nbl);
      assert (w.log + [e])[..|w.log|] == w.log;
    }
  }

  lemma {:induction false} UndisturbedTransitive(a: World, b: World, c: World)
    requires Undisturbed(a, b) && Undisturbed(b, c)
    ensures Undisturbed(a, c)
  {
    hide WroteOk;
    assert forall i :: 0 <= i < |a.q.active| ==> SameButFlag(b.q.active[i], c.q.active[i]);
    assert forall i :: 0 <= i < |a.q.backlog| ==> SameButFlag(b.q.backlog[i], c.q.backlog[i]);
  }

  /** With the gate closed nothing is admitted, and cancelling removes nothing. */
  ghost predicate Closed(w: World, w': World) {
    && w'.q.gate == w.q.gate && w'.accepted == w.accepted && w'.log == w.log
    && |w'.q.active| == |w.q.active| && |w'.q.backlog| == |w.q.backlog| && Tickets(w'.q) == Tickets(w.q)
  }

  lemma {:induction false} ClosedGateAdmitsNothing(w: World, s: Step)
    requires External(s) && !s.SetGate? && w.q.gate != Success
    ensures Closed(w, Next(w, s)) && Next(w, s).q.gate == w.q.gate
  {
    var w' := Next(w, s);
    forall i | 0 <= i < |All(w.q)| ensures All(w'.q)[i].ticket == All(w.q)[i].ticket {}
    assert Tickets(w'.q) == Tickets(w.q);
  }

  /** Nor does the worker promote anything. */
  lemma {:induction false} ClosedGatePromotesNothing(q: Queue)
    requires q.gate != Success
    ensures PromoteAll(q) == q
  {}

  // ---------------------------------------------------------------- the stale clock, in a run

  /** A reachable state shows it: the cleanup turn samples the clock at 0, a list is admitted with stamp 1
      before the turn takes the lock, and the turn removes it as expired. */
  lemma {:induction false} FreshListCanExpire(nbl: Nbl) returns (w: World)
    requires PrepareStatus(nbl.lens) == Success
    ensures IsRun(Init(), [SetGate(Success), Submit(nbl, 1), Reap(0)], w)
    ensures w.hand == Removed(MakeItem(0, nbl, 1), Failure)
  {
    var open := Next(Init(), SetGate(Success));
    var held := Next(open, Submit(nbl, 1));
    w := Next(held, Reap(0));
    var one, two := [SetGate(Success)], [SetGate(Success), Submit(nbl, 1)];
    AdmitAndExpire(nbl);
    assert IsRun(Init(), [], Init());
    hide IsRun, Init, StepSubmit, StepReap, PrepareStatus, MakeItem;
    RunExtends(Init(), [], Init(), SetGate(Success));
    assert [] + one == one && one + [Submit(nbl, 1)] == two
      && two + [Reap(0)] == [SetGate(Success), Submit(nbl, 1), Reap(0)];
    RunExtends(Init(), one, open, Submit(nbl, 1));
    RunExtends(Init(), two, held, Reap(0));
  }

  lemma {:induction false} AdmitAndExpire(nbl: Nbl)
    requires PrepareStatus(nbl.lens) == Success
    ensures var held := StepSubmit(Next(Init(), SetGate(Success)), nbl, 1);
      held.hand == Idle && StepReap(held, 0).hand == Removed(MakeItem(0, nbl, 1), Failure)
  {
    var item, held := MakeItem(0, nbl, 1), StepSubmit(Next(Init(), SetGate(Success)), nbl, 1);
    assert |nbl.lens| <= ACTIVE_LIMIT;
    hide PrepareStatus;
    assert held.q.active == [item] && held.q.gate == Success;
    ExpiryExact(item, 0);
  }
}
