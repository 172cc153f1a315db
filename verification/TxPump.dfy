/** The transmit pump: the only reader of the queue head and the only writer of data frames. */
module TxPump {
  import opened Wire
  import Credits
  import opened Fifo
  import opened Transport
  import opened SdpcmSend
  import opened TxTypes
  import opened TxMachine
  import opened TxSafety
  import opened TxRuns
  import opened TxQueue

  /** The frame carries buffer `sent.1` of the accepted list `sent.0`, under its 4-byte data header. */
  ghost predicate Carries(log: seq<Event>, bytes: (nat, nat, nat) -> byte, frame: seq<byte>, seqNo: byte,
                          sent: (nat, nat)) {
    exists nbl, padded ::
      && Accepted(sent.0, nbl) in log && sent.1 < |nbl.lens|
      && nbl.lens[sent.1] + 16 <= padded <= CONTROL_CAPACITY
      && frame == FrameBytes(seqNo, DATA, Content(bytes, sent.0, sent.1, nbl.lens[sent.1]), padded)
  }

  function Content(bytes: (nat, nat, nat) -> byte, ticket: nat, buffer: nat, length: nat): (r: seq<byte>)
    ensures |r| == length + 4 && r[..4] == [0x20, 0, 0, 0]
  {
    [0x20, 0, 0, 0] + seq(length, i requires 0 <= i < length => bytes(ticket, buffer, i))
  }

  /** What was added to the wire is what was added to the list of written buffers, in that order, under
      consecutive sequence numbers. */
  ghost predicate Matched(log: seq<Event>, bytes: (nat, nat, nat) -> byte, wire: seq<seq<byte>>, wire': seq<seq<byte>>,
                          wrote: seq<(nat, nat)>, wrote': seq<(nat, nat)>, seqNo: byte) {
    && wire <= wire' && wrote <= wrote' && |wrote'| - |wrote| == |wire'| - |wire|
    && forall j :: |wire| <= j < |wire'| ==>
         Carries(log, bytes, wire'[j], (seqNo + j - |wire|) % 256, wrote'[|wrote| + j - |wire|])
  }

  lemma NextNumber(seqNo: byte, n: nat)
    ensures ((seqNo + n) % 256 + 1) % 256 == (seqNo + (n + 1)) % 256
  {}

  lemma MatchedNone(log: seq<Event>, bytes: (nat, nat, nat) -> byte, wire: seq<seq<byte>>, wrote: seq<(nat, nat)>,
                    seqNo: byte)
    ensures Matched(log, bytes, wire, wire, wrote, wrote, seqNo)
  {}

  lemma MatchedLater(log: seq<Event>, log': seq<Event>, bytes: (nat, nat, nat) -> byte,
                     wire: seq<seq<byte>>, wire': seq<seq<byte>>,
                     wrote: seq<(nat, nat)>, wrote': seq<(nat, nat)>, seqNo: byte)
    requires Matched(log, bytes, wire, wire', wrote, wrote', seqNo) && log <= log'
    ensures Matched(log', bytes, wire, wire', wrote, wrote', seqNo)
  {
    forall j | |wire| <= j < |wire'|
      ensures Carries(log', bytes, wire'[j], (seqNo + j - |wire|) % 256, wrote'[|wrote| + j - |wire|])
    {
      CarriesLater(log, log', bytes, wire'[j], (seqNo + j - |wire|) % 256);
    }
  }

  lemma MatchedStep(log: seq<Event>, bytes: (nat, nat, nat) -> byte,
                    wire: seq<seq<byte>>, wire': seq<seq<byte>>, wire2: seq<seq<byte>>,
                    wrote: seq<(nat, nat)>, wrote': seq<(nat, nat)>, wrote2: seq<(nat, nat)>, seqNo: byte)
    requires Matched(log, bytes, wire, wire', wrote, wrote', seqNo)
    requires |wire2| == |wire'| + 1 && wire' <= wire2
    requires exists sent ::
      wrote2 == wrote' + [sent] && Carries(log, bytes, wire2[|wire'|], (seqNo + |wire'| - |wire|) % 256, sent)
    ensures Matched(log, bytes, wire, wire2, wrote, wrote2, seqNo) && |wrote2| == |wrote'| + 1
  {
    hide Carries;
    forall j | |wire| <= j < |wire2|
      ensures Carries(log, bytes, wire2[j], (seqNo + j - |wire|) % 256, wrote2[|wrote| + j - |wire|])
    {
      if j < |wire'| { assert wire2[j] == wire'[j]; }
    }
  }

  ghost predicate Framed(wire: seq<seq<byte>>, wire': seq<seq<byte>>, seqNo: byte, data: seq<byte>) {
    exists padded :: |data| + 12 <= padded <= CONTROL_CAPACITY
      && wire' == wire + [FrameBytes(seqNo, DATA, data, padded)]
  }

  /** Why a turn sent nothing; `Goes` when it sent a frame. */
  datatype Why = Goes | QueueEmpty | HeadDropped | NotAllowed | RadioBusy | NotMapped | Broken

  class Pump {
    const q: TxState
    const s: Sender
    const able: nat -> bool                    // the adapter conditions of CywTxCanTransfer, at the n-th look
    const bytes: (nat, nat, nat) -> byte       // byte i of buffer k of the list with ticket t

    ghost predicate Valid()
      reads this, q, q.entries, q.backlog, s, s.net, s.fifo
    {
      q.Valid() && s.Valid() && BurstsOk(s.log)
    }

    constructor (q: TxState, s: Sender, able: nat -> bool, bytes: (nat, nat, nat) -> byte)
      requires q.Valid() && s.Valid() && BurstsOk(s.log)
      ensures this.q == q && this.s == s && Valid()
    {
      this.q, this.s, this.able, this.bytes := q, s, able, bytes;
    }

    /** What a grant of `left` followers, the next at `position`, rests on. */
    ghost predicate Permit(left: nat, position: nat)
      reads s, s.net
    {
      left > 0 ==>
        && s.net.Open() && !s.net.halted && left <= Window(s.net.txSeq, s.net.txMax) <= WINDOW_MAX
        && 2 <= position && position + left <= BURST_MAX + 1
        && s.log != [] && var last := s.log[|s.log| - 1];
           last.Write? && last.channel == DATA && last.ok && last.length <= SMALL_DATA_MAX
           && last.position == position - 1
    }

    /** Either nothing left, or exactly one frame did; none does while the FIFO is latched, and the latch stays. */
    twostate predicate SentOne(one: bool)
      reads s, s.net, s.fifo
    {
      && s.net.txMax == old(s.net.txMax)
      && (old(s.fifo.failed) ==> !one && s.fifo.failed && s.fifo.log == old(s.fifo.log))
      && if one then
           && s.net.txSeq == (old(s.net.txSeq) + 1) % 256 && s.net.sent == old(s.net.sent) + 1 <= s.net.granted
           && Window(s.net.txSeq, s.net.txMax) == old(Window(s.net.txSeq, s.net.txMax)) - 1
           && |s.wire| == |old(s.wire)| + 1 && old(s.wire) <= s.wire
         else s.net.txSeq == old(s.net.txSeq) && s.net.sent == old(s.net.sent) && s.wire == old(s.wire)
    }

    /** A follower under a live grant: the transport cannot answer that it is busy. */
    method Follow(data: seq<byte>, left: nat, position: nat) returns (status: NtStatus)
      requires s.Valid() && BurstsOk(s.log) && left > 0 && Permit(left, position) && |data| <= SMALL_DATA_MAX
      modifies s, s.net, s.fifo, s.tx
      ensures s.Valid() && BurstsOk(s.log) && SentOne(status == Ok) && status != NtStatus.Busy
      ensures status == Ok ==> Permit(left - 1, position + 1) && Framed(old(s.wire), s.wire, old(s.net.txSeq), data)
    {
      hide FrameBytes, Window, Credits.CreditInv, NeverReplays, Dead, BurstsOk;
      var none;
      status, none := s.SendFrameCore(DATA, data, false, position, 1);
      if s.log != old(s.log) { BurstExtends(old(s.log), s.log[|s.log| - 1]); }
    }

    /** A frame with its own service, which may grant followers. */
    method Start(data: seq<byte>, want: nat) returns (status: NtStatus, left: nat)
      requires s.Valid() && BurstsOk(s.log)
      modifies s, s.net, s.fifo, s.tx
      ensures s.Valid() && BurstsOk(s.log) && SentOne(status == Ok) && Permit(left, 2) && (left > 0 ==> left < want)
      ensures status == Ok ==> Framed(old(s.wire), s.wire, old(s.net.txSeq), data)
      ensures status == Ok ==> s.log == old(s.log) + [Serviced(true), Write(DATA, |data|, 1, true)]
      ensures |data| > SMALL_DATA_MAX || status != Ok ==> left == 0
      ensures status == Ok ==> left == Allowance(|data|, want, Window(s.net.txSeq, s.net.txMax))
      ensures status == NtStatus.Busy ==> !s.net.Open() || !Credit(s.net.txSeq, s.net.txMax)
    {
      hide FrameBytes, Window, NeverReplays, Dead, BurstsOk;
      status, left := s.SendFrameCore(DATA, data, true, 0, want);
      ServiceExtends(old(s.log), s.log);
      Credits.WindowExact(s.net.sent, s.net.granted, s.net.txSeq, s.net.txMax);
    }

    /** The pump's choice between the two. */
    method Transmit(data: seq<byte>, small: bool, want: nat, left: nat, position: nat)
      returns (status: NtStatus, left': nat, position': nat)
      requires s.Valid() && BurstsOk(s.log) && Permit(left, position) && small == (|data| <= SMALL_DATA_MAX)
      modifies s, s.net, s.fifo, s.tx
      ensures s.Valid() && BurstsOk(s.log) && Permit(left', position') && SentOne(status == Ok)
      ensures status == Ok ==> Framed(old(s.wire), s.wire, old(s.net.txSeq), data)
      ensures status != Ok ==> left' == 0
      ensures small && left > 0 ==>
        status != NtStatus.Busy && (status == Ok ==> left' == left - 1 && position' == position + 1)
      ensures !(small && left > 0) && status == Ok ==>
        left' == Allowance(|data|, want, Window(s.net.txSeq, s.net.txMax))
      ensures status == NtStatus.Busy ==> !s.net.Open() || !Credit(s.net.txSeq, s.net.txMax)
      ensures !small && status == Ok ==> s.log == old(s.log) + [Serviced(true), Write(DATA, |data|, 1, true)]
    {
      hide FrameBytes, Window, Credits.CreditInv, NeverReplays, Dead, BurstsOk, Framed;
      left', position' := if small then left else 0, position;
      if left' > 0 {
        status := Follow(data, left', position');
        if status == Ok { left', position' := left' - 1, position' + 1; }
      } else {
        status, left' := Start(data, want);
        if left' > 0 { position' := 2; }
      }
      if status != Ok { left' := 0; }
    }

    /** What the history and the wire gain when one buffer leaves, or does not. */
    twostate predicate Progress(one: bool)
      reads this, q, s, s.net, s.fifo
    {
      && old(q.log) <= q.log && SentOne(one)
      && if one then
           exists sent :: WroteOk(q.log) == WroteOk(old(q.log)) + [sent]
             && Carries(q.log, bytes, s.wire[|s.wire| - 1], old(s.net.txSeq), sent)
         else WroteOk(q.log) == WroteOk(old(q.log))
    }

    /** The regions after a transfer that was not refused. */
    method Finish(sent: bool, next: nat) returns (completion: Status)
      requires q.Valid() && q.hand.Settling? && sent == (q.hand.outcome == Sent)
      requires sent && q.count > 0 ==> next == q.entries[0].next + 1
      modifies q, q.entries, q.backlog
      ensures q.Valid() && q.hand == Idle && old(q.log) <= q.log && WroteOk(q.log) == WroteOk(old(q.log))
      ensures !sent ==> completion != Success
      ensures completion != Success ==> Gained(old(q.log), q.log, Returned(old(q.entries[0]).ticket, completion))
      ensures q.tick >= old(q.tick)
    {
      hide IsRun, WroteOk, TxMachine.Next, Tickets, Gained;
      q.HeadWaits();
      ghost var w := q.W();
      q.Interfere();
      assert SameButFlag(w.q.active[0], q.entries[..q.count][0]);
      var removed;
      completion, removed := q.SettleRegion(sent, next, q.clock(q.tick));
      if removed {
        ghost var before := q.log;
        q.Complete();
        GainedWithin(old(q.log), before, q.log, q.log, Returned(old(q.entries[0]).ticket, completion));
      }
    }

    /** The chosen buffer goes to the transport; meanwhile the head stays where it is. */
    method TransmitHead(head: Item, budget: nat, left: nat, position: nat)
      returns (status: NtStatus, left': nat, position': nat)
      requires Valid() && q.hand == Sending && q.count > 0 && SameButFlag(head, q.entries[0]) && Permit(left, position)
      modifies q, q.entries, q.backlog, s, s.net, s.fifo, s.tx
      ensures Valid() && Permit(left', position') && SentOne(status == Ok)
      ensures q.hand == Sending && q.count > 0 && SameButFlag(head, q.entries[0])
      ensures old(q.log) <= q.log && WroteOk(q.log) == WroteOk(old(q.log)) && head.next < |head.nbl.lens|
      ensures status == Ok ==>
        Framed(old(s.wire), s.wire, old(s.net.txSeq), Content(bytes, head.ticket, head.next, head.nbl.lens[head.next]))
      ensures status != Ok ==> left' == 0
      ensures status == NtStatus.Busy ==> !s.net.Open() || !Credit(s.net.txSeq, s.net.txMax)
      ensures q.tick >= old(q.tick)
    {
      hide IsRun, WroteOk, TxMachine.Next, Tickets, Framed, FrameBytes, Window, NeverReplays, Dead, BurstsOk, Content,
        Credits.CreditInv;
      q.HeadWaits();
      var length := head.nbl.lens[head.next];
      var small, want := Small(length), 1;
      ghost var w := q.W();
      SameWorld(w);
      if small && left == 0 {
        q.Interfere();
        want := q.BurstPendingFrames(budget);
      }
      ghost var w1 := q.W();
      q.Interfere();
      UndisturbedTransitive(w, w1, q.W());
      HeadSurvives(w, q.W(), head);
      status, left', position' := Transmit(Content(bytes, head.ticket, head.next, length), small, want, left, position);
    }

    /** The head buffer's transfer, and what the history records of it. */
    method HandHead(head: Item, budget: nat, left: nat, position: nat)
      returns (outcome: Outcome, status: NtStatus, left': nat, position': nat)
      requires Valid() && q.hand == Sending && q.count > 0 && SameButFlag(head, q.entries[0]) && Permit(left, position)
      modifies q, q.entries, q.backlog, s, s.net, s.fifo, s.tx
      ensures Valid() && Permit(left', position') && Progress(outcome == Sent)
      ensures q.hand == if outcome == Outcome.Busy then Idle else Settling(outcome)
      ensures q.count > 0 && q.entries[0].next == head.next
      ensures outcome == Fault ==> status !in {Ok, NtStatus.Busy}
      ensures outcome == Outcome.Busy ==> !s.net.Open() || !Credit(s.net.txSeq, s.net.txMax)
      ensures outcome == Unmapped ==> !q.mapped(old(q.tick))
      ensures q.entries[0].ticket == head.ticket
      ensures outcome != Sent ==> left' == 0
      ensures q.tick >= old(q.tick)
    {
      hide IsRun, WroteOk, TxMachine.Next, Tickets, Framed, FrameBytes, Window, NeverReplays, Dead, BurstsOk, Content,
        Credits.CreditInv, Carries;
      if !q.mapped(q.tick) {
        q.Handed(Unmapped);
        return Unmapped, Ok, 0, position;
      }
      status, left', position' := TransmitHead(head, budget, left, position);
      outcome := if status == Ok then Sent else if status == NtStatus.Busy then Outcome.Busy else Fault;
      q.HeadAccepted();
      ghost var log := q.log;
      q.Handed(outcome);
      WroteStep(log, q.log, head.ticket, head.next);
      if outcome == Sent { FrameCarries(q.log, bytes, old(s.wire), s.wire, old(s.net.txSeq), head); }
    }

    /** The head, if there is one, it need not be dropped, and the adapter, credit and flow allow a send. */
    method PickHead() returns (why: Why, head: Item)
      requires Valid() && q.hand == Idle
      modifies q, q.entries, q.backlog
      ensures Valid() && old(q.log) <= q.log && WroteOk(q.log) == WroteOk(old(q.log))
      ensures why in {Goes, QueueEmpty, HeadDropped, NotAllowed}
      ensures why == QueueEmpty ==> q.count == 0 && !CanPromote(q.Q())
      ensures why == HeadDropped ==> q.completed == old(q.completed) + 1 && GaveBack(old(q.log), q.log)
      ensures why == NotAllowed ==> !able(q.tick) || !Credit(s.net.txSeq, s.net.txMax) || s.net.txFlow != 0
      ensures if why == Goes then q.hand == Sending && q.count > 0 && SameButFlag(head, q.entries[0])
        else q.hand == Idle
      ensures q.tick >= old(q.tick)
    {
      hide IsRun, WroteOk, TxMachine.Next, BurstsOk, Window, NeverReplays, Dead, Credits.CreditInv, CanPromote, Credit,
        Gained;
      var picked;
      picked, head := q.PickOrDrop();
      if picked == Nothing { return QueueEmpty, head; }
      if picked == Dropped { return HeadDropped, head; }
      if able(q.tick) && Credit(s.net.txSeq, s.net.txMax) && s.net.txFlow == 0 { return Goes, head; }
      q.Handed(Outcome.Busy);
      return NotAllowed, head;
    }

    /** What holds when the pump stops for the given reason, in a turn that began with the history `mark` and
        at the look `from`. */
    ghost predicate Stops(why: Why, status: NtStatus, mark: seq<Event>, from: nat)
      reads this, q, q.entries, q.backlog, s, s.net
      requires q.Shape()
    {
      match why
      case Goes => status == Ok
      case QueueEmpty => status == Ok && q.count == 0 && !CanPromote(q.Q())
      case HeadDropped => status == Ok && GaveBack(mark, q.log)
      case NotAllowed => status == Ok && (!able(q.tick) || !Credit(s.net.txSeq, s.net.txMax) || s.net.txFlow != 0)
      case RadioBusy => status == Ok && (!s.net.Open() || !Credit(s.net.txSeq, s.net.txMax))
      case NotMapped => status == Ok && GaveBack(mark, q.log) && exists n :: from <= n <= q.tick && !q.mapped(n)
      case Broken => status !in {Ok, NtStatus.Busy} && GaveBack(mark, q.log)
    }

    /** The picked head is handed over and settled. */
    method SendHead(head: Item, budget: nat, left: nat, position: nat)
      returns (why: Why, status: NtStatus, left': nat, position': nat, ghost completion: Status)
      requires Valid() && q.hand == Sending && q.count > 0 && SameButFlag(head, q.entries[0]) && Permit(left, position)
      modifies q, q.entries, q.backlog, s, s.net, s.fifo, s.tx
      ensures Valid() && q.hand == Idle && Permit(left', position') && Progress(why == Goes)
      ensures Stops(why, status, old(q.log), old(q.tick))
      ensures why in {Goes, Broken, NotMapped} && completion != Success ==>
        left' == 0 && Returned(head.ticket, completion) in q.log
      ensures q.tick >= old(q.tick)
    {
      hide IsRun, WroteOk, TxMachine.Next, Tickets, BurstsOk, Window, Carries, NeverReplays, Dead, Credits.CreditInv,
        CanPromote, Credit, Gained;
      var outcome;
      outcome, status, left', position' := HandHead(head, budget, left, position);
      if outcome == Outcome.Busy { return RadioBusy, Ok, left', position', Success; }
      ghost var log, ticket := q.log, q.entries[0].ticket;
      var ended := Finish(outcome == Sent, head.next + 1);
      if ended != Success { GainedWithin(old(q.log), log, q.log, q.log, Returned(ticket, ended)); }
      if outcome == Sent { CarriesLater(log, q.log, bytes, s.wire[|s.wire| - 1], old(s.net.txSeq)); }
      if ended != Success { left' := 0; }
      why := if outcome == Sent then Goes else if outcome == Fault then Broken else NotMapped;
      return why, if outcome == Fault then status else Ok, left', position', ended;
    }

    /** One turn of the pump: one frame leaves, or the pump stops for a reason that holds. */
    method Turn(budget: nat, left: nat, position: nat) returns (why: Why, status: NtStatus, left': nat, position': nat)
      requires Valid() && q.hand == Idle && Permit(left, position)
      modifies q, q.entries, q.backlog, s, s.net, s.fifo, s.tx
      ensures Valid() && q.hand == Idle && Permit(left', position') && Progress(why == Goes)
      ensures Stops(why, status, old(q.log), old(q.tick))
      ensures q.tick >= old(q.tick)
    {
      hide IsRun, WroteOk, TxMachine.Next, BurstsOk, Window, Carries, NeverReplays, Dead, Credits.CreditInv, CanPromote,
        Credit, Gained;
      var head;
      why, head := PickHead();
      if why != Goes { return why, Ok, 0, position; }
      ghost var completion, log := Success, q.log;
      why, status, left', position', completion := SendHead(head, budget, left, position);
      if why in {HeadDropped, NotMapped, Broken} { GaveBackWithin(old(q.log), log, q.log, q.log); }
    }

    /** A turn, with the account of the frames sent since the pump was entered. */
    method Round(budget: nat, left: nat, position: nat, ghost wire0: seq<seq<byte>>, ghost wrote0: seq<(nat, nat)>,
                 ghost seq0: byte, ghost n: nat)
      returns (why: Why, status: NtStatus, left': nat, position': nat)
      requires Valid() && q.hand == Idle && Permit(left, position)
      requires |s.wire| == |wire0| + n && s.net.txSeq == (seq0 + n) % 256
      requires Matched(q.log, bytes, wire0, s.wire, wrote0, WroteOk(q.log), seq0)
      modifies q, q.entries, q.backlog, s, s.net, s.fifo, s.tx
      ensures Valid() && q.hand == Idle && Permit(left', position') && old(q.log) <= q.log
      ensures Stops(why, status, old(q.log), old(q.tick)) && (why != Goes ==> WroteOk(q.log) == WroteOk(old(q.log)))
      ensures old(s.fifo.failed) ==> why != Goes && s.fifo.failed && s.fifo.log == old(s.fifo.log)
      ensures var m := if why == Goes then n + 1 else n;
        && |s.wire| == |wire0| + m && s.net.txSeq == (seq0 + m) % 256 && s.net.sent == old(s.net.sent) + m - n
        && Window(s.net.txSeq, s.net.txMax) == old(Window(s.net.txSeq, s.net.txMax)) - (m - n)
      ensures Matched(q.log, bytes, wire0, s.wire, wrote0, WroteOk(q.log), seq0)
      ensures q.tick >= old(q.tick)
    {
      hide IsRun, WroteOk, TxMachine.Next, BurstsOk, Window, Carries, NeverReplays, Dead, Credits.CreditInv, Matched,
        CanPromote, Credit, Permit, Stops;
      ghost var log, wire := q.log, s.wire;
      why, status, left', position' := Turn(budget, left, position);
      MatchedLater(log, q.log, bytes, wire0, wire, wrote0, WroteOk(log), seq0);
      NextNumber(seq0, n);
      if why == Goes {
        MatchedStep(q.log, bytes, wire0, wire, s.wire, wrote0, WroteOk(log), WroteOk(q.log), seq0);
      }
    }

    /** CywTxPump. At most `budget` frames leave, and at most the credits at hand when it was entered; the
        frames on the wire are exactly the buffers the history records, in that order, numbered in
        sequence; every one keeps the burst discipline. */
    method Run(budget: nat)
      returns (status: NtStatus, sent: nat, ghost why: Why, ghost mark: seq<Event>, ghost from: nat)
      requires Valid() && q.hand == Idle
      modifies q, q.entries, q.backlog, s, s.net, s.fifo, s.tx
      ensures Valid() && q.hand == Idle && old(q.log) <= q.log && |s.wire| == |old(s.wire)| + sent
      ensures sent <= budget && sent <= old(Window(s.net.txSeq, s.net.txMax))
      ensures s.net.sent == old(s.net.sent) + sent <= s.net.granted
      ensures s.net.txSeq == (old(s.net.txSeq) + sent) % 256
      ensures (why == Goes ==> sent == budget) && Stops(why, status, mark, from)
      ensures old(q.log) <= mark <= q.log && old(q.tick) <= from <= q.tick
      ensures why != Goes ==> WroteOk(mark) == WroteOk(q.log)
      ensures old(s.fifo.failed) ==> sent == 0 && s.fifo.failed && s.fifo.log == old(s.fifo.log)
      ensures Matched(q.log, bytes, old(s.wire), s.wire, WroteOk(old(q.log)), WroteOk(q.log), old(s.net.txSeq))
      ensures q.tick >= old(q.tick)
    {
      hide IsRun, WroteOk, TxMachine.Next, BurstsOk, Window, Carries, NeverReplays, Dead, Credits.CreditInv, DoomedIn,
        Matched, CanPromote, Credit, GaveBack, Gained;
      q.Cleanup();
      MatchedNone(q.log, bytes, s.wire, WroteOk(q.log), s.net.txSeq);
      status, sent, why, mark, from := Ok, 0, Goes, q.log, q.tick;
      var left, position, go := 0, 2, true;
      while sent < budget && go
        invariant Valid() && q.hand == Idle && Permit(left, position) && old(q.log) <= q.log
        invariant go == (why == Goes) && Stops(why, status, mark, from)
        invariant old(q.log) <= mark <= q.log && old(q.tick) <= from <= q.tick
        invariant why != Goes ==> WroteOk(mark) == WroteOk(q.log)
        invariant old(s.fifo.failed) ==> sent == 0 && s.fifo.failed && s.fifo.log == old(s.fifo.log)
        invariant sent <= budget && sent + Window(s.net.txSeq, s.net.txMax) == old(Window(s.net.txSeq, s.net.txMax))
        invariant s.net.sent == old(s.net.sent) + sent && |s.wire| == |old(s.wire)| + sent
        invariant s.net.txSeq == (old(s.net.txSeq) + sent) % 256
        invariant Matched(q.log, bytes, old(s.wire), s.wire, WroteOk(old(q.log)), WroteOk(q.log), old(s.net.txSeq))
        decreases budget - sent, go
      {
        var reason;
        mark, from := q.log, q.tick;
        reason, status, left, position :=
          Round(budget - sent, left, position, old(s.wire), WroteOk(old(q.log)), old(s.net.txSeq), sent);
        go, why := reason == Goes, reason;
        if go { sent := sent + 1; }
      }
      Credits.NeverOverdrawn(s.net.sent, s.net.granted, s.net.txSeq, s.net.txMax);
    }
  }

  lemma {:induction false} HeadSurvives(w: World, w': World, head: Item)
    requires Undisturbed(w, w') && w.q.active != [] && SameButFlag(head, w.q.active[0])
    ensures w'.q.active != [] && SameButFlag(head, w'.q.active[0])
  {}

  lemma {:induction false} WroteStep(log: seq<Event>, log': seq<Event>, t: nat, k: nat)
    requires log' == log || (exists ok :: log' == log + [Written(t, k, ok)])
    ensures log' == log + [Written(t, k, true)] ==> WroteOk(log') == WroteOk(log) + [(t, k)]
    ensures log' == log || log' == log + [Written(t, k, false)] ==> WroteOk(log') == WroteOk(log)
  {
    if log' != log { assert log'[..|log|] == log; }
  }

  lemma FrameCarries(log: seq<Event>, bytes: (nat, nat, nat) -> byte, wire: seq<seq<byte>>, wire': seq<seq<byte>>,
                     seqNo: byte, head: Item)
    requires Accepted(head.ticket, head.nbl) in log && head.next < |head.nbl.lens|
    requires Framed(wire, wire', seqNo, Content(bytes, head.ticket, head.next, head.nbl.lens[head.next]))
    ensures Carries(log, bytes, wire'[|wire'| - 1], seqNo, (head.ticket, head.next))
  {}

  lemma CarriesLater(log: seq<Event>, log': seq<Event>, bytes: (nat, nat, nat) -> byte, frame: seq<byte>, seqNo: byte)
    requires log <= log'
    ensures forall sent :: Carries(log, bytes, frame, seqNo, sent) ==> Carries(log', bytes, frame, seqNo, sent)
  {
    assert forall e :: e in log ==> e in log';
  }

  lemma ServiceExtends(log: seq<SendEvent>, log': seq<SendEvent>)
    requires BurstsOk(log)
    requires log' == log || (exists b :: log' == log + [Serviced(b)])
      || (exists n, b :: log' == log + [Serviced(true), Write(DATA, n, 1, b)])
    ensures BurstsOk(log')
  {
    if b :| log' == log + [Serviced(b)] {
      BurstExtends(log, Serviced(b));
    } else if n, b :| log' == log + [Serviced(true), Write(DATA, n, 1, b)] {
      BurstExtends(log, Serviced(true));
      BurstExtends(log + [Serviced(true)], Write(DATA, n, 1, b));
      assert log' == log + [Serviced(true)] + [Write(DATA, n, 1, b)];
    }
  }
}
