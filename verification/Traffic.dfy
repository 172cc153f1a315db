/** The traffic part of the worker loop: pump and poller take turns on one port and one set of credits. */
module Traffic {
  import opened Wire
  import Credits
  import opened Fifo
  import opened Transport
  import opened SdpcmSend
  import opened TxMachine
  import opened TxSafety
  import opened TxQueue
  import opened TxPump
  import opened RxPoll

  const RX_BUDGET: nat := 4
  const TX_BUDGET: nat := 4
  const EXTRA_BUDGET: nat := 4

  /** What the worker sees between two steps: a reason to leave the receive batch (its two milliseconds are
      over, or somebody asks to stop or pause), and whether transmit pressure and time allow one more frame. */
  datatype Look = Look(leave: bool, pressed: bool)

  /** The account of a stretch of traffic: the transmit history and the frames it wrote, the wire, the next
      sequence number, the credits used, the latch, the commands on the port, the receive history. */
  datatype Books = Books(log: seq<Event>, wire: seq<seq<byte>>, seqNo: byte, used: nat,
                         failed: bool, port: seq<FifoEvent>, rx: seq<RxEvent>)

  /** What a stretch of traffic amounts to: `sent` frames on the wire, which are the buffers the transmit history
      records, in order and numbered in sequence, each against a credit; and nothing in either direction while
      the FIFO is latched. */
  ghost predicate Carried(a: Books, b: Books, bytes: (nat, nat, nat) -> byte, sent: nat) {
    && a.log <= b.log && |b.wire| == |a.wire| + sent && b.used == a.used + sent && b.seqNo == (a.seqNo + sent) % 256
    && Matched(b.log, bytes, a.wire, b.wire, WroteOk(a.log), WroteOk(b.log), a.seqNo)
    && (a.failed ==> b.failed && sent == 0 && b.port == a.port && b.rx == a.rx)
  }

  lemma CarriedJoin(a: Books, b: Books, c: Books, bytes: (nat, nat, nat) -> byte, m: nat, n: nat)
    requires Carried(a, b, bytes, m) && Carried(b, c, bytes, n)
    ensures Carried(a, c, bytes, m + n)
  {
    hide Matched, WroteOk;
    ModSum(a.seqNo, m, n);
    MatchedJoin(b.log, c.log, bytes, a.wire, b.wire, c.wire, WroteOk(a.log), WroteOk(b.log), WroteOk(c.log), a.seqNo,
      b.seqNo);
  }

  lemma ModSum(x: nat, m: nat, n: nat)
    ensures ((x + m) % 256 + n) % 256 == (x + (m + n)) % 256
  {}

  /** Two accounts, one after the other. */
  lemma MatchedJoin(log: seq<Event>, log': seq<Event>, bytes: (nat, nat, nat) -> byte,
                    wire: seq<seq<byte>>, wire': seq<seq<byte>>,
                    wire2: seq<seq<byte>>, wrote: seq<(nat, nat)>, wrote': seq<(nat, nat)>, wrote2: seq<(nat, nat)>,
                    seqNo: byte, seqNo': byte)
    requires Matched(log, bytes, wire, wire', wrote, wrote', seqNo)
    requires Matched(log', bytes, wire', wire2, wrote', wrote2, seqNo')
    requires log <= log' && seqNo' == (seqNo + |wire'| - |wire|) % 256
    ensures Matched(log', bytes, wire, wire2, wrote, wrote2, seqNo)
  {
    MatchedLater(log, log', bytes, wire, wire', wrote, wrote', seqNo);
    hide Carries;
    forall j | |wire| <= j < |wire2|
      ensures Carries(log', bytes, wire2[j], (seqNo + j - |wire|) % 256, wrote2[|wrote| + j - |wire|])
    {
      if j < |wire'| {
        assert wire2[j] == wire'[j] && wrote2[|wrote| + j - |wire|] == wrote'[|wrote| + j - |wire|];
      } else {
        assert |wrote'| + j - |wire'| == |wrote| + j - |wire|;
        ModSum(seqNo, |wire'| - |wire|, j - |wire'|);
      }
    }
  }

  class Worker {
    const pump: Pump
    const poller: Poller
    const looks: nat -> Look
    var tick: nat

    ghost const net := pump.s.net
    ghost const fifo := pump.s.fifo
    ghost const q := pump.q

    ghost predicate Valid()
      reads this, pump, pump.q, pump.q.entries, pump.q.backlog, pump.s, pump.s.net, pump.s.fifo
      reads poller, poller.glom, poller.glom.slot, poller.glom.start, poller.glom.end, poller.glom.payload, poller.rx
    {
      && pump.Valid() && pump.q.hand == Idle
      && poller.net == pump.s.net && poller.fifo == pump.s.fifo && poller.rx != pump.s.tx
      && poller.Valid()
    }

    constructor (pump: Pump, poller: Poller, looks: nat -> Look)
      requires pump.Valid() && pump.q.hand == Idle
      requires poller.net == pump.s.net && poller.fifo == pump.s.fifo && poller.rx != pump.s.tx && poller.Valid()
      ensures Valid() && this.pump == pump && this.poller == poller
    {
      this.pump, this.poller, this.looks, tick := pump, poller, looks, 0;
    }

    ghost function Account(): Books
      reads pump.q, pump.s, pump.s.net, pump.s.fifo, poller
    {
      Books(pump.q.log, pump.s.wire, pump.s.net.txSeq, pump.s.net.sent, pump.s.fifo.failed, pump.s.fifo.log, poller.log)
    }

    lemma NothingCarried()
      ensures Carried(Account(), Account(), pump.bytes, 0)
    {
      MatchedNone(pump.q.log, pump.bytes, pump.s.wire, WroteOk(pump.q.log), pump.s.net.txSeq);
    }

    /** The pump stopped early for a reason that holds. */
    ghost predicate Stopped(status: NtStatus)
      reads pump, pump.q, pump.q.entries, pump.q.backlog, pump.s, pump.s.net
    {
      pump.q.Shape() && exists why, mark, from: nat :: why != Goes && pump.Stops(why, status, mark, from)
    }

    /** The pump's turn. The poller's state survives it, and so does a latch. */
    method Send(budget: nat) returns (status: NtStatus, sent: nat)
      requires Valid()
      modifies pump.q, pump.q.entries, pump.q.backlog, pump.s, pump.s.net, pump.s.fifo, pump.s.tx
      ensures Valid() && sent <= budget && sent <= old(Window(pump.s.net.txSeq, pump.s.net.txMax))
      ensures Carried(old(Account()), Account(), pump.bytes, sent) && poller.log == old(poller.log)
      ensures sent == budget || Stopped(status)
    {
      hide WroteOk, Matched, TxMachine.IsRun, NeverReplays, Dead, Legitimate, Window, BurstsOk, Pump.Stops;
      ghost var why, mark, from;
      label before:
      status, sent, why, mark, from := pump.Run(budget);
      poller.OthersKeep@before();
    }

    /** One poll. The pump's state survives it. */
    method PollOnce() returns (status: NtStatus)
      requires Valid()
      modifies poller, pump.s.net, pump.s.fifo, poller.glom, poller.glom.slot, poller.glom.start, poller.glom.end,
        poller.glom.payload, poller.rx
      ensures Valid() && Deliveries(poller.log) <= Deliveries(old(poller.log)) + 1 && pump.q.log == old(pump.q.log)
      ensures Carried(old(Account()), Account(), pump.bytes, 0) && (status == NoMore ==> !pump.s.net.rxPending)
      ensures status != Ok ==> Deliveries(poller.log) == Deliveries(old(poller.log))
    {
      hide WroteOk, Matched, TxMachine.IsRun, NeverReplays, Dead, Legitimate, Window, BurstsOk, Deliveries;
      NothingCarried();
      var channel, offset, length;
      status, channel, offset, length := poller.Poll();
    }

    method SetBatch(on: bool)
      requires Valid()
      modifies poller`rxBatch, poller`rxBatchServiced
      ensures Valid() && Account() == old(Account()) && poller.rxBatch == on && !poller.rxBatchServiced
    {
      poller.rxBatch, poller.rxBatchServiced := on, false;
    }

    /** The receive batch: at most four polls. */
    method Receive() returns (status: NtStatus, polls: nat)
      requires Valid()
      modifies this`tick, poller, pump.s.net, pump.s.fifo, poller.glom, poller.glom.slot, poller.glom.start,
        poller.glom.end, poller.glom.payload, poller.rx
      ensures Valid() && polls <= RX_BUDGET && Deliveries(poller.log) <= Deliveries(old(poller.log)) + polls
      ensures Carried(old(Account()), Account(), pump.bytes, 0) && status != NoMore
      ensures status == Ok ==> polls == RX_BUDGET || looks(tick).leave || !pump.s.net.rxPending
    {
      hide WroteOk, Matched, Carried, Pump.Valid, Poller.Valid, Deliveries;
      SetBatch(true);
      polls := 0;
      status := Ok;
      NothingCarried();
      while polls < RX_BUDGET && !looks(tick).leave
        invariant Valid() && polls <= RX_BUDGET && Deliveries(poller.log) <= Deliveries(old(poller.log)) + polls
        invariant Carried(old(Account()), Account(), pump.bytes, 0) && status == Ok
      {
        ghost var before := Account();
        status := PollOnce();
        tick := tick + 1;
        CarriedJoin(old(Account()), before, Account(), pump.bytes, 0, 0);
        if status != Ok { break; }
        polls := polls + 1;
      }
      SetBatch(false);
      if status == NoMore { status := Ok; }
    }

    /** The pump after the receive batch: under pressure a full turn is followed by up to four single frames. */
    method PostReceive() returns (status: NtStatus, sent: nat)
      requires Valid()
      modifies this`tick, pump.q, pump.q.entries, pump.q.backlog, pump.s, pump.s.net, pump.s.fifo, pump.s.tx
      ensures Valid() && sent <= TX_BUDGET + EXTRA_BUDGET && Carried(old(Account()), Account(), pump.bytes, sent)
      ensures poller.log == old(poller.log)
    {
      hide Stopped, WroteOk, Matched, Carried, Pump.Valid, Poller.Valid;
      status, sent := Send(TX_BUDGET);
      if status != Ok || sent != TX_BUDGET { return; }
      var extra := 0;
      while extra < EXTRA_BUDGET && looks(tick).pressed
        invariant Valid() && extra <= EXTRA_BUDGET && sent == TX_BUDGET + extra && poller.log == old(poller.log)
        invariant Carried(old(Account()), Account(), pump.bytes, sent) && status == Ok
      {
        ghost var before := Account();
        var step;
        status, step := Send(1);
        tick := tick + 1;
        CarriedJoin(old(Account()), before, Account(), pump.bytes, sent, step);
        sent := sent + step;
        if status != Ok || step == 0 { return; }
        extra := extra + 1;
      }
    }

    /** One turn of the worker loop's traffic. `skip` is the known-zero attempt left out when credits are
        exhausted. */
    method Turn(skip: bool) returns (status: NtStatus, sent: nat)
      requires Valid()
      modifies this`tick, pump.q, pump.q.entries, pump.q.backlog, pump.s, pump.s.net, pump.s.fifo, pump.s.tx, poller,
        poller.glom, poller.glom.slot, poller.glom.start, poller.glom.end, poller.glom.payload, poller.rx
      ensures Valid() && sent <= 2 * TX_BUDGET + EXTRA_BUDGET && Carried(old(Account()), Account(), pump.bytes, sent)
      ensures Deliveries(poller.log) <= Deliveries(old(poller.log)) + RX_BUDGET
    {
      hide Worker.Account, Worker.Valid, Stopped, WroteOk, Matched, Carried, Pump.Valid, Poller.Valid, Deliveries;
      status, sent := Ok, 0;
      NothingCarried();
      ghost var start := Account();
      if !skip {
        status, sent := Send(TX_BUDGET);
        if status != Ok { return; }
      }
      ghost var mid, polls := Account(), 0;
      status, polls := Receive();
      CarriedJoin(start, mid, Account(), pump.bytes, sent, 0);
      if status != Ok { return; }
      ghost var late, more := Account(), 0;
      var last;
      status, last := PostReceive();
      CarriedJoin(start, late, Account(), pump.bytes, sent, last);
      sent := sent + last;
    }

    /** Any number of turns, up to the first failure. Pump and poller share the port and the credits, yet the
        whole stretch reads like one: every frame is a recorded buffer, numbered in sequence, against a credit
        of its own; and a turn that finds the FIFO latched moves nothing. */
    method Session(skips: seq<bool>) returns (status: NtStatus, sent: nat)
      requires Valid()
      modifies this`tick, pump.q, pump.q.entries, pump.q.backlog, pump.s, pump.s.net, pump.s.fifo, pump.s.tx, poller,
        poller.glom, poller.glom.slot, poller.glom.start, poller.glom.end, poller.glom.payload, poller.rx
      ensures Valid() && Carried(old(Account()), Account(), pump.bytes, sent)
      ensures pump.s.net.sent == old(pump.s.net.sent) + sent <= pump.s.net.granted
      ensures old(pump.s.fifo.failed) ==>
        sent == 0 && pump.s.fifo.log == old(pump.s.fifo.log) && poller.log == old(poller.log)
    {
      hide WroteOk, Matched, Carried, Pump.Valid, Poller.Valid, Deliveries;
      status, sent := Ok, 0;
      NothingCarried();
      for i := 0 to |skips|
        invariant Valid() && Carried(old(Account()), Account(), pump.bytes, sent) && status == Ok
      {
        ghost var before := Account();
        var more;
        status, more := Turn(skips[i]);
        CarriedJoin(old(Account()), before, Account(), pump.bytes, sent, more);
        sent := sent + more;
        if status != Ok { break; }
      }
      Balance(old(Account()), sent);
    }

    lemma Balance(a: Books, sent: nat)
      requires Valid() && Carried(a, Account(), pump.bytes, sent)
      ensures pump.s.net.sent == a.used + sent <= pump.s.net.granted
      ensures a.failed ==> sent == 0 && pump.s.fifo.log == a.port && poller.log == a.rx
    {
      hide Matched, WroteOk;
      Credits.NeverOverdrawn(pump.s.net.sent, pump.s.net.granted, pump.s.net.txSeq, pump.s.net.txMax);
    }
  }
}
