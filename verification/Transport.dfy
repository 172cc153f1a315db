/** Transport service: the status, acknowledge and mailbox pass that keeps flow control and the receive
    indication current. It never touches the credit counters. */
module Transport {
  import opened Wire
  import opened Credits
  import opened Fifo

  predicate Bit(v: nat, k: nat)
    requires k in {0x1, 0x2, 0x4, 0x10, 0x20, 0x40, 0x80, 0x2000_0000}
  {
    v / k % 2 == 1
  }

  /** The interrupt bits the driver serves. */
  datatype Events = Events(change: bool, frame: bool, mail: bool, other: bool)

  function Served(ist: nat): Events {
    Events(Bit(ist, 0x20), Bit(ist, 0x40), Bit(ist, 0x80), Bit(ist, 0x10) || Bit(ist, 0x2000_0000))
  }

  predicate Any(e: Events) { e.change || e.frame || e.mail || e.other }

  function Merge(a: Events, b: Events): Events {
    Events(a.change || b.change, a.frame || b.frame, a.mail || b.mail, a.other || b.other)
  }

  /** What a pass does to the card's registers, in order; a failed access leaves no mark. */
  datatype RegOp = Probe(value: nat) | Status(value: nat) | AckStatus(events: Events)
    | AckChange | Mail(value: nat) | AckMail

  /** The values a whole pass read: the status, its reread after a flow change, the mailbox word. */
  datatype Pass = NoPass | Pass(first: nat, second: nat, mail: nat)

  /** Status, acknowledgement of exactly what it showed, and the debounced reread after a flow change. */
  function StatusOps(first: nat, second: nat): seq<RegOp> {
    [Status(first)]
    + (if Any(Served(first)) then [AckStatus(Served(first))] else [])
    + (if Served(first).change then [AckChange, Status(second)] else [])
  }

  function PassEvents(first: nat, second: nat): Events {
    if Served(first).change then Merge(Served(first), Served(second)) else Served(first)
  }

  function PassOps(p: Pass): seq<RegOp>
    requires p.Pass?
  {
    StatusOps(p.first, p.second) + if PassEvents(p.first, p.second).mail then [Mail(p.mail), AckMail] else []
  }

  /** Whether data must stop after these status values. */
  predicate Stopped(first: nat, second: nat) {
    if Served(first).change then Bit(second, 0x10) || Bit(second, 0x20) else Bit(first, 0x10)
  }

  class Net {
    const regs: nat -> Option<nat>     // the n-th register access: its value, or a bus failure
    const stops: nat -> bool           // the stop flag other threads set
    const fallbackDue: nat -> bool     // the bounded recheck of a silent pending register
    var tick: nat
    var txSeq: byte
    var txMax: byte
    var txFlow: byte
    var rxPending: bool
    var globalFlow: bool
    var halted: bool
    var lastInterrupt: nat
    var lastMailbox: nat
    ghost var sent: nat
    ghost var granted: nat
    ghost var ops: seq<RegOp>

    ghost predicate Valid()
      reads this`sent, this`granted, this`txSeq, this`txMax
    {
      CreditInv(sent, granted, txSeq, txMax)
    }

    constructor (regs: nat -> Option<nat>, stops: nat -> bool, fallbackDue: nat -> bool)
      ensures Valid() && txSeq == 0 && txMax == 1 && !halted && !rxPending
    {
      this.regs, this.stops, this.fallbackDue := regs, stops, fallbackDue;
      tick, txSeq, txMax, txFlow, rxPending, globalFlow, halted := 0, 0, 1, 0, false, false, false;
      sent, granted, lastInterrupt, lastMailbox, ops := 0, 1, 0, 0, [];
    }

    /** No mask is ever learned, so any flow bit stops data. */
    predicate Open()
      reads this
    {
      !globalFlow && txFlow == 0
    }

    method Access() returns (r: Option<nat>)
      modifies this`tick
      ensures r == regs(old(tick)) && tick == old(tick) + 1
    {
      r := regs(tick);
      tick := tick + 1;
    }

    /** Some register access since tick `from` failed. */
    ghost predicate AccessFailed(from: nat)
      reads this`tick
    {
      exists n :: from <= n < tick && regs(n).None?
    }

    /** The status read, its acknowledgement and, after a flow change, one debounced reread. Data may
        flow only if the last status read shows neither the stop state nor an unsettled change. */
    method ReadStatus() returns (ok: bool, events: Events, ghost first: nat, ghost second: nat)
      modifies this`tick, this`globalFlow, this`lastInterrupt, this`ops
      ensures tick >= old(tick) && (!ok ==> globalFlow && AccessFailed(old(tick)))
      ensures ok ==> ops == old(ops) + StatusOps(first, second) && events == PassEvents(first, second)
      ensures ok ==>
        globalFlow == Stopped(first, second) && lastInterrupt == if Served(first).change then second else first
    {
      hide Bit;
      events, first, second := Events(false, false, false, false), 0, 0;
      var ist := Access();
      if ist.None? { globalFlow := true; return false, events, 0, 0; }
      lastInterrupt, globalFlow, events, first := ist.value, Bit(ist.value, 0x10), Served(ist.value), ist.value;
      ops := ops + [Status(ist.value)];
      if Any(events) {
        var ack := Access();
        if ack.None? { globalFlow := true; return false, events, 0, 0; }
        ops := ops + [AckStatus(events)];
      }
      if events.change {
        var ack := Access();
        if ack.None? { globalFlow := true; return false, events, 0, 0; }
        ops := ops + [AckChange];
        var again := Access();
        if again.None? { globalFlow := true; return false, events, 0, 0; }
        lastInterrupt, globalFlow, second := again.value, Bit(again.value, 0x10) || Bit(again.value, 0x20), again.value;
        ops := ops + [Status(again.value)];
        events := Merge(events, Served(again.value));
      }
      return true, events, first, second;
    }

    /** The mailbox word and its acknowledgement. */
    method ServeMail() returns (ok: bool)
      modifies this`tick, this`globalFlow, this`txFlow, this`rxPending, this`halted, this`lastMailbox, this`ops
      ensures globalFlow == (!ok || old(globalFlow)) && tick >= old(tick) && (!ok ==> AccessFailed(old(tick)))
      ensures ok ==> ops == old(ops) + [Mail(lastMailbox), AckMail]
      ensures ok ==>
        halted == (old(halted) || Bit(lastMailbox, 0x10)) && rxPending == (old(rxPending) || Bit(lastMailbox, 1))
      ensures ok ==> txFlow == if Bit(lastMailbox, 4) then lastMailbox / 0x100_0000 % 256 else old(txFlow)
      ensures !ok ==> halted == old(halted) && rxPending == old(rxPending) && txFlow == old(txFlow)
    {
      hide Bit;
      var mail := Access();
      if mail.None? { globalFlow := true; return false; }
      lastMailbox := mail.value;
      ops := ops + [Mail(mail.value)];
      var ack := Access();
      if ack.None? { globalFlow := true; return false; }
      ops := ops + [AckMail];
      if Bit(mail.value, 4) { txFlow := mail.value / 0x100_0000 % 256; }
      if Bit(mail.value, 1) { rxPending := true; }
      if Bit(mail.value, 0x10) { halted := true; }
      return true;
    }

    /** Everything one whole pass changes, as its register values say. */
    twostate predicate Follows(p: Pass, probed: seq<RegOp>)
      reads this
      requires p.Pass?
    {
      var events := PassEvents(p.first, p.second);
      && ops == old(ops) + probed + PassOps(p)
      && globalFlow == Stopped(p.first, p.second)
      && rxPending == (old(rxPending) || events.frame || (events.mail && Bit(p.mail, 1)))
      && txFlow == (if events.mail && Bit(p.mail, 4) then p.mail / 0x100_0000 % 256 else old(txFlow))
      && halted == (events.mail && Bit(p.mail, 0x10))
    }

    /** CywTransportService. A success means a whole pass, unless the pending register was asked for and
        showed nothing; a failure of any access stops data flow. */
    method Service(probePending: bool) returns (status: NtStatus, ghost pass: Pass, ghost probed: seq<RegOp>)
      modifies this`tick, this`rxPending, this`globalFlow, this`halted, this`txFlow, this`lastInterrupt,
        this`lastMailbox, this`ops
      ensures status in {Ok, Cancelled, NotReady, IoError} && tick >= old(tick)
      ensures (status == Cancelled <==> old(stops(tick))) && tick > old(tick)
      ensures status == IoError ==> globalFlow && AccessFailed(old(tick))
      ensures status == NotReady <==> halted && status != Cancelled
      ensures old(halted) || status == Cancelled ==>
        ops == old(ops) && rxPending == old(rxPending) && globalFlow == old(globalFlow) && txFlow == old(txFlow)
        && halted == old(halted)
      ensures status in {Ok, NotReady} && !old(halted) && pass == NoPass ==>
        && status == Ok && probePending && !old(rxPending)
        && (exists v :: ops == old(ops) + [Probe(v)] && !Bit(v, 2) && !Bit(v, 4))
        && rxPending == old(rxPending) && globalFlow == old(globalFlow) && txFlow == old(txFlow)
      ensures status in {Ok, NotReady} && !old(halted) && pass.Pass? ==>
        (if probePending && !old(rxPending) then |probed| == 1 && probed[0].Probe? else probed == [])
        && Follows(pass, probed)
      ensures old(rxPending) ==> rxPending
    {
      hide Bit, PassOps, PassEvents, Stopped;
      pass := NoPass;
      var stop := stops(tick);
      tick := tick + 1;
      probed := [];
      if stop { return Cancelled, NoPass, []; }
      if halted { return NotReady, NoPass, []; }
      if probePending && !rxPending {
        var pending := Access();
        if pending.None? { globalFlow := true; return IoError, NoPass, []; }
        ops := ops + [Probe(pending.value)];
        probed := [Probe(pending.value)];
        if !Bit(pending.value, 2) && !Bit(pending.value, 4) && !fallbackDue(tick) { return Ok, NoPass, probed; }
      }
      status, pass := RunPass();
    }

    /** A whole pass, past the checks at the top of the service routine. */
    method RunPass() returns (status: NtStatus, ghost pass: Pass)
      requires !halted
      modifies this`tick, this`rxPending, this`globalFlow, this`halted, this`txFlow, this`lastInterrupt,
        this`lastMailbox, this`ops
      ensures status in {Ok, NotReady, IoError} && tick >= old(tick) && (old(rxPending) ==> rxPending)
      ensures status == IoError ==> globalFlow && AccessFailed(old(tick)) && !halted
      ensures status == NotReady <==> halted
      ensures status in {Ok, NotReady} ==> pass.Pass? && Follows(pass, [])
    {
      hide Bit, StatusOps, PassEvents, Stopped;
      var ok, events, first, second := ReadStatus();
      if !ok { return IoError, NoPass; }
      if events.frame { rxPending := true; }
      if events.mail {
        ok := ServeMail();
        if !ok { return IoError, NoPass; }
      }
      pass := Pass(first, second, lastMailbox);
      assert ops == old(ops) + [] + PassOps(pass);
      return if halted then NotReady else Ok, pass;
    }

    /** The credit and flow bytes of an accepted receive header. */
    method TakeHeader(announced: byte, flow: byte)
      requires Valid()
      modifies this`txMax, this`txFlow, this`granted
      ensures Valid() && txFlow == flow && txMax == CreditUpdate(txSeq, old(txMax), announced)
    {
      UpdateKeeps(sent, granted, txSeq, txMax, announced);
      granted := Regrant(sent, granted, txSeq, announced);
      txMax := CreditUpdate(txSeq, txMax, announced);
      txFlow := flow;
    }

    /** One frame has left. */
    method Spend()
      requires Valid() && Credit(txSeq, txMax)
      modifies this`txSeq, this`sent
      ensures Valid() && txSeq == (old(txSeq) + 1) % 256 && sent == old(sent) + 1 <= granted
      ensures Window(txSeq, txMax) == old(Window(txSeq, txMax)) - 1
    {
      SendKeeps(sent, granted, txSeq, txMax);
      WindowExact(sent, granted, txSeq, txMax);
      txSeq, sent := (txSeq + 1) % 256, sent + 1;
    }
  }
}
