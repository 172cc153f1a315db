/** Link publication: what firmware events, worker commands and control requests make of association,
    authorization, the band-selection hold, the published media state and the transmit gate. Every
    execution is a run of LinkMachine. */
module Link {
  import opened Wire
  import opened Fifo
  import opened LinkMachine

  // ---------------------------------------------------------------- firmware events and requests

  datatype FwEvent = FwEvent(kind: nat, status: nat, reason: nat, flags: nat)

  const SUP_COMPLETED: nat := 6
  const NOT_ASSOCIATED: nat := 0xffff_ffef

  /** CywFirmwarePskProgress. */
  predicate Progress(status: nat, reason: nat) { reason == 0 && status in {4, 5, 8, 9, 10, 11} }

  function Classify(e: FwEvent): Meaning {
    if e.kind == 16 then (if e.flags % 2 == 1 && e.status == 0 then LinkUp else LinkDown)
    else if e.kind == 46 then
      (if e.status == SUP_COMPLETED && e.reason == 0 then KeyDone
       else if Progress(e.status, e.reason) then KeyProgress
       else KeyFailed)
    else if e.kind in {5, 6, 11, 12} then Deauth
    else if e.kind == 0 && e.status != 0 then JoinFailed
    else Other
  }

  /** The pending control request. */
  datatype Request = NoRequest | ConnectTo | Disconnect | Radio | Scan

  /** What a control thread asks for. */
  datatype Ioctl = AskConnect | AskDisconnect | AskRadio | AskScan | CancelScan

  /** One turn of the other threads: how they leave the pause and stop flags, whether they refresh the
      gate, and a control request. */
  datatype Others = Others(paused: bool, stopping: bool, refresh: bool, ioctl: Option<Ioctl>)

  const NOTHING: Others := Others(false, false, false, None)
  const SCAN_ASKED: Others := Others(false, false, false, Some(AskScan))

  /** An event, with what other threads do while the worker is handling it. */
  datatype Arrival = Arrival(event: FwEvent, between: Others, after: Others)

  /** What a firmware command or a poll brings: its result; whether its value passes the command's own check,
      or its error is the one the command tolerates; the events dispatched meanwhile; and other threads. */
  datatype Reply = Reply(status: NtStatus, error: nat, good: bool, value: seq<byte>,
                         events: seq<Arrival>, others: Others)

  datatype Look = Look(cancelled: bool, expired: bool)

  /** What the readbacks of one association amount to. */
  datatype Evidence = Evidence(channel: nat, rssi: int)

  predicate MacValid(p: seq<byte>) { |p| == 6 && p[0] % 2 == 0 && exists i :: 0 <= i < 6 && p[i] != 0 }

  function Signed32(v: nat): int { if v >= 0x8000_0000 then v - 0x1_0000_0000 else v }

  /** CywBandReadback: one station before and after, a real channel, a measured signal. */
  function Readback(channel: seq<byte>, rssi: seq<byte>, before: seq<byte>, after: seq<byte>): (e: Option<Evidence>)
    ensures e.Some? ==> (1 <= e.value.channel <= 14 || 32 <= e.value.channel <= 196) && -127 <= e.value.rssi < 0
  {
    if |channel| != 12 || |rssi| != 12 || !MacValid(before) || before != after then None
    else
      var c, dbm := Le32(channel, 0), Signed32(Le32(rssi, 0));
      if c == 0 || c > 196 || (14 < c < 32) || Le32(channel, 4) != c || Le32(channel, 8) != 0
         || dbm >= 0 || dbm < -127 then None
      else Some(Evidence(c, dbm))
  }

  /** CywBandCandidateUsable: any 2.4 GHz association, or a 5 GHz one strong enough. */
  predicate Usable(e: Evidence) { e.channel <= 14 || e.rssi >= -70 }

  /** One readback: which command brought it, and the trace at that point. */
  datatype Shot = Shot(asked: nat, log: seq<Entry>)

  class Adapter {
    const replies: nat -> Reply
    const looks: nat -> Look
    var tick: nat
    var ready: bool
    var paused: bool
    var stopping: bool                 // IoStopped or Stop
    var associated: bool
    var authorized: bool
    var selecting: bool
    var scanBusy: bool
    var request: Request
    var controlBusy: bool
    var radioBusy: bool
    var phase: nat
    var networkOk: bool                // NetworkStatus is success
    var media: bool                    // the media state published to NDIS: connected or not
    var gateOpen: bool                 // whether the transmit gate is at success
    var stage: nat                     // the band-selection result word
    var joins: nat
    ghost var scanning: bool           // the worker is executing a scan request
    ghost var at: EventAt
    ghost var log: seq<Entry>
    ghost var overlapped: bool
    ghost var steps: seq<Step>

    ghost function S(): State
      reads this`associated, this`authorized, this`selecting, this`scanBusy, this`media, this`at, this`log,
        this`overlapped
    {
      State(associated, authorized, selecting, scanBusy, media, at, log, overlapped)
    }

    /** The flags and the trace are those of a run; a scan is busy exactly while queued or executed. */
    ghost predicate Reached()
      reads this`associated, this`authorized, this`selecting, this`scanBusy, this`media, this`at, this`log,
        this`overlapped
      reads this`steps, this`request, this`scanning, this`controlBusy
    {
      && IsRun(Init(), steps, S())
      && (request == Scan ==> scanBusy) && (scanBusy ==> request == Scan || scanning)
      && (scanning ==> scanBusy && controlBusy && request == NoRequest)
    }

    /** Between events: what is published is exactly the connection, never during the hold, and frames pass
        only while it is published. */
    ghost predicate Settled()
      reads this`associated, this`authorized, this`selecting, this`scanBusy, this`media, this`at, this`log,
        this`overlapped, this`steps, this`request, this`scanning, this`controlBusy, this`gateOpen
    {
      Reached() && at == Between && media == (associated && authorized && !selecting) && (gateOpen ==> media)
    }

    /** No scan is queued between the check of an event and its update. */
    ghost predicate NoOverlap() {
      forall n: nat, i: nat :: i < |replies(n).events| ==> replies(n).events[i].between.ioctl != Some(AskScan)
    }

    /** The trace only grows, and is overlapped only by a scan queued at the wrong moment. */
    twostate predicate Went()
      reads this`log, this`overlapped
    {
      old(log) <= log && (NoOverlap() ==> overlapped == old(overlapped))
    }

    constructor (replies: nat -> Reply, looks: nat -> Look)
      ensures Settled() && log == [] && !overlapped && !controlBusy && !selecting && !associated && !authorized
      ensures !paused && !stopping && request == NoRequest && !radioBusy && !scanBusy
    {
      this.replies, this.looks := replies, looks;
      tick, ready, paused, stopping, associated, authorized := 0, false, false, false, false, false;
      selecting, scanBusy, media, gateOpen, stage, joins := false, false, false, false, 0, 0;
      request, controlBusy, radioBusy, phase, networkOk := NoRequest, false, false, 0, true;
      scanning, at, log, overlapped, steps := false, Between, [], false, [];
    }

    ghost method Took(before: State, taken: seq<Step>, step: Step)
      requires steps == taken && IsRun(Init(), taken, before) && Enabled(before, step)
      requires S() == LinkMachine.Next(before, step)
      modifies this`steps
      ensures IsRun(Init(), steps, S())
    {
      RunExtends(Init(), taken, before, step);
      steps := taken + [step];
    }

    // -------------------------------------------------------------- small steps of the worker

    /** CywRefreshTxGate. */
    method RefreshGate()
      modifies this`gateOpen
      ensures gateOpen <==> !stopping && !paused && ready && associated && authorized && !selecting
    {
      gateOpen := !stopping && !paused && ready && associated && authorized && !selecting;
    }

    /** CywLink. */
    method Publish(up: bool)
      modifies this`media, this`gateOpen
      ensures media == if up && selecting then old(media) else up
      ensures if media == old(media) then gateOpen == old(gateOpen)
              else gateOpen <==> !stopping && !paused && ready && associated && authorized && !selecting
    {
      if up && selecting { return; }
      if media == up { return; }
      media := up;
      RefreshGate();
    }

    /** The link published as the flags have it. */
    method Announce()
      requires Reached() && !at.Checked? && (gateOpen ==> media || (associated && authorized && !selecting))
      modifies this`media, this`gateOpen, this`at, this`steps
      ensures Reached() && at == Between
      ensures media == (if associated && authorized then old(media) || !selecting else false)
      ensures gateOpen ==> media
    {
      hide IsRun;
      ghost var s, t := S(), steps;
      Publish(associated && authorized);
      at := Between;
      Took(s, t, Step.Announce);
    }

    /** The link published as down. */
    method Drop()
      requires Reached() && at == Between && (gateOpen ==> media) && !(associated && authorized)
      modifies this`media, this`gateOpen, this`steps
      ensures Settled() && !media && !gateOpen
    {
      hide IsRun;
      ghost var s, t := S(), steps;
      Publish(false);
      Took(s, t, Down);
    }

    /** Both flags dropped by the worker. */
    method Clear()
      requires Reached() && at == Between
      modifies this`associated, this`authorized, this`log, this`steps
      ensures Reached() && !associated && !authorized && log == old(log) + [Entry(Cleared, true)]
    {
      hide IsRun;
      ghost var s, t := S(), steps;
      associated, authorized, log := false, false, log + [Entry(Cleared, true)];
      Took(s, t, Step.Clear);
    }

    /** Both flags dropped, and the link published as down. */
    method Lower()
      requires Reached() && at == Between && (gateOpen ==> media)
      modifies this`associated, this`authorized, this`media, this`gateOpen, this`log, this`steps
      ensures Settled() && !associated && !authorized && !media && !gateOpen
      ensures log == old(log) + [Entry(Cleared, true)]
    {
      hide Reached, IsRun, LinkMachine.Next, Enabled, Init;
      Clear();
      Drop();
    }

    method SetHold(on: bool)
      requires Reached() && at == Between
      modifies this`selecting, this`steps
      ensures Reached() && selecting == on
    {
      hide IsRun;
      ghost var s, t := S(), steps;
      selecting := on;
      Took(s, t, Hold(on));
    }

    // -------------------------------------------------------------- other threads

    predicate CanScan()
      reads this
    {
      && ready && !stopping && !paused && request == NoRequest && !controlBusy && !radioBusy && !scanBusy
      && !selecting && !associated && !authorized && phase == 500 && networkOk
    }

    /** The dispatch of a scan request: the control thread looks at flags the worker may be about to set. */
    method StartScan()
      requires Reached()
      modifies this`scanBusy, this`request, this`overlapped, this`steps
      ensures Reached()
      ensures controlBusy ==> request == old(request) && scanBusy == old(scanBusy) && overlapped == old(overlapped)
      ensures overlapped == (old(overlapped) || (scanBusy && !old(scanBusy) && Pending(at)))
      ensures scanBusy == (old(scanBusy) || old(CanScan())) && (old(CanScan()) ==> request == Scan)
    {
      hide IsRun;
      if CanScan() {
        ghost var s, t := S(), steps;
        scanBusy, request, overlapped := true, Scan, overlapped || Pending(at);
        Took(s, t, Dispatch);
      }
    }

    /** A queued scan that the worker has not taken is withdrawn: CywScanQuiesce, and a cancel request. */
    method Withdraw()
      requires Reached()
      modifies this`scanBusy, this`request, this`steps
      ensures Reached() && request == (if old(request) == Scan && !controlBusy then NoRequest else old(request))
      ensures scanBusy == (old(scanBusy) && !(old(request) == Scan && !controlBusy))
    {
      hide IsRun;
      if scanBusy && request == Scan && !controlBusy {
        ghost var s, t := S(), steps;
        scanBusy, request := false, NoRequest;
        Took(s, t, EndScan);
      }
    }

    /** A turn of the other threads. It may come at any point of the worker's code. */
    method Outside(o: Others)
      requires Reached()
      modifies this`paused, this`stopping, this`gateOpen, this`scanBusy, this`request, this`radioBusy, this`overlapped,
        this`steps
      ensures Reached() && (controlBusy ==> overlapped == old(overlapped) && (scanBusy ==> old(scanBusy)))
      ensures !Pending(at) || o.ioctl != Some(AskScan) ==> overlapped == old(overlapped)
      ensures o == SCAN_ASKED && old(CanScan()) ==>
        scanBusy && request == Scan && overlapped == (old(overlapped) || Pending(at))
      ensures o == NOTHING ==> scanBusy == old(scanBusy) && request == old(request) && overlapped == old(overlapped)
      ensures gateOpen ==> old(gateOpen) || (associated && authorized && !selecting)
    {
      hide IsRun;
      paused, stopping := o.paused, o.stopping;
      if paused { Withdraw(); }
      if o.ioctl.Some? { Control(o.ioctl.value); }
      if o.refresh { RefreshGate(); }
    }

    /** A control request, by the guards of its dispatch. */
    method Control(ask: Ioctl)
      requires Reached()
      modifies this`scanBusy, this`request, this`radioBusy, this`overlapped, this`steps
      ensures Reached() && (controlBusy ==> overlapped == old(overlapped) && (scanBusy ==> old(scanBusy)))
      ensures !Pending(at) || ask != AskScan ==> overlapped == old(overlapped)
      ensures ask == AskScan && old(CanScan()) ==>
        scanBusy && request == Scan && overlapped == (old(overlapped) || Pending(at))
    {
      hide IsRun, Pending;
      match ask {
        case AskScan => StartScan();
        case CancelScan => Withdraw();
        case AskRadio =>
          if ready && associated && authorized && !selecting && !paused && !stopping && request == NoRequest
            && !radioBusy && !scanBusy {
            radioBusy, request := true, Radio;
          }
        case _ =>
          if ready && request == NoRequest && !radioBusy && !scanBusy {
            request := if ask == AskConnect then ConnectTo else Disconnect;
          }
      }
    }

    // -------------------------------------------------------------- events

    /** The look at ScanBusy that opens the handling of an event. */
    method Check(ghost m: Meaning) returns (goes: bool)
      requires Reached() && at == Between
      modifies this`at, this`log, this`steps
      ensures Reached() && goes == !scanBusy && at == (if goes then Checked(m) else Between)
      ensures log == if goes then old(log) else old(log) + [Entry(m, false)]
    {
      hide IsRun;
      ghost var s, t := S(), steps;
      goes := !scanBusy;
      if goes { at := Checked(m); } else { log := log + [Entry(m, false)]; }
      Took(s, t, Arrive(m));
    }

    /** The two flags, by the type and status of the event. */
    method Decide(e: FwEvent)
      modifies this`associated, this`authorized
      ensures associated == Flags(old(associated), old(authorized), e).0
      ensures authorized == Flags(old(associated), old(authorized), e).1
    {
      if e.kind == 16 {
        associated := e.flags % 2 == 1 && e.status == 0;
        if !associated { authorized := false; }
      } else if e.kind == 46 {
        if e.status == SUP_COMPLETED && e.reason == 0 { authorized := true; }
        else if !Progress(e.status, e.reason) { authorized := false; }
      } else if e.kind in {5, 6, 11, 12} || (e.kind == 0 && e.status != 0) {
        associated, authorized := false, false;
      }
    }

    /** The update step of an event past the check. */
    method SetFlags(e: FwEvent)
      requires Reached() && at == Checked(Classify(e))
      modifies this`associated, this`authorized, this`at, this`log, this`steps
      ensures Reached() && at == Updated && log == old(log) + [Entry(Classify(e), true)]
    {
      hide IsRun, Classify, Flags, Flagged;
      ghost var s, t := S(), steps;
      FlagsByMeaning(s, e);
      Decide(e);
      at, log := Updated, log + [Entry(Classify(e), true)];
      Took(s, t, Update);
    }

    /** CywEvent, for a validated event that is not a scan event, with other threads between its parts.
        Every event leaves its mark in the trace, an ignored one as ignored. */
    method Event(x: Arrival)
      requires Settled()
      modifies this`paused, this`stopping, this`associated, this`authorized, this`media, this`gateOpen, this`log,
        this`at, this`scanBusy, this`request, this`radioBusy, this`phase, this`overlapped, this`steps
      ensures Settled() && log == old(log) + [Entry(Classify(x.event), !old(scanBusy))]
      ensures old(scanBusy) ==>
        associated == old(associated) && authorized == old(authorized) && scanBusy && request == old(request)
      ensures (old(CanScan()) && x.between == SCAN_ASKED && x.after == NOTHING && Raises(Classify(x.event))) ==>
        scanBusy && request == Scan && overlapped
      ensures x.between == NOTHING && x.after == NOTHING ==> scanBusy == old(scanBusy) && request == old(request)
      ensures controlBusy ==> overlapped == old(overlapped) && (scanBusy ==> old(scanBusy))
      ensures x.between.ioctl != Some(AskScan) ==> overlapped == old(overlapped)
    {
      hide IsRun, Classify, Pending, LinkMachine.Next, Enabled, Init;
      var goes := Check(Classify(x.event));
      if goes { Handle(x); }
    }

    /** The rest of an event that was let through. */
    method Handle(x: Arrival)
      requires Reached() && at == Checked(Classify(x.event)) && media == (associated && authorized && !selecting)
      requires gateOpen ==> media
      modifies this`paused, this`stopping, this`associated, this`authorized, this`media, this`gateOpen, this`log,
        this`at, this`scanBusy, this`request, this`radioBusy, this`phase, this`overlapped, this`steps
      ensures Settled() && log == old(log) + [Entry(Classify(x.event), true)]
      ensures controlBusy ==> overlapped == old(overlapped) && (scanBusy ==> old(scanBusy))
      ensures x.between.ioctl != Some(AskScan) ==> overlapped == old(overlapped)
      ensures (old(CanScan()) && x.between == SCAN_ASKED && x.after == NOTHING && Raises(Classify(x.event))) ==>
        scanBusy && request == Scan && overlapped
      ensures x.between == NOTHING && x.after == NOTHING ==> scanBusy == old(scanBusy) && request == old(request)
    {
      hide Reached, IsRun, Classify, LinkMachine.Next, Enabled, Init;
      Outside(x.between);
      SetFlags(x.event);
      Conclude(x.after);
    }

    /** Publication, and the phase shown to the user. */
    method Conclude(o: Others)
      requires Reached() && at == Updated && (gateOpen ==> media || (associated && authorized && !selecting))
      requires media ==> !selecting
      modifies this`paused, this`stopping, this`media, this`gateOpen, this`at, this`scanBusy, this`request,
        this`radioBusy, this`phase, this`overlapped, this`steps
      ensures Settled() && overlapped == old(overlapped) && (controlBusy && scanBusy ==> old(scanBusy))
      ensures o == NOTHING ==> scanBusy == old(scanBusy) && request == old(request)
    {
      hide Reached, IsRun, Classify, LinkMachine.Next, Enabled, Init;
      Outside(o);
      Announce();
      SetPhase();
    }

    method SetPhase()
      modifies this`phase
      ensures phase == 500 <==> !selecting && !associated
    {
      phase := if selecting then (if stage in {6, 8} then 510 else 520)
               else if associated && authorized then 600 else if associated then 520 else 500;
    }

    /** One firmware command or poll. */
    method Ask() returns (r: Reply)
      requires Settled()
      modifies this`tick, this`paused, this`stopping, this`associated, this`authorized, this`media, this`gateOpen,
        this`log, this`at, this`scanBusy, this`request, this`radioBusy, this`phase, this`overlapped, this`steps
      ensures Settled() && Went() && r == replies(old(tick)) && tick == old(tick) + 1
      ensures scanning ==> associated == old(associated) && authorized == old(authorized)
      ensures controlBusy ==> overlapped == old(overlapped) && (scanBusy ==> old(scanBusy))
    {
      hide Reached, IsRun, Classify, LinkMachine.Next, Enabled, Init;
      r := replies(tick);
      if scanning { Executing(); }
      for i := 0 to |r.events|
        invariant Settled() && Went() && tick == old(tick)
        invariant scanning ==> associated == old(associated) && authorized == old(authorized) && scanBusy
        invariant controlBusy ==> overlapped == old(overlapped) && (scanBusy ==> old(scanBusy))
      {
        Event(r.events[i]);
        assert NoOverlap() ==> replies(tick).events[i].between.ioctl != Some(AskScan);
      }
      tick := tick + 1;
      Outside(r.others);
    }

    /** CywBandCancelled: stopping, pausing, or a newer request. */
    method Cancelled() returns (c: bool)
      modifies this`tick
      ensures tick == old(tick) + 1
    {
      c := stopping || paused || request in {ConnectTo, Disconnect} || looks(tick).cancelled;
      tick := tick + 1;
    }

    // -------------------------------------------------------------- band selection

    /** The hold, during a control request: nothing is published while it lasts, and no scan can be queued. */
    ghost predicate Holding()
      reads this`associated, this`authorized, this`selecting, this`scanBusy, this`media, this`at, this`log,
        this`overlapped, this`steps, this`request, this`scanning, this`controlBusy, this`gateOpen
    {
      Settled() && selecting && controlBusy && !scanBusy
    }

    /** A shot at which the association stood. */
    ghost predicate Stood(shot: Shot) {
      replies(shot.asked).status == Ok && Associated(shot.log, false) && Authorized(shot.log, false)
    }

    /** One of the five readbacks, with the association still standing after it. The station record has a
        parser of its own instead of a fixed length. */
    method BandGet(length: Option<nat>) returns (status: NtStatus, value: seq<byte>, ghost shot: Shot)
      requires Holding()
      modifies this`tick, this`paused, this`stopping, this`associated, this`authorized, this`media, this`gateOpen,
        this`log, this`at, this`scanBusy, this`request, this`radioBusy, this`phase, this`overlapped, this`steps
      ensures Holding() && Went() && tick > old(tick)
      ensures status == Ok ==>
        associated && authorized && old(tick) <= shot.asked < tick && shot.log == log && Stood(shot)
      ensures status == Ok ==> value == replies(shot.asked).value && (length.Some? ==> |value| == length.value)
      ensures status == Ok && length.None? ==> replies(shot.asked).good
    {
      hide IsRun, LinkMachine.Next, Enabled, Init, Associated, Authorized;
      shot := Shot(tick, log);
      var c := Cancelled();
      if c { return NtStatus.Cancelled, [], shot; }
      if looks(tick).expired { return Timeout, [], shot; }
      shot := Shot(tick, log);
      var r := Ask();
      shot := shot.(log := log);
      if r.status != Ok { return r.status, [], shot; }
      if (if length.Some? then |r.value| != length.value else !r.good) || !associated || !authorized {
        return DataError, [], shot;
      }
      FlagsAreEarned();
      return Ok, r.value, shot;
    }

    /** The flags are what the events acted on amount to. */
    lemma FlagsAreEarned()
      requires Reached()
      ensures associated == Associated(log, false) && authorized == Authorized(log, false)
    {
      hide IsRun;
      EveryRunKeeps(steps, S());
    }

    /** Five successful readbacks, one after the other, the association standing at each, agree on one
        station and amount to the evidence. */
    ghost predicate Verified(shots: seq<Shot>, evidence: Evidence, from: nat) {
      && |shots| == 5 && from <= shots[0].asked
      && (forall i, j :: 0 <= i < j < 5 ==> shots[i].asked < shots[j].asked)
      && (forall i :: 0 <= i < 5 ==> Stood(shots[i])) && replies(shots[3].asked).good
      && Readback(replies(shots[1].asked).value, replies(shots[2].asked).value,
                  replies(shots[0].asked).value, replies(shots[4].asked).value) == Some(evidence)
    }

    /** CywBandVerify. */
    method BandVerify() returns (status: NtStatus, evidence: Evidence, ghost shots: seq<Shot>)
      requires Holding()
      modifies this`tick, this`paused, this`stopping, this`associated, this`authorized, this`media, this`gateOpen,
        this`log, this`at, this`scanBusy, this`request, this`radioBusy, this`phase, this`overlapped, this`steps
      ensures Holding() && Went() && tick >= old(tick)
      ensures status == Ok ==> associated && authorized && Verified(shots, evidence, old(tick)) && shots[4].log == log
    {
      hide Settled, Reached, NoOverlap, IsRun, LinkMachine.Next, Enabled, Init, Associated, Authorized, Renewed, Stood,
        Readback;
      evidence, shots := Evidence(0, 0), [];
      var before, channel, rssi, station, after;
      ghost var a, b, c, d, e;
      status, before, a := BandGet(Some(6));
      if status != Ok { return; }
      status, channel, b := BandGet(Some(12));
      if status != Ok { return; }
      status, rssi, c := BandGet(Some(12));
      if status != Ok { return; }
      status, station, d := BandGet(None);
      if status != Ok { return; }
      status, after, e := BandGet(Some(6));
      if status != Ok { return; }
      var cancel := Cancelled();
      if cancel { return NtStatus.Cancelled, evidence, []; }
      var read := Readback(channel, rssi, before, after);
      if read.None? { return DataError, evidence, []; }
      return Ok, read.value, [a, b, c, d, e];
    }

    /** CywBandWait: poll until associated and authorized, then verify. */
    method BandWait(turns: nat) returns (status: NtStatus, evidence: Evidence, ghost shots: seq<Shot>)
      requires Holding()
      modifies this`tick, this`paused, this`stopping, this`associated, this`authorized, this`media, this`gateOpen,
        this`log, this`at, this`scanBusy, this`request, this`radioBusy, this`phase, this`overlapped, this`steps
      ensures Holding() && Went() && tick >= old(tick)
      ensures status == Ok ==> associated && authorized && Verified(shots, evidence, old(tick)) && shots[4].log == log
    {
      hide Settled, Reached, NoOverlap, IsRun, LinkMachine.Next, Enabled, Init, Associated, Authorized, Renewed, Stood,
        Readback;
      evidence, shots := Evidence(0, 0), [];
      var left := turns;
      while left > 0 && !looks(tick).expired
        invariant Holding() && Went() && tick >= old(tick)
      {
        var c := Cancelled();
        if c { return NtStatus.Cancelled, evidence, []; }
        if associated && authorized {
          status, evidence, shots := BandVerify();
          return;
        }
        var r := Ask();
        if r.status !in {Ok, NoMore} { return r.status, evidence, []; }
        left := left - 1;
      }
      var c := Cancelled();
      return if c then NtStatus.Cancelled else Timeout, evidence, [];
    }

    /** A failure the selection may answer with one more join. */
    predicate Retriable(status: NtStatus) { status in {Timeout, DataError, Unsuccessful} }

    /** The one fallback: an explicit disassociation, then a second join without the preference. */
    method Fallback(turns: nat) returns (status: NtStatus)
      requires Holding() && joins == 1
      modifies this`tick, this`paused, this`stopping, this`associated, this`authorized, this`media, this`gateOpen,
        this`log, this`at, this`scanBusy, this`request, this`radioBusy, this`phase, this`overlapped, this`steps,
        this`stage, this`joins
      ensures Holding() && Went() && joins in {1, 2}
      ensures status == Ok ==> associated && authorized && joins == 2 && stage == 5
      ensures status == Ok ==>
        && Renewed(old(log), log)
        && exists shots: seq<Shot>, e: Evidence, from: nat :: Verified(shots, e, from) && shots[4].log == log
    {
      hide Settled, Reached, NoOverlap, IsRun, LinkMachine.Next, Enabled, Init, Associated, Authorized, Renewed,
        Verified;
      stage := 4;
      status := Disassociate();
      if status != Ok { return; }
      var c := Cancelled();
      if c { return NtStatus.Cancelled; }
      joins := 2;
      ghost var mid := log;
      var evidence;
      status, evidence := TryJoin(turns);
      RenewedLater(old(log), mid, log);
      if status == Ok { stage := 5; }
    }

    /** The explicit disassociation. That there was no association to give up is no failure. */
    method Disassociate() returns (status: NtStatus)
      requires Holding()
      modifies this`tick, this`paused, this`stopping, this`associated, this`authorized, this`media, this`gateOpen,
        this`log, this`at, this`scanBusy, this`request, this`radioBusy, this`phase, this`overlapped, this`steps
      ensures Holding() && Went() && (status == Ok ==> !associated && !authorized && Renewed(old(log), log))
    {
      hide Reached, NoOverlap, IsRun, LinkMachine.Next, Enabled, Init, Associated, Authorized, Renewed, Verified;
      var r := Ask();
      if r.status != Ok && !(r.status == Unsuccessful && r.error == NOT_ASSOCIATED) { return r.status; }
      ghost var mid := log;
      Forget();
      RenewedSince(old(log), mid, log);
      return Ok;
    }

    /** The first join, under the band preference, and whether a second one is called for. */
    method FirstJoin(turns: nat) returns (status: NtStatus, evidence: Evidence, fallback: bool)
      requires Holding() && joins == 0
      modifies this`tick, this`paused, this`stopping, this`associated, this`authorized, this`media, this`gateOpen,
        this`log, this`at, this`scanBusy, this`request, this`radioBusy, this`phase, this`overlapped, this`steps,
        this`joins
      ensures Holding() && Went() && joins <= 1 && (status == Ok ==> joins == 1 && Renewed(old(log), log))
      ensures status == Ok && !fallback ==> associated && authorized && Usable(evidence)
      ensures status == Ok && !fallback ==>
        exists shots: seq<Shot>, from: nat :: Verified(shots, evidence, from) && shots[4].log == log
    {
      hide Settled, Reached, NoOverlap, IsRun, LinkMachine.Next, Enabled, Init, Associated, Authorized, Renewed,
        Verified;
      status, evidence, fallback := Attempt(turns);
      if status != Ok { return; }
      ghost var mid, shots := log, [];
      var r := Ask();
      if r.status != Ok { return r.status, evidence, false; }
      var c := Cancelled();
      if c { return NtStatus.Cancelled, evidence, false; }
      RenewedLater(old(log), mid, log);
      if fallback { return Ok, evidence, true; }
      status, evidence, shots := BandVerify();
      RenewedLater(old(log), mid, log);
      if status == Ok { return Ok, evidence, !Usable(evidence); }
      if Retriable(status) { return Ok, evidence, true; }
    }

    /** Up to the verdict on the first association. */
    method Attempt(turns: nat) returns (status: NtStatus, evidence: Evidence, fallback: bool)
      requires Holding() && joins == 0
      modifies this`tick, this`paused, this`stopping, this`associated, this`authorized, this`media, this`gateOpen,
        this`log, this`at, this`scanBusy, this`request, this`radioBusy, this`phase, this`overlapped, this`steps,
        this`joins
      ensures Holding() && Went() && joins <= 1 && (status == Ok ==> joins == 1 && Renewed(old(log), log))
    {
      hide Settled, Reached, NoOverlap, IsRun, LinkMachine.Next, Enabled, Init, Associated, Authorized, Renewed,
        Verified;
      evidence, fallback := Evidence(0, 0), false;
      var c := Cancelled();
      if c { return NtStatus.Cancelled, evidence, false; }
      joins := 1;
      Forget();
      ghost var mid := log;
      status, evidence := TryJoin(turns);
      RenewedLater(old(log), mid, log);
      c := Cancelled();
      if c || status == NtStatus.Cancelled { return NtStatus.Cancelled, evidence, false; }
      if status == Ok { return Ok, evidence, !Usable(evidence); }
      if Retriable(status) { return Ok, evidence, true; }
    }

    /** Both flags dropped before a join. */
    method Forget()
      requires Holding()
      modifies this`associated, this`authorized, this`log, this`steps
      ensures Holding() && !associated && !authorized && old(log) <= log && Renewed(old(log), log)
    {
      hide Reached, IsRun, LinkMachine.Next, Enabled, Init, Renewed;
      Clear();
      RenewedBy(old(log), old(log), log);
    }

    method TryJoin(turns: nat) returns (status: NtStatus, evidence: Evidence)
      requires Holding()
      modifies this`tick, this`paused, this`stopping, this`associated, this`authorized, this`media, this`gateOpen,
        this`log, this`at, this`scanBusy, this`request, this`radioBusy, this`phase, this`overlapped, this`steps
      ensures Holding() && Went()
      ensures status == Ok ==>
        && associated && authorized
        && exists shots: seq<Shot>, from: nat :: Verified(shots, evidence, from) && shots[4].log == log
    {
      hide Settled, Reached, NoOverlap, IsRun, LinkMachine.Next, Enabled, Init, Associated, Authorized, Renewed,
        Verified;
      evidence := Evidence(0, 0);
      var r := Ask();
      status := r.status;
      ghost var shots;
      if status == Ok { status, evidence, shots := BandWait(turns); }
    }

    /** The selection up to its exit label. */
    method Select(turns: nat) returns (status: NtStatus, evidence: Evidence)
      requires Holding() && joins == 0
      modifies this`tick, this`paused, this`stopping, this`associated, this`authorized, this`media, this`gateOpen,
        this`log, this`at, this`scanBusy, this`request, this`radioBusy, this`phase, this`overlapped, this`steps,
        this`stage, this`joins
      ensures Holding() && Went() && joins <= 2
      ensures status == Ok ==>
        associated && authorized && (if joins == 1 then Usable(evidence) else joins == 2) && Renewed(old(log), log)
      ensures status == Ok ==> stage == if joins == 2 then 5 else if evidence.channel > 14 then 2 else 3
      ensures status == Ok ==>
        exists shots: seq<Shot>, e: Evidence, from: nat :: Verified(shots, e, from) && shots[4].log == log
    {
      hide Settled, Reached, NoOverlap, IsRun, LinkMachine.Next, Enabled, Init, Associated, Authorized, Renewed,
        Verified;
      stage := 1;
      var fallback;
      status, evidence, fallback := FirstJoin(turns);
      if status != Ok { return; }
      if fallback {
        ghost var mid := log;
        status := Fallback(turns);
        if status != Ok { return; }
        RenewedLater(old(log), mid, log);
      } else {
        stage := if evidence.channel > 14 then 2 else 3;
      }
      var c := Cancelled();
      if c { return NtStatus.Cancelled, evidence; }
      if !associated || !authorized { return DataError, evidence; }
    }

    /** CywJoinSelectedBand: the hold is released by success alone, and success publishes. */
    method JoinSelectedBand(turns: nat) returns (status: NtStatus)
      requires Holding()
      modifies this`tick, this`paused, this`stopping, this`associated, this`authorized, this`media, this`gateOpen,
        this`log, this`at, this`scanBusy, this`request, this`radioBusy, this`phase, this`overlapped, this`steps,
        this`stage, this`joins, this`selecting
      ensures Settled() && Went() && !scanBusy && selecting == (status != Ok) && joins <= 2
      ensures status == Ok ==> associated && authorized && media && stage in {2, 3, 5} && (stage == 5 <==> joins == 2)
      ensures status == Ok ==>
        exists shots: seq<Shot>, e: Evidence, from: nat :: Verified(shots, e, from) && shots[4].log == log
      ensures status != Ok ==>
        !associated && !authorized && !media && stage == if status == NtStatus.Cancelled then 8 else 6
    {
      hide Reached, NoOverlap, IsRun, LinkMachine.Next, Enabled, Init, Associated, Authorized, Renewed, Verified;
      joins := 0;
      var evidence;
      status, evidence := Select(turns);
      if status != Ok {
        stage := if status == NtStatus.Cancelled then 8 else 6;
        Clear();
      }
      SetHold(status != Ok);
      Announce();
      phase := if status == Ok then 600 else 510;
    }

    // -------------------------------------------------------------- worker steps

    /** The configuration commands of a connect request, in order; a refused one may be optional. */
    method Configure(commands: nat) returns (status: NtStatus)
      requires Holding()
      modifies this`tick, this`paused, this`stopping, this`associated, this`authorized, this`media, this`gateOpen,
        this`log, this`at, this`scanBusy, this`request, this`radioBusy, this`phase, this`overlapped, this`steps
      ensures Holding() && Went()
    {
      hide Reached, NoOverlap, IsRun, LinkMachine.Next, Enabled, Init, Associated, Authorized, Renewed;
      var r := Ask();
      if r.status != Ok { return r.status; }
      Clear();
      for i := 0 to commands
        invariant Holding() && Went()
      {
        r := Ask();
        if r.status != Ok && !r.good { return r.status; }
      }
      return Ok;
    }

    /** The join itself: with a band preference, or the plain asynchronous one when the firmware has none. */
    method Join(turns: nat) returns (status: NtStatus)
      requires Holding()
      modifies this`tick, this`paused, this`stopping, this`associated, this`authorized, this`media, this`gateOpen,
        this`log, this`at, this`scanBusy, this`request, this`radioBusy, this`phase, this`overlapped, this`steps,
        this`stage, this`joins, this`selecting
      ensures Settled() && Went() && !scanBusy && (status == Ok ==> !selecting)
    {
      hide Reached, NoOverlap, IsRun, LinkMachine.Next, Enabled, Init, Associated, Authorized, Renewed, Verified;
      var preference := Ask();
      if preference.status == Ok {
        status := JoinSelectedBand(turns);
        return;
      }
      if preference.status != Unsuccessful || !preference.good { return preference.status; }
      status := PlainJoin();
    }

    /** The asynchronous join, which claims no verified band. */
    method PlainJoin() returns (status: NtStatus)
      requires Holding()
      modifies this`tick, this`paused, this`stopping, this`associated, this`authorized, this`media, this`gateOpen,
        this`log, this`at, this`scanBusy, this`request, this`radioBusy, this`phase, this`overlapped, this`steps,
        this`stage, this`joins, this`selecting
      ensures Settled() && Went() && !scanBusy && (status == Ok <==> !selecting)
    {
      hide Reached, NoOverlap, IsRun, LinkMachine.Next, Enabled, Init;
      stage, joins := 7, 1;
      var r := Ask();
      status := r.status;
      if status == Ok {
        SetHold(false);
        Announce();
        phase := if associated && authorized then 600 else 520;
      }
    }

    /** CywConnect. The published link goes down first and the hold begins; a verified band ends it, and so
        does an accepted join without a preference. After any failure the hold stays. */
    method Connect(commands: nat, turns: nat) returns (status: NtStatus)
      requires Settled() && controlBusy && !scanBusy
      modifies this`tick, this`paused, this`stopping, this`associated, this`authorized, this`media, this`gateOpen,
        this`log, this`at, this`scanBusy, this`request, this`radioBusy, this`phase, this`overlapped, this`steps,
        this`stage, this`joins, this`selecting, this`networkOk
      ensures Settled() && !scanBusy && Went() && Renewed(old(log), log)
      ensures status == Ok <==> !selecting
      ensures status != Ok ==> !associated && !authorized && !media
    {
      hide Reached, NoOverlap, IsRun, LinkMachine.Next, Enabled, Init, Associated, Authorized, Renewed;
      ghost var before := log;
      Lower();
      SetHold(true);
      phase, networkOk := 510, true;
      status := Configure(commands);
      if status == Ok { status := Join(turns); }
      if status != Ok {
        stage := if status == NtStatus.Cancelled then 8 else 6;
        SetHold(true);
        Lower();
      }
      RenewedBy(before, before, log);
    }

    /** A connect or disconnect request, taken by the worker. */
    method ControlStep(connect: bool, commands: nat, turns: nat) returns (status: NtStatus)
      requires Settled() && controlBusy && !scanBusy
      modifies this`tick, this`paused, this`stopping, this`associated, this`authorized, this`media, this`gateOpen,
        this`log, this`at, this`scanBusy, this`request, this`radioBusy, this`phase, this`overlapped, this`steps,
        this`stage, this`joins, this`selecting, this`networkOk
      ensures Settled() && !scanBusy && Went() && Renewed(old(log), log)
      ensures !connect || status != Ok ==> !associated && !authorized && !media && !gateOpen
      ensures (!connect ==> !selecting) && networkOk == (status == Ok)
    {
      hide Reached, NoOverlap, IsRun, LinkMachine.Next, Enabled, Init, Associated, Authorized, Renewed;
      gateOpen := false;               // the flush that precedes both requests
      if connect {
        status := Connect(commands, turns);
      } else {
        var r := Ask();
        status := r.status;
      }
      ghost var mid := log;
      if !connect || status != Ok {
        if !connect { SetHold(false); }
        Lower();
        RenewedBy(old(log), mid, log);
        if !connect && status == Ok { phase := 500; }
      }
      networkOk := status == Ok;
      RefreshGate();
    }

    /** A scan request, queued by StartScan and taken by the worker. It touches nothing if the worker finds a
        connection, or the start of one; otherwise both flags are down throughout, for every event is ignored. */
    method ScanStep(commands: nat, restored: bool)
      requires Settled() && scanning
      modifies this`tick, this`paused, this`stopping, this`associated, this`authorized, this`media, this`gateOpen,
        this`log, this`at, this`scanBusy, this`request, this`radioBusy, this`phase, this`overlapped, this`steps,
        this`ready, this`networkOk, this`scanning
      ensures Settled() && !scanBusy && !scanning && Went() && media == old(media) && overlapped == old(overlapped)
      ensures associated == old(associated) && authorized == old(authorized)
      ensures old(associated || authorized || selecting || !ready) ==> log == old(log) && ready == old(ready)
      ensures log != old(log) ==> Renewed(old(log), log)
    {
      hide Reached, NoOverlap, IsRun, LinkMachine.Next, Enabled, Init, Associated, Authorized, Renewed;
      Executing();
      var c := stopping || paused || looks(tick).cancelled || looks(tick).expired;
      tick := tick + 1;
      if !c && ready && !associated && !authorized && !selecting && phase == 500 && networkOk {
        UseRadio(commands, restored);
      }
      FinishScan();
    }

    /** The firmware commands of a scan, and what a radio that could not be restored does to the adapter. */
    method UseRadio(commands: nat, restored: bool)
      requires Settled() && scanning && controlBusy && !associated && !authorized && !selecting
      modifies this`tick, this`paused, this`stopping, this`associated, this`authorized, this`media, this`gateOpen,
        this`log, this`at, this`scanBusy, this`request, this`radioBusy, this`phase, this`overlapped, this`steps,
        this`ready, this`networkOk
      ensures Settled() && !associated && !authorized && Went() && overlapped == old(overlapped)
      ensures Renewed(old(log), log)
      ensures (restored ==> ready == old(ready)) && (!restored ==> !ready && !networkOk)
    {
      hide Reached, NoOverlap, IsRun, LinkMachine.Next, Enabled, Init, Associated, Authorized, Renewed;
      for i := 0 to commands
        invariant Settled() && !associated && !authorized && !selecting && Went() && overlapped == old(overlapped)
        invariant ready == old(ready)
      {
        var _ := Ask();
      }
      ghost var mid := log;
      Clear();
      RenewedBy(old(log), mid, log);
      if !restored {
        ready, networkOk := false, false;
        RefreshGate();
      }
    }

    lemma Executing()
      requires Reached() && scanning
      ensures controlBusy && scanBusy && request == NoRequest
    {}

    /** ScanBusy is released, whatever the outcome. */
    method FinishScan()
      requires Settled() && scanning
      modifies this`scanBusy, this`scanning, this`steps
      ensures Settled() && !scanBusy && !scanning
    {
      hide IsRun;
      ghost var s, t := S(), steps;
      scanBusy, scanning := false, false;
      Took(s, t, EndScan);
    }

    /** Traffic: the pump and the bounded receive batch. */
    method TrafficStep(polls: nat) returns (status: NtStatus)
      requires Settled()
      modifies this`tick, this`paused, this`stopping, this`associated, this`authorized, this`media, this`gateOpen,
        this`log, this`at, this`scanBusy, this`request, this`radioBusy, this`phase, this`overlapped, this`steps
      ensures Settled() && Went() && (controlBusy && !old(scanBusy) ==> !scanBusy)
    {
      hide Reached, NoOverlap, IsRun, LinkMachine.Next, Enabled, Init, Associated, Authorized, Renewed;
      status := Ok;
      for i := 0 to polls
        invariant Settled() && Went() && (controlBusy && !old(scanBusy) ==> !scanBusy)
      {
        var r := Ask();
        if r.status == NoMore { return Ok; }
        if r.status != Ok { return r.status; }
      }
    }

    /** The worker's failure exit: nothing stays published, and a queued scan is withdrawn. */
    method TakeDown()
      requires Settled() && !controlBusy
      modifies this`ready, this`networkOk, this`associated, this`authorized, this`media, this`gateOpen, this`log,
        this`scanBusy, this`request, this`steps
      ensures Settled() && !ready && !associated && !authorized && !media && !gateOpen && !scanBusy
      ensures log == old(log) + [Entry(Cleared, true)]
    {
      hide IsRun, LinkMachine.Next, Enabled, Init, Associated, Authorized, Renewed;
      ready, networkOk := false, false;
      Lower();
      Withdraw();
    }

    /** The end of a successful startup. */
    method BecomeReady()
      requires Settled()
      modifies this`ready, this`gateOpen, this`phase, this`networkOk
      ensures Settled() && ready && phase == 500 && networkOk
    {
      hide IsRun, LinkMachine.Next, Enabled, Init, Associated, Authorized, Renewed;
      ready, phase, networkOk := true, 500, true;
      RefreshGate();
    }

    /** The request of this turn, in the worker's hand. */
    method TakeRequest() returns (op: Request)
      requires Settled() && !controlBusy
      modifies this`request, this`controlBusy, this`scanning
      ensures Settled() && op == old(request) && request == NoRequest
      ensures controlBusy == (op != NoRequest) && scanning == (op == Scan) && scanBusy == (op == Scan)
    {
      op := request;
      request, controlBusy, scanning := NoRequest, op != NoRequest, op == Scan;
    }

    method Release(op: Request)
      requires Settled() && !scanning
      modifies this`radioBusy, this`controlBusy
      ensures Settled() && !controlBusy
    {
      radioBusy, controlBusy := radioBusy && op != Radio, false;
    }

    /** One turn of the worker loop, with whatever request it finds. */
    method WorkerTurn(commands: nat, turns: nat, polls: nat, restored: bool) returns (failed: bool)
      requires Settled() && !controlBusy
      modifies this
      ensures Settled() && !controlBusy && Went()
      ensures failed ==> !media && !gateOpen && !ready
      ensures !old(paused) && old(request) in {ConnectTo, Disconnect} ==> Renewed(old(log), log)
      ensures old(paused) ==> log == old(log) && !gateOpen && media == old(media) && !failed
    {
      hide Reached, NoOverlap, IsRun, LinkMachine.Next, Enabled, Init, Associated, Authorized, Renewed;
      if paused {
        gateOpen := false;             // the flush of a paused adapter
        return false;
      }
      var op := TakeRequest();
      match op {
        case NoRequest =>
        case ConnectTo => var _ := ControlStep(true, commands, turns);
        case Disconnect => var _ := ControlStep(false, commands, turns);
        case Radio => var _ := TrafficStep(4);
        case Scan => ScanStep(commands, restored);
      }
      Release(op);
      ghost var mid := log;
      var status := TrafficStep(polls);
      failed := status != Ok;
      if failed { TakeDown(); }
      if op in {ConnectTo, Disconnect} { RenewedLater(old(log), mid, log); }
    }
  }

  /** What the driver's tests on type and status make of the two flags. */
  function Flags(associated: bool, authorized: bool, e: FwEvent): (bool, bool) {
    if e.kind == 16 then (var up := e.flags % 2 == 1 && e.status == 0; (up, up && authorized))
    else if e.kind == 46 then
      (associated, (e.status == SUP_COMPLETED && e.reason == 0) || (Progress(e.status, e.reason) && authorized))
    else if e.kind in {5, 6, 11, 12} || (e.kind == 0 && e.status != 0) then (false, false)
    else (associated, authorized)
  }

  /** It is what the meaning of the event does. */
  lemma FlagsByMeaning(s: State, e: FwEvent)
    ensures Flagged(s, Classify(e)) ==
      s.(associated := Flags(s.associated, s.authorized, e).0, authorized := Flags(s.associated, s.authorized, e).1)
  {}

  /** What every execution without an overlap guarantees between events: a published connection stands on a
      link-up and a key completion, both later than anything in the whole trace that dropped the link. */
  lemma PublishedMeansEarned(a: Adapter, d: nat) returns (up: nat, key: nat)
    requires a.Settled() && a.media && !a.overlapped && d < |a.log| && Drops(a.log[d].m)
    ensures d < up < |a.log| && a.log[up].m == LinkUp && forall j :: up < j < |a.log| ==> !Drops(a.log[j].m)
    ensures d < key < |a.log| && a.log[key].m == KeyDone && forall j :: key < j < |a.log| ==> !Revokes(a.log[j].m)
  {
    hide IsRun;
    up, key := ReconnectNeedsBoth(a.steps, a.S(), d);
  }

  /** The overlap on the adapter itself: a link-up has passed the check when a scan is asked for, by every guard
      of its dispatch; the deauthentication behind the link-up is ignored; the scan leaves the connection alone;
      and the next key completion publishes the link. */
  method OverlapOnAdapter(replies: nat -> Reply, looks: nat -> Look) returns (a: Adapter)
    ensures a.Settled() && a.media && a.overlapped && !a.scanBusy
    ensures a.log == [Entry(LinkUp, true), Entry(Deauth, false), Entry(KeyDone, true)] && !Associated(a.log, true)
  {
    hide IsRun, LinkMachine.Next, Enabled, Init, Associated, Authorized, Renewed, Adapter.Reached;
    a := new Adapter(replies, looks);
    a.BecomeReady();
    ScanDuringLinkUp(a);
    KeyAfterScan(a);
  }

  method ScanDuringLinkUp(a: Adapter)
    requires a.Settled() && a.CanScan() && a.log == []
    modifies a
    ensures a.Settled() && a.overlapped && a.scanBusy && a.request == Scan && !a.selecting && !a.controlBusy
    ensures a.log == [Entry(LinkUp, true), Entry(Deauth, false)]
  {
    hide IsRun, LinkMachine.Next, Enabled, Init, Associated, Authorized, Renewed, Adapter.Reached;
    a.Event(Arrival(FwEvent(16, 0, 0, 1), SCAN_ASKED, NOTHING));
    a.Event(Arrival(FwEvent(5, 0, 0, 0), NOTHING, NOTHING));
  }

  method KeyAfterScan(a: Adapter)
    requires a.Settled() && a.overlapped && a.request == Scan && !a.selecting && !a.controlBusy
    requires a.log == [Entry(LinkUp, true), Entry(Deauth, false)]
    modifies a
    ensures a.Settled() && a.media && a.overlapped && !a.scanBusy
    ensures a.log == [Entry(LinkUp, true), Entry(Deauth, false), Entry(KeyDone, true)] && !Associated(a.log, true)
  {
    hide IsRun, LinkMachine.Next, Enabled, Init, Associated, Authorized, Renewed, Adapter.Reached;
    a.FlagsAreEarned();
    AcrossDeauth();
    var op := a.TakeRequest();
    a.ScanStep(0, true);
    a.Release(op);
    a.Event(Arrival(FwEvent(46, 6, 0, 0), NOTHING, NOTHING));
    assert a.log == [Entry(LinkUp, true), Entry(Deauth, false), Entry(KeyDone, true)];
    a.FlagsAreEarned();
  }
}
