/** The scan transaction: a long command sequence against firmware that may fail any command before or
    after it takes effect, and the cleanup that undoes what it changed. */
module ScanSequence {
  import opened Wire
  import opened Fifo
  import opened ScanTable
  import opened ScanParse

  const UNSUPPORTED_COMMAND: nat := 0xffff_ffe9
  const BAD_ARGUMENT: nat := 0xffff_fffe

  datatype ScanState = NoScan | Queued | Running | Complete | Failed | Cancelled

  /** A scan event as the firmware sends it. */
  datatype ScanEvent = ScanEvent(status: nat, payload: seq<byte>)

  /** What one command does. `effect` is what a SET leaves behind, whether or not it reports success:
      nothing, the value asked for, or anything else. */
  datatype Reply = Reply(status: NtStatus, error: nat, effect: Option<seq<byte>>, value: nat, events: seq<ScanEvent>)

  datatype Polled = Polled(status: NtStatus, events: seq<ScanEvent>)

  /** The flags other threads set, and the clock. */
  datatype Look = Look(gone: bool, cancelled: bool, late: bool)

  /** Radio commands and whether the firmware accepted them. */
  datatype Radio = Down(accepted: bool) | Up(accepted: bool)

  /** The commands of the transaction, as the card sees them. */
  datatype Command =
    | DownCmd | UpCmd | ClmCmd | GetCountryCmd | SetCountryCmd(value: seq<byte>) | GetMaskCmd
    | SetMaskCmd(mask: seq<byte>)
    | ScanCmd | AbortCmd

  /** A country value is the wanted one when both code fields agree and its revision is not negative. */
  predicate CountryMatches(wanted: seq<byte>, value: seq<byte>) {
    && |wanted| == 2 && |value| == 12
    && value[..4] == wanted + [0, 0] && value[8..] == wanted + [0, 0] && value[7] < 0x80
  }

  /** The event mask with the scan event's bit (number 69) set. */
  function Widened(mask: seq<byte>): (r: seq<byte>)
    requires |mask| == 16
    ensures |r| == 16 && r[8] as int / 32 % 2 == 1 && r[8] as int % 32 == mask[8] as int % 32
    ensures forall i :: 0 <= i < 16 && i != 8 ==> r[i] == mask[i]
  {
    var bits: nat := mask[8];
    mask[8 := if bits / 32 % 2 == 1 then bits else bits + 32]
  }

  /** The country is read; if it is not the wanted one it is set, perhaps twice; and it is read again. */
  ghost predicate CountryPart(before: seq<Command>, after: seq<Command>, touched: bool, wanted: seq<byte>) {
    if !touched then after == before + [GetCountryCmd] + [GetCountryCmd]
    else exists mid :: Sets(before + [GetCountryCmd], mid, wanted) && after == mid + [GetCountryCmd]
  }

  /** Revision zero of the wanted country, and once more with the default revision if that was refused. */
  ghost predicate Sets(before: seq<Command>, after: seq<Command>, wanted: seq<byte>) {
    var request := CountryRequest(wanted);
    request.Some? &&
    (after == before + [SetCountryCmd(request.value)]
     || after == before + [SetCountryCmd(request.value)] + [SetCountryCmd(DefaultRevision(request.value))])
  }

  function DefaultRevision(request: seq<byte>): seq<byte>
    requires |request| == 12
  {
    request[..4] + [255, 255, 255, 255] + request[8..]
  }

  /** The commands that put back what was touched. */
  function RestoreCmds(mask: Option<seq<byte>>, country: Option<seq<byte>>): seq<Command> {
    (if mask.Some? then [SetMaskCmd(mask.value), GetMaskCmd] else [])
    + (if country.Some? then [SetCountryCmd(country.value), GetCountryCmd] else [])
  }

  /** A whole setup, as the card sees it. */
  ghost predicate SetupPart(before: seq<Command>, after: seq<Command>, touched: bool, mask: seq<byte>,
                            wanted: seq<byte>) {
    |mask| == 16 && exists mid ::
      CountryPart(before + [DownCmd, ClmCmd], mid, touched, wanted)
      && after == mid + [GetMaskCmd, SetMaskCmd(Widened(mask))] + [UpCmd, ScanCmd]
  }

  /** A whole successful transaction: setup, scan, down, and everything touched put back and read. */
  ghost predicate Transcript(before: seq<Command>, after: seq<Command>, touched: bool, mask: seq<byte>,
                             country: seq<byte>, wanted: seq<byte>) {
    exists mid ::
      SetupPart(before, mid, touched, mask, wanted)
      && after == mid + [DownCmd] + RestoreCmds(Some(mask), if touched then Some(country) else None)
  }

  lemma IsSetupPart(before: seq<Command>, mid: seq<Command>, masked: seq<Command>, after: seq<Command>, touched: bool,
                    mask: seq<byte>, wanted: seq<byte>)
    requires |mask| == 16 && CountryPart(before, mid, touched, wanted)
    requires masked == mid + [GetMaskCmd, SetMaskCmd(Widened(mask))] && after == masked + [UpCmd, ScanCmd]
    ensures forall b :: before == b + [DownCmd, ClmCmd] ==> SetupPart(b, after, touched, mask, wanted)
  {}

  predicate IsLetter(b: byte) { 'A' as int <= b <= 'Z' as int }

  function CountryRequest(wanted: seq<byte>): (r: Option<seq<byte>>)
    ensures r.Some? ==> |r.value| == 12
  {
    if |wanted| == 2 && IsLetter(wanted[0]) && IsLetter(wanted[1])
      then Some(wanted + [0, 0, 0, 0, 0, 0] + wanted + [0, 0])
      else None
  }

  /** The chip: the truth the readbacks report. */
  class Card {
    var mask: seq<byte>
    var country: seq<byte>
    var radio: seq<Radio>
    ghost var sent: seq<Command>

    predicate Valid()
      reads this
    {
      |mask| == 16 && |country| == 12
    }
  }

  /** Where a record in the table came from. */
  ghost predicate Traced(records: seq<Entry>, sources: seq<seq<byte>>, sync: nat) {
    |records| == |sources| && forall i :: 0 <= i < |records| ==> Parse(sources[i], sync) == Accepted(records[i])
  }

  /** What the accepting window has gathered. */
  datatype Inbox = Inbox(complete: bool, status: nat, records: seq<Entry>)

  /** One scan event inside the window: a record, a final status, or nothing of this scan's. */
  function Take(b: Inbox, e: ScanEvent, sync: nat): Inbox {
    if b.complete then b
    else if e.status == 8 then
      match Parse(e.payload, sync)
      case Accepted(entry) => b.(records := b.records + [entry])
      case Stale => b
      case Bad => b.(complete := true, status := 1)
    else if e.payload == [] then b.(complete := true, status := e.status)
    else if |e.payload| < 12 then b.(complete := true, status := 1)
    else if Le16(e.payload, 8) != sync then b
    else if Le32(e.payload, 0) < 12 || Le32(e.payload, 0) > |e.payload| then b.(complete := true, status := 1)
    else b.(complete := true, status := e.status)
  }

  function TakeAll(b: Inbox, events: seq<ScanEvent>, sync: nat): Inbox {
    if events == [] then b else Take(TakeAll(b, events[..|events| - 1], sync), events[|events| - 1], sync)
  }

  lemma {:induction false} TakeAllOf(b: Inbox, first: seq<ScanEvent>, second: seq<ScanEvent>, sync: nat)
    ensures TakeAll(b, first + second, sync) == TakeAll(TakeAll(b, first, sync), second, sync)
    decreases |second|
  {
    var n := |second| - 1;
    if second == [] {
      assert first + second == first;
    } else {
      assert (first + second)[..|first + second| - 1] == first + second[..n];
      TakeAllOf(b, first, second[..n], sync);
    }
  }

  /** Once the final event is in, the rest of the window does not matter. */
  lemma {:induction false} FinalStays(b: Inbox, events: seq<ScanEvent>, sync: nat)
    requires b.complete
    ensures TakeAll(b, events, sync) == b
    decreases |events|
  {
    if events != [] { FinalStays(b, events[..|events| - 1], sync); }
  }

  /** The scan's number among its events: never zero. */
  function SyncOf(generation: nat): (sync: nat)
    ensures 1 <= sync <= 65535
  {
    (generation + 0xffff_ffff) % 0x1_0000_0000 % 65535 + 1
  }

  class Scanner {
    const card: Card
    const report: Report
    const replies: nat -> Reply
    const polls: nat -> Polled
    const looks: nat -> Look
    const scanPolls: nat           // polls that fit before the ten-second limit
    var tick: nat
    // adapter state
    var ready: bool
    var associated: bool
    var authorized: bool
    var selectingBand: bool
    var startupDone: bool          // the network phase and status of a finished startup
    var networkStatus: NtStatus
    // scan state
    var wanted: seq<byte>
    var generation: nat
    var busy: bool
    var acceptEvents: bool
    var complete: bool
    var eventStatus: nat
    var syncId: nat
    var state: ScanState
    var status: NtStatus
    var error: nat
    var firmwareError: nat
    ghost var sources: seq<seq<byte>>
    ghost var scanAt: nat          // the tick of the scan command
    // the request's locals
    var dirty: bool
    var maskTouched: bool
    var countryTouched: bool
    var startAttempted: bool
    var originalMask: seq<byte>
    var originalCountry: seq<byte>

    ghost predicate Valid()
      reads this`sources, this`syncId, card, report, report.entries
    {
      card.Valid() && report.Valid() && Traced(report.records, sources, syncId)
    }

    constructor (card: Card, replies: nat -> Reply, polls: nat -> Polled, looks: nat -> Look, scanPolls: nat)
      requires card.Valid()
      ensures Valid() && !busy && this.card == card && fresh(report) && fresh(report.entries)
    {
      this.card, this.replies, this.polls, this.looks, this.scanPolls := card, replies, polls, looks, scanPolls;
      wanted, generation, scanAt := [], 0, 0;
      report := new Report();
      tick, ready, associated, authorized, selectingBand, startupDone, networkStatus :=
        0, true, false, false, false, true, Ok;
      busy, acceptEvents, complete, eventStatus, syncId, state, status, error, sources :=
        false, false, false, 0, 0, NoScan, Ok, 0, [];
      dirty, maskTouched, countryTouched, startAttempted, originalMask, originalCountry, firmwareError :=
        false, false, false, false, [], [], 0;
    }

    /** What is owed to the card: untouched values are as they were, touched ones are remembered. */
    ghost predicate Owed(mask: seq<byte>, country: seq<byte>, radio: seq<Radio>)
      reads this, card
    {
      && (if maskTouched then originalMask == mask else card.mask == mask)
      && (if countryTouched then originalCountry == country else card.country == country)
      && (!dirty ==> !maskTouched && !countryTouched && card.radio == radio)
      && radio <= card.radio
    }

    // -------------------------------------------------------------- the dispatch

    /** A scan request: version 1, two letters, two zeros. */
    predicate WellFormed(request: seq<byte>) {
      |request| == 8 && Le32(request, 0) == 1 && IsLetter(request[4]) && IsLetter(request[5])
      && request[6] == 0 && request[7] == 0
    }

    /** Started up, and neither connected nor about to be. */
    predicate Idle()
      reads this`associated, this`authorized, this`selectingBand, this`startupDone, this`networkStatus
    {
      !selectingBand && !associated && !authorized && startupDone && networkStatus == Ok
    }

    /** The control thread queues a scan. `closed` says that the adapter is stopped or paused, `occupied` that
        other control work is queued or under way. A refused request changes nothing. */
    method Start(request: seq<byte>, closed: bool, occupied: bool) returns (st: NtStatus)
      requires Valid() && generation < 0x1_0000_0000
      modifies this`wanted, this`generation, this`state, this`busy, this`complete, this`acceptEvents, this`eventStatus,
        this`sources, report, report.entries
      ensures Valid() && generation < 0x1_0000_0000
      ensures st == (if !WellFormed(request) then InvalidParameter else if !ready || closed then NotReady
                     else if occupied || old(busy) || !Idle() then Busy else Ok)
      ensures st == Ok ==> Quiet() && state == Queued && report.count == 0 && wanted == request[4..6]
      ensures if st == Ok then generation != 0 && generation != old(generation) else generation == old(generation)
      ensures st != Ok ==> busy == old(busy) && state == old(state) && wanted == old(wanted) && Box() == old(Box())
    {
      hide Valid, Le32;
      if !WellFormed(request) { return InvalidParameter; }
      if !ready || closed { return NotReady; }
      if occupied || busy || !Idle() { return Busy; }
      Queue(request[4..6]);
      return Ok;
    }

    method Queue(country: seq<byte>)
      requires Valid() && generation < 0x1_0000_0000
      modifies this`wanted, this`generation, this`state, this`busy, this`complete, this`acceptEvents, this`eventStatus,
        this`sources, report, report.entries
      ensures Valid() && Quiet() && state == Queued && report.count == 0 && wanted == country
      ensures generation < 0x1_0000_0000 && generation != 0 && generation != old(generation)
    {
      hide IsTable, Networks;
      generation := if generation == 0xffff_ffff then 1 else generation + 1;
      report.Clear();
      sources, state, wanted, complete, acceptEvents, eventStatus, busy := [], Queued, country, false, false, 0, true;
    }

    // -------------------------------------------------------------- events

    ghost function Box(): Inbox
      reads this, report
    {
      Inbox(complete, eventStatus, report.records)
    }

    /** Outside the accepting window, and after the final event, no event changes anything. */
    twostate predicate Silent()
      reads this, report
    {
      !busy || !acceptEvents || old(complete) ==>
        report.records == old(report.records) && complete == old(complete) && eventStatus == old(eventStatus)
    }

    /** One partial result: a record for the table, nothing, or the end of the scan. */
    method Partial(payload: seq<byte>)
      requires Valid()
      modifies this`complete, this`eventStatus, this`sources, report, report.entries
      ensures Valid() && (!old(complete) ==> Box() == Take(old(Box()), ScanEvent(8, payload), syncId))
    {
      hide IsTable, Networks, Parse, Le32;
      var parsed := ParsePartial(payload, syncId);
      if parsed == Stale { return; }
      if parsed == Bad {
        complete, eventStatus := true, 1;
        return;
      }
      report.Add(parsed.entry);
      sources := sources + [payload];
    }

    /** CywScanEvent. */
    method Event(e: ScanEvent)
      requires Valid()
      modifies this`complete, this`eventStatus, this`sources, report, report.entries
      ensures Valid() && Silent()
      ensures busy && acceptEvents ==> Box() == Take(old(Box()), e, syncId)
    {
      hide IsTable, Networks, Parse, Le32;
      if !busy || !acceptEvents || complete { return; }
      if e.status == 8 {
        Partial(e.payload);
        return;
      }
      var final := e.status;
      if |e.payload| > 0 {
        if |e.payload| < 12 {
          complete, eventStatus := true, 1;
          return;
        }
        if Le16(e.payload, 8) != syncId { return; }
        if Le32(e.payload, 0) < 12 || Le32(e.payload, 0) > |e.payload| { final := 1; }
      }
      eventStatus, complete := final, true;
    }

    /** Dispatching what arrived while a command or a poll was under way. */
    method Dispatch(events: seq<ScanEvent>)
      requires Valid()
      modifies this`complete, this`eventStatus, this`sources, report, report.entries
      ensures Valid() && Silent()
      ensures busy && acceptEvents ==> Box() == TakeAll(old(Box()), events, syncId)
    {
      hide Traced, IsTable, Networks, Take;
      for i := 0 to |events|
        invariant Valid() && Silent()
        invariant busy && acceptEvents ==> Box() == TakeAll(old(Box()), events[..i], syncId)
      {
        assert events[..i + 1][..i] == events[..i];
        Event(events[i]);
      }
      assert events[..|events|] == events;
    }

    // -------------------------------------------------------------- commands

    /** One firmware command; scan events that arrive meanwhile are dispatched. */
    method Ask(c: Command) returns (r: Reply)
      requires Valid()
      modifies this`tick, this`firmwareError, this`complete, this`eventStatus, this`sources, report, report.entries,
        card`sent
      ensures Valid() && Silent()
      ensures card.sent == old(card.sent) + [c]
      ensures r == replies(old(tick)) && tick == old(tick) + 1
      ensures busy && acceptEvents ==> Box() == TakeAll(old(Box()), r.events, syncId)
    {
      r := replies(tick);
      tick, firmwareError, card.sent := tick + 1, r.error, card.sent + [c];
      Dispatch(r.events);
    }

    method SetRadio(up: bool) returns (st: NtStatus)
      requires Valid()
      modifies this`tick, this`firmwareError, this`complete, this`eventStatus, this`sources, report, report.entries,
        card`sent, card`radio
      ensures Valid() && Silent() && card.radio == old(card.radio) + [if up then Up(st == Ok) else Down(st == Ok)]
      ensures card.sent == old(card.sent) + [if up then UpCmd else DownCmd]
      ensures tick >= old(tick)
    {
      hide Traced, IsTable, Networks;
      var r := Ask(if up then UpCmd else DownCmd);
      st := r.status;
      card.radio := card.radio + [if up then Up(st == Ok) else Down(st == Ok)];
    }

    /** A SET of the event mask: nothing is promised of what it leaves behind. */
    method SetMask(v: seq<byte>) returns (st: NtStatus)
      requires Valid()
      modifies this`tick, this`firmwareError, this`complete, this`eventStatus, this`sources, report, report.entries,
        card`sent, card`mask
      ensures Valid() && Silent()
      ensures card.sent == old(card.sent) + [SetMaskCmd(v)]
      ensures tick >= old(tick)
    {
      hide Traced, IsTable, Networks;
      var r := Ask(SetMaskCmd(v));
      st := r.status;
      if r.effect.Some? && |r.effect.value| == 16 { card.mask := r.effect.value; }
    }

    /** A successful readback is the truth, at its full length. */
    method GetMask() returns (st: NtStatus, v: seq<byte>)
      requires Valid()
      modifies this`tick, this`firmwareError, this`complete, this`eventStatus, this`sources, report, report.entries,
        card`sent
      ensures Valid() && Silent() && (st == Ok ==> v == card.mask)
      ensures card.sent == old(card.sent) + [GetMaskCmd]
      ensures tick >= old(tick)
    {
      var r := Ask(GetMaskCmd);
      st, v := r.status, if r.status == Ok then card.mask else [];
    }

    method SetCountry(v: seq<byte>) returns (st: NtStatus)
      requires Valid()
      modifies this`tick, this`firmwareError, this`complete, this`eventStatus, this`sources, report, report.entries,
        card`sent, card`country
      ensures Valid() && Silent()
      ensures card.sent == old(card.sent) + [SetCountryCmd(v)]
      ensures tick >= old(tick)
    {
      hide Traced, IsTable, Networks;
      var r := Ask(SetCountryCmd(v));
      st := r.status;
      if r.effect.Some? && |r.effect.value| == 12 { card.country := r.effect.value; }
    }

    method GetCountry() returns (st: NtStatus, v: seq<byte>)
      requires Valid()
      modifies this`tick, this`firmwareError, this`complete, this`eventStatus, this`sources, report, report.entries,
        card`sent
      ensures Valid() && Silent() && (st == Ok ==> v == card.country)
      ensures card.sent == old(card.sent) + [GetCountryCmd]
      ensures tick >= old(tick)
    {
      var r := Ask(GetCountryCmd);
      st, v := r.status, if r.status == Ok then card.country else [];
    }

    /** The check before every setup command. */
    method Check() returns (st: NtStatus)
      modifies this`tick
      ensures st ==
        if looks(old(tick)).gone || looks(old(tick)).cancelled then NtStatus.Cancelled
        else if looks(old(tick)).late then Timeout
        else Ok
      ensures tick == old(tick) + 1
    {
      var look := looks(tick);
      tick := tick + 1;
      return if look.gone || look.cancelled then NtStatus.Cancelled else if look.late then Timeout else Ok;
    }

    /** Since tick `from`, some poll had nothing more to bring. */
    ghost predicate DrainedSince(from: nat)
      reads this`tick
    {
      exists n :: from <= n < tick && polls(n).status == NoMore
    }

    /** CywScanDrain: poll until the firmware has nothing more to say. */
    method Drain() returns (st: NtStatus)
      requires Valid()
      modifies this`tick, this`firmwareError, this`complete, this`eventStatus, this`sources, report, report.entries
      ensures Valid() && Silent()
      ensures tick >= old(tick) && (st == Ok ==> DrainedSince(old(tick)))
    {
      hide Traced, IsTable, Networks;
      for i := 0 to 256
        invariant Valid() && Silent() && tick >= old(tick)
      {
        var look := looks(tick);
        if look.gone { return NtStatus.Cancelled; }
        if look.late { return Timeout; }
        var polled := polls(tick);
        tick := tick + 1;
        Dispatch(polled.events);
        if polled.status == NoMore { return Ok; }
        if polled.status != Ok { return polled.status; }
      }
      return Timeout;
    }

    // -------------------------------------------------------------- checked commands

    method CallRadio(up: bool) returns (st: NtStatus)
      requires Valid()
      modifies this`tick, this`firmwareError, this`complete, this`eventStatus, this`sources, this`error, report,
        report.entries, card`sent, card`radio
      ensures Valid() && Silent() && old(card.radio) <= card.radio
      ensures st == Ok ==> card.sent == old(card.sent) + [if up then UpCmd else DownCmd]
      ensures tick >= old(tick)
    {
      hide Traced, IsTable, Networks;
      st := Check();
      if st == Ok {
        st := SetRadio(up);
        if st != Ok { error := firmwareError; }
      }
    }

    method CallDrain() returns (st: NtStatus)
      requires Valid()
      modifies this`tick, this`firmwareError, this`complete, this`eventStatus, this`sources, this`error, report,
        report.entries
      ensures Valid() && Silent()
      ensures tick >= old(tick)
      ensures st == Ok ==> DrainedSince(old(tick))
    {
      hide Traced, IsTable, Networks;
      st := Check();
      if st == Ok {
        st := Drain();
        if st != Ok { error := firmwareError; }
      }
    }

    method CallGetCountry() returns (st: NtStatus, v: seq<byte>)
      requires Valid()
      modifies this`tick, this`firmwareError, this`complete, this`eventStatus, this`sources, this`error, report,
        report.entries, card`sent
      ensures Valid() && Silent() && (st == Ok ==> v == card.country && |v| == 12)
      ensures st == Ok ==> card.sent == old(card.sent) + [GetCountryCmd]
      ensures tick >= old(tick)
    {
      hide Traced, IsTable, Networks;
      v := [];
      st := Check();
      if st == Ok {
        st, v := GetCountry();
        if st != Ok { error := firmwareError; }
      }
    }

    method CallSetCountry(v: seq<byte>) returns (st: NtStatus)
      requires Valid()
      modifies this`tick, this`firmwareError, this`complete, this`eventStatus, this`sources, this`error, report,
        report.entries, card`sent, card`country
      ensures Valid() && Silent()
      ensures st == Ok ==> card.sent == old(card.sent) + [SetCountryCmd(v)]
      ensures tick >= old(tick)
    {
      hide Traced, IsTable, Networks;
      st := Check();
      if st == Ok {
        st := SetCountry(v);
        if st != Ok { error := firmwareError; }
      }
    }

    method CallGetMask() returns (st: NtStatus, v: seq<byte>)
      requires Valid()
      modifies this`tick, this`firmwareError, this`complete, this`eventStatus, this`sources, this`error, report,
        report.entries, card`sent
      ensures Valid() && Silent() && (st == Ok ==> v == card.mask && |v| == 16)
      ensures st == Ok ==> card.sent == old(card.sent) + [GetMaskCmd]
      ensures tick >= old(tick)
    {
      hide Traced, IsTable, Networks;
      v := [];
      st := Check();
      if st == Ok {
        st, v := GetMask();
        if st != Ok { error := firmwareError; }
      }
    }

    method CallSetMask(v: seq<byte>) returns (st: NtStatus)
      requires Valid()
      modifies this`tick, this`firmwareError, this`complete, this`eventStatus, this`sources, this`error, report,
        report.entries, card`sent, card`mask
      ensures Valid() && Silent()
      ensures st == Ok ==> card.sent == old(card.sent) + [SetMaskCmd(v)]
      ensures tick >= old(tick)
    {
      hide Traced, IsTable, Networks;
      st := Check();
      if st == Ok {
        st := SetMask(v);
        if st != Ok { error := firmwareError; }
      }
    }

    method CallStart() returns (st: NtStatus)
      requires Valid()
      modifies this`scanAt, this`tick, this`firmwareError, this`complete, this`eventStatus, this`sources, this`error,
        report, report.entries, card`sent
      ensures Valid() && Silent()
      ensures st == Ok ==> card.sent == old(card.sent) + [ScanCmd]
      ensures st == Ok ==> tick == old(tick) + 2 && scanAt == old(tick) + 1 && replies(scanAt).status == Ok
      ensures st == Ok && busy && acceptEvents ==> Box() == TakeAll(old(Box()), replies(scanAt).events, syncId)
    {
      hide Traced, IsTable, Networks, TakeAll;
      st := Check();
      if st == Ok {
        scanAt := tick;
        var r := Ask(ScanCmd);
        st := r.status;
        if st != Ok { error := firmwareError; }
      }
    }

    // -------------------------------------------------------------- the setup sequence

    /** Nothing of the request has touched the card or the table yet. */
    ghost predicate Quiet()
      reads this, report
    {
      busy && !acceptEvents && !complete && eventStatus == 0 && report.records == []
    }

    /** Dispatch and a link event can overlap: the worker looks again before it sends anything. */
    method Recheck() returns (st: NtStatus)
      modifies this`tick
      ensures tick >= old(tick) && (st == Ok ==> ready && Idle())
    {
      st := Check();
      if st != Ok { return; }
      if !ready || !Idle() { return Busy; }
    }

    /** The adapter is taken down and drained, and its regulatory data checked. */
    method TakeDown(ghost mask: seq<byte>, ghost country: seq<byte>, ghost radio: seq<Radio>) returns (st: NtStatus)
      requires Valid() && Quiet() && !dirty && Owed(mask, country, radio)
      modifies this`tick, this`firmwareError, this`complete, this`eventStatus, this`sources, this`error, this`dirty,
        this`associated, this`authorized, report, report.entries, card`sent, card`radio
      ensures Valid() && Quiet() && Owed(mask, country, radio) && dirty
      ensures st == Ok ==> card.sent == old(card.sent) + [DownCmd, ClmCmd]
      ensures st == Ok ==> DrainedSince(old(tick))
      ensures tick >= old(tick)
    {
      hide Scanner.Valid, DrainedSince;
      dirty := true;
      st := CallRadio(false);
      if st != Ok { return; }
      associated, authorized := false, false;
      ghost var later := tick;
      st := DrainAndCheck();
      if st == Ok { DrainedEarlier(later, old(tick)); }
    }

    lemma DrainedEarlier(later: nat, from: nat)
      requires from <= later && DrainedSince(later)
      ensures DrainedSince(from)
    {}

    method DrainAndCheck() returns (st: NtStatus)
      requires Valid()
      modifies this`tick, this`firmwareError, this`complete, this`eventStatus, this`sources, this`error, report,
        report.entries, card`sent
      ensures Valid() && Silent() && tick >= old(tick)
      ensures st == Ok ==> card.sent == old(card.sent) + [ClmCmd] && DrainedSince(old(tick))
    {
      hide Traced, IsTable, Networks;
      st := CallDrain();
      if st == Ok { st := CheckRegulatory(); }
    }

    /** The regulatory load status must be zero, or the command unknown to this firmware. */
    method CheckRegulatory() returns (st: NtStatus)
      requires Valid()
      modifies this`tick, this`firmwareError, this`complete, this`eventStatus, this`sources, this`error, report,
        report.entries, card`sent
      ensures Valid() && Silent()
      ensures st == Ok ==> card.sent == old(card.sent) + [ClmCmd]
      ensures tick >= old(tick)
    {
      hide Traced, IsTable, Networks;
      st := Check();
      if st != Ok { return; }
      var r := Ask(ClmCmd);
      if r.status == Ok { return if r.value != 0 then DataError else Ok; }
      if r.status == Unsuccessful && r.error == UNSUPPORTED_COMMAND { return Ok; }
      error := r.error;
      return r.status;
    }

    /** The wanted country is set if it is not already there, and read back. */
    method ChooseCountry(ghost mask: seq<byte>, ghost country: seq<byte>, ghost radio: seq<Radio>)
      returns (st: NtStatus)
      requires Valid() && Quiet() && dirty && !countryTouched && Owed(mask, country, radio)
      modifies this`tick, this`firmwareError, this`complete, this`eventStatus, this`sources, this`error,
        this`countryTouched, this`originalCountry, report, report.entries, card`sent, card`country
      ensures Valid() && Quiet() && Owed(mask, country, radio)
      ensures st == Ok ==> CountryMatches(wanted, card.country)
      ensures st == Ok ==> CountryPart(old(card.sent), card.sent, countryTouched, wanted)
      ensures tick >= old(tick)
    {
      hide Scanner.Valid, CountryMatches, CountryPart;
      st, originalCountry := CallGetCountry();
      if st != Ok { return; }
      if |originalCountry| != 12 { assert false; }
      ghost var read := card.sent;
      if !CountryMatches(wanted, originalCountry) {
        st := ChangeCountry(mask, country, radio);
        if st != Ok { return; }
      }
      ghost var mid := card.sent;
      var now;
      st, now := CallGetCountry();
      if st == Ok && !CountryMatches(wanted, now) { return DataError; }
      if st == Ok { IsCountryPart(old(card.sent), mid, card.sent, countryTouched, wanted); }
    }

    /** The wanted country is written, marked as touched before the first attempt. */
    method ChangeCountry(ghost mask: seq<byte>, ghost country: seq<byte>, ghost radio: seq<Radio>)
      returns (st: NtStatus)
      requires Valid() && Quiet() && dirty && !countryTouched && Owed(mask, country, radio)
      requires originalCountry == card.country
      modifies this`tick, this`firmwareError, this`complete, this`eventStatus, this`sources, this`error,
        this`countryTouched, report, report.entries, card`sent, card`country
      ensures Valid() && Quiet() && Owed(mask, country, radio)
      ensures st == Ok ==> countryTouched && Sets(old(card.sent), card.sent, wanted)
      ensures tick >= old(tick)
    {
      hide Scanner.Valid, Sets;
      var request := CountryRequest(wanted);
      if request.None? { return InvalidParameter; }
      st := Check();
      if st != Ok { return; }
      countryTouched := true;
      st := ApplyCountry(request.value);
    }

    /** Revision zero first, then the firmware's default revision if it refuses the argument. */
    method ApplyCountry(request: seq<byte>) returns (st: NtStatus)
      requires Valid() && |request| == 12
      modifies this`tick, this`firmwareError, this`complete, this`eventStatus, this`sources, this`error, report,
        report.entries, card`sent, card`country
      ensures Valid() && Silent()
      ensures CountryRequest(wanted) == Some(request) && st == Ok ==> Sets(old(card.sent), card.sent, wanted)
      ensures tick >= old(tick)
    {
      hide Traced, IsTable, Networks;
      st := SetCountry(request);
      if st == Ok { return; }
      if st != Unsuccessful || firmwareError != BAD_ARGUMENT {
        error := firmwareError;
        return;
      }
      st := CallSetCountry(DefaultRevision(request));
    }

    /** The scan event is added to the event mask. */
    method WidenMask(ghost mask: seq<byte>, ghost country: seq<byte>, ghost radio: seq<Radio>) returns (st: NtStatus)
      requires Valid() && Quiet() && dirty && !maskTouched && Owed(mask, country, radio)
      modifies this`tick, this`firmwareError, this`complete, this`eventStatus, this`sources, this`error,
        this`maskTouched, this`originalMask, report, report.entries, card`sent, card`mask
      ensures Valid() && Quiet() && Owed(mask, country, radio)
      ensures st == Ok ==>
        && maskTouched && |originalMask| == 16
        && card.sent == old(card.sent) + [GetMaskCmd, SetMaskCmd(Widened(originalMask))]
      ensures tick >= old(tick)
    {
      hide Scanner.Valid;
      st, originalMask := CallGetMask();
      if st != Ok { return; }
      if |originalMask| != 16 { assert false; }
      st := Check();
      if st != Ok { return; }
      maskTouched := true;
      st := CallSetMask(Widened(originalMask));
    }

    /** What the turns of the scan loop deliver: each begins with a check, and polls. */
    ghost function Heard(from: nat, turns: nat): seq<ScanEvent> {
      if turns == 0 then [] else Heard(from, turns - 1) + polls(from + 2 * turns - 1).events
    }

    /** Everything delivered to the accepting window: with the reply to the scan command, and with the polls
        behind it. */
    ghost function Window(turns: nat): seq<ScanEvent>
      reads this`scanAt
    {
      replies(scanAt).events + Heard(scanAt + 1, turns)
    }

    /** What is made of it. */
    ghost predicate Gathered(b: Inbox)
      reads this`scanAt, this`syncId
    {
      exists turns: nat :: b == TakeAll(Inbox(false, 0, []), Window(turns), syncId)
    }

    /** One more turn of the scan loop. */
    lemma HeardStep(b: Inbox, from: nat, turns: nat)
      requires turns > 0
      ensures TakeAll(TakeAll(b, Heard(from, turns - 1), syncId), polls(from + 2 * turns - 1).events, syncId)
        == TakeAll(b, Heard(from, turns), syncId)
    {
      TakeAllOf(b, Heard(from, turns - 1), polls(from + 2 * turns - 1).events, syncId);
    }

    /** The scan loop. */
    method Await() returns (st: NtStatus, ghost turns: nat)
      requires Valid() && busy && acceptEvents
      modifies this`tick, this`firmwareError, this`complete, this`eventStatus, this`sources, report, report.entries
      ensures Valid()
      ensures st == Ok ==> complete && Box() == TakeAll(old(Box()), Heard(old(tick), turns), syncId)
    {
      hide Traced, IsTable, Networks, TakeAll;
      var left := scanPolls;
      ghost var box := Box();
      turns := 0;
      NothingHeard(box, tick);
      while !complete
        invariant Valid() && tick == old(tick) + 2 * turns && Box() == TakeAll(box, Heard(old(tick), turns), syncId)
        decreases left
      {
        st := Check();
        if st != Ok { return; }
        if left == 0 { return Timeout, turns; }
        var polled := polls(tick);
        tick := tick + 1;
        Dispatch(polled.events);
        turns := turns + 1;
        HeardStep(box, old(tick), turns);
        if polled.status !in {Ok, NoMore} { return polled.status, turns; }
        left := left - 1;
      }
      return Ok, turns;
    }

    lemma NothingHeard(b: Inbox, from: nat)
      ensures TakeAll(b, Heard(from, 0), syncId) == b
    {}

    /** The reply to the scan command and the polls after it make up the window. */
    lemma WindowIsGathered(answered: Inbox, b: Inbox, turns: nat)
      requires answered == TakeAll(Inbox(false, 0, []), replies(scanAt).events, syncId)
      requires b == TakeAll(answered, Heard(scanAt + 1, turns), syncId)
      ensures Gathered(b)
    {
      hide TakeAll;
      TakeAllOf(Inbox(false, 0, []), replies(scanAt).events, Heard(scanAt + 1, turns), syncId);
      assert b == TakeAll(Inbox(false, 0, []), Window(turns), syncId);
    }

    /** The window determines one outcome, however long the loop is thought to have run. */
    lemma GatheredOnce(a: Inbox, b: Inbox)
      requires Gathered(a) && Gathered(b) && a.complete && b.complete
      ensures a == b
    {
      hide TakeAll;
      var m: nat :| a == TakeAll(Inbox(false, 0, []), Window(m), syncId);
      var n: nat :| b == TakeAll(Inbox(false, 0, []), Window(n), syncId);
      if m <= n { LongerWindow(Inbox(false, 0, []), m, n); } else { LongerWindow(Inbox(false, 0, []), n, m); }
    }

    lemma {:induction false} LongerWindow(b: Inbox, m: nat, n: nat)
      requires m <= n && TakeAll(b, Window(m), syncId).complete
      ensures TakeAll(b, Window(n), syncId) == TakeAll(b, Window(m), syncId)
      decreases n
    {
      hide TakeAll;
      if m < n {
        LongerWindow(b, m, n - 1);
        var last := polls(scanAt + 2 * n).events;
        assert Window(n) == Window(n - 1) + last;
        TakeAllOf(b, Window(n - 1), last, syncId);
        FinalStays(TakeAll(b, Window(n - 1), syncId), last, syncId);
      }
    }

    /** The radio comes up and is drained. */
    method BringUp(ghost mask: seq<byte>, ghost country: seq<byte>, ghost radio: seq<Radio>) returns (st: NtStatus)
      requires Valid() && Quiet() && dirty && Owed(mask, country, radio)
      modifies this`tick, this`firmwareError, this`complete, this`eventStatus, this`sources, this`error, report,
        report.entries, card`sent, card`radio
      ensures Valid() && Quiet() && Owed(mask, country, radio)
      ensures tick >= old(tick) && (st == Ok ==> card.sent == old(card.sent) + [UpCmd])
    {
      hide Traced, IsTable, Networks;
      st := CallRadio(true);
      if st == Ok { st := CallDrain(); }
    }

    /** The scan starts, and partial results are taken until a final event. */
    method Collect(ghost mask: seq<byte>, ghost country: seq<byte>, ghost radio: seq<Radio>) returns (st: NtStatus)
      requires Valid() && Quiet() && dirty && Owed(mask, country, radio)
      modifies this`tick, this`firmwareError, this`complete, this`eventStatus, this`sources, this`error,
        this`acceptEvents, this`startAttempted, this`scanAt, report, report.entries, card`sent, card`radio
      ensures Valid() && busy && Owed(mask, country, radio)
      ensures st == Ok ==> complete && eventStatus == 0
      ensures st == Ok ==> startAttempted && card.sent == old(card.sent) + [UpCmd, ScanCmd]
      ensures st == Ok ==> Gathered(Box()) && old(tick) <= scanAt && replies(scanAt).status == Ok
    {
      hide Scanner.Valid;
      hide TakeAll, Gathered;
      st := BringUp(mask, country, radio);
      if st != Ok { return; }
      st := Gather();
    }

    /** The accepting window opens before the scan command is sent. */
    method Listen() returns (st: NtStatus)
      requires Valid() && Quiet()
      modifies this`tick, this`firmwareError, this`complete, this`eventStatus, this`sources, this`error,
        this`acceptEvents, this`startAttempted, this`scanAt, report, report.entries, card`sent
      ensures Valid() && busy
      ensures st == Ok ==> acceptEvents && startAttempted && card.sent == old(card.sent) + [ScanCmd]
      ensures st == Ok ==> tick == old(tick) + 3 && scanAt == old(tick) + 2 && replies(scanAt).status == Ok
      ensures st == Ok ==> Box() == TakeAll(Inbox(false, 0, []), replies(scanAt).events, syncId)
    {
      hide Traced, IsTable, Networks, TakeAll;
      st := Check();
      if st != Ok { return; }
      acceptEvents, startAttempted := true, true;
      st := CallStart();
    }

    /** From the opening of the accepting window to the final event. */
    method Gather() returns (st: NtStatus)
      requires Valid() && Quiet()
      modifies this`tick, this`firmwareError, this`complete, this`eventStatus, this`sources, this`error,
        this`acceptEvents, this`startAttempted, this`scanAt, report, report.entries, card`sent
      ensures Valid() && busy && (st == Ok ==> complete && eventStatus == 0 && startAttempted)
      ensures st == Ok ==> card.sent == old(card.sent) + [ScanCmd]
      ensures st == Ok ==> Gathered(Box()) && scanAt == old(tick) + 2 && replies(scanAt).status == Ok
    {
      hide Traced, IsTable, Networks, TakeAll, Gathered;
      st := Listen();
      if st != Ok { return; }
      ghost var answered, turns := Box(), 0;
      st, turns := Await();
      if st != Ok { return; }
      WindowIsGathered(answered, Box(), turns);
      st := Check();
      if st != Ok { return; }
      error := eventStatus;
      st := if eventStatus == 0 then Ok else Unsuccessful;
    }

    /** The scan proper, on an adapter that is down. */
    method Proceed(ghost mask: seq<byte>, ghost country: seq<byte>, ghost radio: seq<Radio>) returns (st: NtStatus)
      requires Valid() && Quiet() && dirty && !maskTouched && !countryTouched && Owed(mask, country, radio)
      modifies this`tick, this`firmwareError, this`complete, this`eventStatus, this`sources, this`error,
        this`acceptEvents, this`startAttempted, this`maskTouched, this`countryTouched, this`originalMask,
        this`originalCountry, this`scanAt, report, report.entries, card
      ensures Valid() && busy && Owed(mask, country, radio)
      ensures st == Ok ==> complete && eventStatus == 0
      ensures st == Ok ==>
        startAttempted && maskTouched && forall b :: old(card.sent) == b + [DownCmd, ClmCmd] ==>
        SetupPart(b, card.sent, countryTouched, originalMask, wanted)
      ensures st == Ok ==> Gathered(Box()) && old(tick) <= scanAt && replies(scanAt).status == Ok
    {
      hide Scanner.Valid, CountryMatches, CountryPart, SetupPart, Owed, Gathered;
      ghost var before := card.sent;
      st := ChooseCountry(mask, country, radio);
      if st != Ok { return; }
      ghost var mid := card.sent;
      st := WidenMask(mask, country, radio);
      if st != Ok { return; }
      ghost var masked := card.sent;
      st := Collect(mask, country, radio);
      if st == Ok { IsSetupPart(before, mid, masked, card.sent, countryTouched, originalMask, wanted); }
    }

    method ClearLocals()
      requires Valid() && Quiet()
      modifies this`dirty, this`maskTouched, this`countryTouched, this`startAttempted, this`error, this`state,
        this`syncId
      ensures Valid() && Quiet() && !dirty && !maskTouched && !countryTouched
      ensures Owed(card.mask, card.country, card.radio)
      ensures syncId == SyncOf(generation)
    {
      dirty, maskTouched, countryTouched, startAttempted, error, state := false, false, false, false, 0, Running;
      syncId := SyncOf(generation);
    }

    /** Everything up to the cleanup label. */
    method Setup() returns (st: NtStatus)
      requires Valid() && Quiet()
      modifies this`tick, this`firmwareError, this`complete, this`eventStatus, this`sources, this`error, this`dirty,
        this`acceptEvents, this`startAttempted, this`associated, this`authorized, this`maskTouched, this`countryTouched,
        this`originalMask, this`originalCountry, this`state, this`syncId, this`scanAt, report, report.entries, card
      ensures Valid() && busy && Owed(old(card.mask), old(card.country), old(card.radio))
      ensures st == Ok ==> dirty && complete && eventStatus == 0
      ensures dirty ==> ready && !old(associated || authorized || selectingBand)
      ensures !dirty ==> st != Ok && associated == old(associated) && authorized == old(authorized)
      ensures !dirty ==>
        card.mask == old(card.mask) && card.country == old(card.country) && card.radio == old(card.radio)
      ensures st == Ok ==>
        startAttempted && maskTouched && SetupPart(old(card.sent), card.sent, countryTouched, old(card.mask), wanted)
      ensures st == Ok ==> Gathered(Box()) && old(tick) <= scanAt && replies(scanAt).status == Ok
      ensures syncId == SyncOf(generation)
    {
      hide Scanner.Valid, CountryMatches, SetupPart, Gathered;
      ghost var mask, country, radio := card.mask, card.country, card.radio;
      ClearLocals();
      st := Recheck();
      if st != Ok { return; }
      st := TakeDown(mask, country, radio);
      if st != Ok { return; }
      st := Proceed(mask, country, radio);
    }

    // -------------------------------------------------------------- cleanup

    /** Writes a remembered mask back and reads it: success means the card holds it. */
    method RestoreMask() returns (st: NtStatus)
      requires Valid() && !acceptEvents
      modifies this`tick, this`firmwareError, this`complete, this`eventStatus, this`sources, report, report.entries,
        card`sent, card`mask
      ensures Valid() && Silent() && (st == Ok ==> card.mask == originalMask)
      ensures st == Ok ==> card.sent == old(card.sent) + [SetMaskCmd(originalMask), GetMaskCmd]
      ensures tick >= old(tick)
    {
      hide Traced, IsTable, Networks;
      st := SetMask(originalMask);
      if st != Ok { return; }
      var now;
      st, now := GetMask();
      if st == Ok && now != originalMask { return DataError; }
    }

    method RestoreCountry() returns (st: NtStatus)
      requires Valid() && !acceptEvents
      modifies this`tick, this`firmwareError, this`complete, this`eventStatus, this`sources, report, report.entries,
        card`sent, card`country
      ensures Valid() && Silent() && (st == Ok ==> card.country == originalCountry)
      ensures st == Ok ==> card.sent == old(card.sent) + [SetCountryCmd(originalCountry), GetCountryCmd]
      ensures tick >= old(tick)
    {
      hide Traced, IsTable, Networks;
      st := SetCountry(originalCountry);
      if st != Ok { return; }
      var now;
      st, now := GetCountry();
      if st == Ok && now != originalCountry { return DataError; }
    }

    /** The scan aborted if it may still run, and the radio put down: the final cancellation authority. */
    method DownAgain() returns (st: NtStatus)
      requires Valid() && !acceptEvents
      modifies this`tick, this`firmwareError, this`complete, this`eventStatus, this`sources, report, report.entries,
        card`sent, card`radio
      ensures Valid() && Silent() && |card.radio| > |old(card.radio)| && card.radio[|card.radio| - 1] == Down(st == Ok)
      ensures card.sent == old(card.sent) +
        (if old(startAttempted && (!complete || eventStatus != 0)) then [AbortCmd] else []) + [DownCmd]
      ensures tick >= old(tick)
    {
      hide Traced, IsTable, Networks;
      if startAttempted && (!complete || eventStatus != 0) { var _ := Ask(AbortCmd); }
      st := SetRadio(false);
    }

    /** The cleanup of a request that may have changed the card. */
    method Restore(ghost mask: seq<byte>, ghost country: seq<byte>, ghost radio: seq<Radio>)
      returns (st: NtStatus, err: nat)
      requires Valid() && busy && !acceptEvents && dirty && Owed(mask, country, radio)
      modifies this`tick, this`firmwareError, this`complete, this`eventStatus, this`sources, report, report.entries,
        card
      ensures Valid() && Silent()
      ensures st == Ok ==> card.mask == mask && card.country == country
      ensures st == Ok ==> |card.radio| > |radio| && card.radio[|card.radio| - 1] == Down(true)
      ensures st == Ok && old(complete && eventStatus == 0) ==>
        card.sent == old(card.sent) + [DownCmd] +
        RestoreCmds(if maskTouched then Some(originalMask) else None,
        if countryTouched then Some(originalCountry) else None)
      ensures st == Ok ==> DrainedSince(old(tick))
    {
      hide Scanner.Valid;
      st, err := Ok, 0;
      var look := looks(tick);
      if look.gone { return NtStatus.Cancelled, 0; }
      var one := DownAgain();
      var radioDown := one == Ok;
      if one != Ok { st, err := one, firmwareError; }
      st, err := PutBack(radioDown, st, err);
      if st == Ok {
        st := Drain();
        if st != Ok { err := firmwareError; }
      }
    }

    /** What was touched is written back and read; the first failure is kept. */
    method PutBack(radioDown: bool, st0: NtStatus, err0: nat) returns (st: NtStatus, err: nat)
      requires Valid() && !acceptEvents && (st0 == Ok <==> radioDown)
      modifies this`tick, this`firmwareError, this`complete, this`eventStatus, this`sources, report, report.entries,
        card`sent, card`mask, card`country
      ensures Valid() && Silent() && (st == Ok ==> st0 == Ok)
      ensures st == Ok ==> card.mask == (if maskTouched then originalMask else old(card.mask))
      ensures st == Ok ==> card.country == if countryTouched then originalCountry else old(card.country)
      ensures st == Ok ==>
        card.sent == old(card.sent) +
        RestoreCmds(if maskTouched then Some(originalMask) else None,
        if countryTouched then Some(originalCountry) else None)
      ensures tick >= old(tick)
    {
      hide Traced, IsTable, Networks;
      st, err := st0, err0;
      var one;
      if maskTouched {
        one := RestoreMask();
        if one != Ok && st == Ok { st, err := one, firmwareError; }
      }
      if countryTouched && radioDown {
        one := RestoreCountry();
        if one != Ok && st == Ok { st, err := one, firmwareError; }
      }
    }

    // -------------------------------------------------------------- the whole request

    /** Cleanup, with the link flags dropped first; its failure overrides the outcome. */
    method Undo(st: NtStatus, ghost mask: seq<byte>, ghost country: seq<byte>, ghost radio: seq<Radio>)
      returns (final: NtStatus)
      requires Valid() && busy && !acceptEvents && dirty && ready && Owed(mask, country, radio)
      modifies this`tick, this`firmwareError, this`complete, this`eventStatus, this`sources, this`error, this`ready,
        this`networkStatus, this`associated, this`authorized, report, report.entries, card
      ensures Valid() && Silent() && !associated && !authorized
      ensures if ready then final == st && networkStatus == old(networkStatus) else final == networkStatus != Ok
      ensures ready ==> card.mask == mask && card.country == country
      ensures ready ==> |card.radio| > |radio| && card.radio[|card.radio| - 1] == Down(true)
      ensures ready && startAttempted && maskTouched && old(complete && eventStatus == 0) ==>
        card.sent == old(card.sent) + [DownCmd] +
        RestoreCmds(Some(mask), if countryTouched then Some(country) else None)
    {
      hide Scanner.Valid, RestoreCmds, DrainedSince;
      associated, authorized := false, false;
      var cleanup, err := Restore(mask, country, radio);
      final := st;
      if cleanup != Ok {
        final, error, ready, networkStatus := cleanup, err, false, cleanup;
      }
    }

    /** The request's effect on the card and on the adapter. While the adapter stays usable, mask and country
        are as before and the radio was last put down, or nothing was sent. */
    twostate predicate Settled()
      reads this`ready, this`dirty, this`associated, this`authorized, card
    {
      && (ready ==> old(ready) && card.mask == old(card.mask) && card.country == old(card.country))
      && (ready ==>
          card.radio == old(card.radio)
          || (|card.radio| > |old(card.radio)| && card.radio[|card.radio| - 1] == Down(true)))
      && (if dirty then !associated && !authorized else
          associated == old(associated) && authorized == old(authorized) && ready == old(ready)
          && card.radio == old(card.radio) && card.mask == old(card.mask) && card.country == old(card.country))
    }

    /** Setup and cleanup. */
    method Transact() returns (st: NtStatus)
      requires Valid() && Quiet()
      modifies this, report, report.entries, card
      ensures Valid() && !acceptEvents && Settled()
      ensures st == Ok ==> ready && complete && eventStatus == 0 && dirty
      ensures !ready && old(ready) ==> st == networkStatus != Ok
      ensures old(associated || authorized || selectingBand) ==> !dirty
      ensures st == Ok ==>
        Transcript(old(card.sent), card.sent, countryTouched, old(card.mask), old(card.country), wanted)
      ensures generation == old(generation) && wanted == old(wanted) && syncId == SyncOf(generation)
      ensures st == Ok ==> Gathered(Box()) && old(tick) <= scanAt && replies(scanAt).status == Ok
    {
      hide Scanner.Valid, SetupPart, Gathered;
      ghost var mask, country, radio := card.mask, card.country, card.radio;
      st := Setup();
      acceptEvents := false;
      if dirty { st := Undo(st, mask, country, radio); }
    }

    /** CywScanRequest. Complete is reported only with the card restored, and then with exactly the table of
        the accepted records; otherwise no entry is left. */
    method Request()
      requires Valid() && Quiet()
      modifies this, report, report.entries, card
      ensures Valid() && !busy && !acceptEvents && Settled()
      ensures state == Complete ==> ready && complete && eventStatus == 0 && dirty
      ensures state == (if status == Ok then Complete
        else if status == NtStatus.Cancelled then ScanState.Cancelled
        else Failed)
      ensures state != Complete ==> report.count == 0
      ensures !ready && old(ready) ==> networkStatus == status != Ok
      ensures old(associated || authorized || selectingBand) ==> !dirty
      ensures state == Complete ==>
        Transcript(old(card.sent), card.sent, countryTouched, old(card.mask), old(card.country), wanted)
      ensures generation == old(generation) && wanted == old(wanted) && syncId == SyncOf(generation)
      ensures state == Complete ==> Gathered(Box()) && old(tick) <= scanAt && replies(scanAt).status == Ok
    {
      hide Traced, IsTable, Networks, Transcript, Gathered;
      var st := Transact();
      Publish(st);
    }

    /** What the caller of the scan gets to see. A success that was cancelled meanwhile is a cancellation. */
    method Publish(outcome: NtStatus)
      requires Valid()
      modifies this`status, this`state, this`busy, this`sources, report, report.entries
      ensures Valid() && !busy && (status == outcome || (outcome == Ok && status == NtStatus.Cancelled))
      ensures state == if status == Ok then Complete
        else if status == NtStatus.Cancelled then ScanState.Cancelled
        else Failed
      ensures if status == Ok then report.records == old(report.records) && sources == old(sources)
        else report.count == 0
    {
      var look := looks(tick);
      status := if (look.gone || look.cancelled) && outcome == Ok then NtStatus.Cancelled else outcome;
      state := if status == Ok then Complete else if status == NtStatus.Cancelled then ScanState.Cancelled else Failed;
      if status != Ok {
        report.Clear();
        sources := [];
      }
      busy := false;
    }
  }

  lemma IsCountryPart(before: seq<Command>, mid: seq<Command>, after: seq<Command>, touched: bool, wanted: seq<byte>)
    requires after == mid + [GetCountryCmd]
    requires if touched then Sets(before + [GetCountryCmd], mid, wanted) else mid == before + [GetCountryCmd]
    ensures CountryPart(before, after, touched, wanted)
  {}
}
