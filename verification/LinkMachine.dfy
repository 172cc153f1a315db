/** Association and authorization as a state machine over the whole trace of firmware events, the ignored
    ones included. The worker's handling of one event is two steps, and a scan dispatch by another thread
    can fall between them. */
module LinkMachine {
  import opened Wire

  /** What an event means for the connection. `Cleared` is the worker's own reset of both flags. */
  datatype Meaning = LinkUp | LinkDown | Deauth | JoinFailed | KeyDone | KeyProgress | KeyFailed | Cleared | Other

  predicate Drops(m: Meaning) { m in {LinkDown, Deauth, JoinFailed, Cleared} }

  predicate Revokes(m: Meaning) { Drops(m) || m == KeyFailed }

  /** The meanings that set a flag. */
  predicate Raises(m: Meaning) { m in {LinkUp, KeyDone} }

  /** One event of the trace, and whether the driver acted on it. */
  datatype Entry = Entry(m: Meaning, taken: bool)

  /** With `all`, every event counts; without, only those acted on. */
  predicate Counts(e: Entry, all: bool) { all || e.taken }

  /** Some link-up is not followed by anything that drops the association. */
  ghost predicate Associated(log: seq<Entry>, all: bool) {
    exists i :: 0 <= i < |log| && Counts(log[i], all) && log[i].m == LinkUp
      && forall j :: i < j < |log| ==> !(Counts(log[j], all) && Drops(log[j].m))
  }

  /** Some key completion is not followed by anything that revokes it. */
  ghost predicate Authorized(log: seq<Entry>, all: bool) {
    exists i :: 0 <= i < |log| && Counts(log[i], all) && log[i].m == KeyDone
      && forall j :: i < j < |log| ==> !(Counts(log[j], all) && Revokes(log[j].m))
  }

  lemma AssociatedStep(log: seq<Entry>, e: Entry, all: bool)
    ensures Associated(log + [e], all) <==>
      (Counts(e, all) && e.m == LinkUp) || (Associated(log, all) && !(Counts(e, all) && Drops(e.m)))
  {
    var l := log + [e];
    if Counts(e, all) && e.m == LinkUp { assert l[|log|] == e; }
    if Associated(log, all) && !(Counts(e, all) && Drops(e.m)) {
      var i :| 0 <= i < |log| && Counts(log[i], all) && log[i].m == LinkUp
        && forall j :: i < j < |log| ==> !(Counts(log[j], all) && Drops(log[j].m));
      assert l[i] == log[i];
    }
    if Associated(l, all) && !(Counts(e, all) && e.m == LinkUp) {
      var i :| 0 <= i < |l| && Counts(l[i], all) && l[i].m == LinkUp
        && forall j :: i < j < |l| ==> !(Counts(l[j], all) && Drops(l[j].m));
      assert l[i] == log[i] && forall j :: i < j < |log| ==> l[j] == log[j];
      assert l[|log|] == e;
    }
  }

  lemma AuthorizedStep(log: seq<Entry>, e: Entry, all: bool)
    ensures Authorized(log + [e], all) <==>
      (Counts(e, all) && e.m == KeyDone) || (Authorized(log, all) && !(Counts(e, all) && Revokes(e.m)))
  {
    var l := log + [e];
    if Counts(e, all) && e.m == KeyDone { assert l[|log|] == e; }
    if Authorized(log, all) && !(Counts(e, all) && Revokes(e.m)) {
      var i :| 0 <= i < |log| && Counts(log[i], all) && log[i].m == KeyDone
        && forall j :: i < j < |log| ==> !(Counts(log[j], all) && Revokes(log[j].m));
      assert l[i] == log[i];
    }
    if Authorized(l, all) && !(Counts(e, all) && e.m == KeyDone) {
      var i :| 0 <= i < |l| && Counts(l[i], all) && l[i].m == KeyDone
        && forall j :: i < j < |l| ==> !(Counts(l[j], all) && Revokes(l[j].m));
      assert l[i] == log[i] && forall j :: i < j < |log| ==> l[j] == log[j];
      assert l[|log|] == e;
    }
  }

  /** A standing association is younger than every drop that counts. */
  lemma UpAfter(log: seq<Entry>, all: bool, d: nat) returns (up: nat)
    requires Associated(log, all) && d < |log| && Counts(log[d], all) && Drops(log[d].m)
    ensures d < up < |log| && Counts(log[up], all) && log[up].m == LinkUp
    ensures forall j :: up < j < |log| ==> !(Counts(log[j], all) && Drops(log[j].m))
  {
    up :| 0 <= up < |log| && Counts(log[up], all) && log[up].m == LinkUp
      && forall j :: up < j < |log| ==> !(Counts(log[j], all) && Drops(log[j].m));
  }

  /** A standing authorization is younger than everything that revokes it and counts. */
  lemma KeyAfter(log: seq<Entry>, all: bool, d: nat) returns (key: nat)
    requires Authorized(log, all) && d < |log| && Counts(log[d], all) && Revokes(log[d].m)
    ensures d < key < |log| && Counts(log[key], all) && log[key].m == KeyDone
    ensures forall j :: key < j < |log| ==> !(Counts(log[j], all) && Revokes(log[j].m))
  {
    key :| 0 <= key < |log| && Counts(log[key], all) && log[key].m == KeyDone
      && forall j :: key < j < |log| ==> !(Counts(log[j], all) && Revokes(log[j].m));
  }

  /** Handshake progress never grants an authorization, and never takes one away. */
  lemma ProgressChangesNothing(log: seq<Entry>, taken: bool, all: bool)
    ensures Authorized(log + [Entry(KeyProgress, taken)], all) <==> Authorized(log, all)
    ensures Associated(log + [Entry(KeyProgress, taken)], all) <==> Associated(log, all)
  {
    AuthorizedStep(log, Entry(KeyProgress, taken), all);
    AssociatedStep(log, Entry(KeyProgress, taken), all);
  }

  // ---------------------------------------------------------------- the machine

  /** Where the worker stands in its handling of an event. */
  datatype EventAt = Between | Checked(m: Meaning) | Updated

  datatype State = State(associated: bool, authorized: bool, selecting: bool, scanBusy: bool, media: bool,
                         at: EventAt, log: seq<Entry>, overlapped: bool)

  datatype Step =
    // the worker
    | Arrive(m: Meaning)     // the look at ScanBusy: the event is ignored, or goes on
    | Update                 // the two flags
    | Announce               // the publication of what the flags say
    | Clear                  // both flags reset by the worker
    | Down                   // the link published as down
    | Hold(on: bool)         // the band-selection hold
    // other threads
    | Dispatch               // a scan is queued: events are ignored from here on
    | EndScan                // it is finished, cancelled or quiesced

  /** An event past the check will still set a flag. */
  predicate Pending(at: EventAt) { at.Checked? && Raises(at.m) }

  predicate Enabled(s: State, step: Step) {
    match step
    case Arrive(_) => s.at == Between
    case Update => s.at.Checked?
    case Announce => !s.at.Checked?
    case Clear => s.at == Between
    case Down => s.at == Between
    case Hold(_) => s.at == Between
    case Dispatch => !s.scanBusy && !s.associated && !s.authorized && !s.selecting
    case EndScan => s.scanBusy
  }

  function Flagged(s: State, m: Meaning): State {
    match m
    case LinkUp => s.(associated := true)
    case KeyDone => s.(authorized := true)
    case KeyFailed => s.(authorized := false)
    case KeyProgress => s
    case Other => s
    case _ => s.(associated := false, authorized := false)
  }

  function Next(s: State, step: Step): State
    requires Enabled(s, step)
  {
    match step
    case Arrive(m) => if s.scanBusy then s.(log := s.log + [Entry(m, false)]) else s.(at := Checked(m))
    case Update => Flagged(s, s.at.m).(at := Updated, log := s.log + [Entry(s.at.m, true)])
    case Announce => s.(at := Between, media := if s.associated && s.authorized then s.media || !s.selecting else false)
    case Clear => Flagged(s, Cleared).(log := s.log + [Entry(Cleared, true)])
    case Down => s.(media := false)
    case Hold(on) => s.(selecting := on)
    case Dispatch => s.(scanBusy := true, overlapped := s.overlapped || Pending(s.at))
    case EndScan => s.(scanBusy := false)
  }

  function Init(): State { State(false, false, false, false, false, Between, [], false) }

  ghost predicate IsRun(s: State, steps: seq<Step>, s': State)
    decreases |steps|
  {
    if steps == [] then s == s'
    else
      var n := |steps| - 1;
      exists mid: State :: IsRun(s, steps[..n], mid) && Enabled(mid, steps[n]) && s' == Next(mid, steps[n])
  }

  lemma {:induction false} RunExtends(s: State, steps: seq<Step>, mid: State, step: Step)
    requires IsRun(s, steps, mid) && Enabled(mid, step)
    ensures IsRun(s, steps + [step], Next(mid, step))
  {
    assert (steps + [step])[..|steps|] == steps;
  }

  // ---------------------------------------------------------------- what holds over runs

  /** The flags stand for something in the whole trace, ignored events included. */
  ghost predicate Honest(s: State) {
    (s.associated ==> Associated(s.log, true)) && (s.authorized ==> Authorized(s.log, true))
  }

  /** The flags are exactly what the events acted on amount to. And while no dispatch has overlapped the
      update of an event, a queued or running scan finds both flags down and no event about to set one. */
  ghost predicate Inv(s: State) {
    && s.associated == Associated(s.log, false) && s.authorized == Authorized(s.log, false)
    && (!s.overlapped ==> Honest(s) && (s.scanBusy ==> !s.associated && !s.authorized && !Pending(s.at)))
  }

  lemma {:induction false} FlaggedLog(s: State, m: Meaning)
    requires s.associated == Associated(s.log, false) && s.authorized == Authorized(s.log, false)
    ensures var f, log := Flagged(s, m), s.log + [Entry(m, true)];
      && f.associated == Associated(log, false) && f.authorized == Authorized(log, false)
      && (Honest(s) ==> (f.associated ==> Associated(log, true)) && (f.authorized ==> Authorized(log, true)))
  {
    hide Associated, Authorized;
    AssociatedStep(s.log, Entry(m, true), false);
    AuthorizedStep(s.log, Entry(m, true), false);
    AssociatedStep(s.log, Entry(m, true), true);
    AuthorizedStep(s.log, Entry(m, true), true);
  }

  lemma {:induction false} NextKeeps(s: State, step: Step)
    requires Inv(s) && Enabled(s, step)
    ensures Inv(Next(s, step))
  {
    hide Associated, Authorized;
    match step
    case Arrive(m) => IgnoredLog(s, m);
    case Update => FlaggedLog(s, s.at.m);
    case Clear => FlaggedLog(s, Cleared);
    case _ =>
  }

  lemma {:induction false} IgnoredLog(s: State, m: Meaning)
    ensures var log := s.log + [Entry(m, false)];
      && Associated(log, false) == Associated(s.log, false) && Authorized(log, false) == Authorized(s.log, false)
  {
    AssociatedStep(s.log, Entry(m, false), false);
    AuthorizedStep(s.log, Entry(m, false), false);
  }

  lemma {:induction false} RunKeeps(s: State, steps: seq<Step>, s': State)
    requires Inv(s) && IsRun(s, steps, s')
    ensures Inv(s')
    decreases |steps|
  {
    hide Inv;
    if steps != [] {
      var n := |steps| - 1;
      var mid: State :| IsRun(s, steps[..n], mid) && Enabled(mid, steps[n]) && s' == Next(mid, steps[n]);
      RunKeeps(s, steps[..n], mid);
      NextKeeps(mid, steps[n]);
    }
  }

  lemma {:induction false} EveryRunKeeps(steps: seq<Step>, s: State)
    requires IsRun(Init(), steps, s)
    ensures Inv(s)
  {
    RunKeeps(Init(), steps, s);
  }

  /** Over every run in which no dispatch falls between the check of an event and its update: after
      anything in the whole trace that drops the link, acted on or ignored, a connection needs both a later
      link-up and a later key completion, neither undone since. */
  lemma {:induction false} ReconnectNeedsBoth(steps: seq<Step>, s: State, d: nat) returns (up: nat, key: nat)
    requires IsRun(Init(), steps, s) && !s.overlapped && s.associated && s.authorized
    requires d < |s.log| && Drops(s.log[d].m)
    ensures d < up < |s.log| && s.log[up].m == LinkUp && forall j :: up < j < |s.log| ==> !Drops(s.log[j].m)
    ensures d < key < |s.log| && s.log[key].m == KeyDone && forall j :: key < j < |s.log| ==> !Revokes(s.log[j].m)
  {
    EveryRunKeeps(steps, s);
    hide IsRun, Associated, Authorized;
    up := UpAfter(s.log, true, d);
    key := KeyAfter(s.log, true, d);
  }

  /** Which arrivals cost the flags their ground: exactly those ignored while a flag stands that they would
      have taken down. */
  lemma {:induction false} ArrivalKeepsHonestExactly(s: State, m: Meaning)
    requires Honest(s) && Enabled(s, Arrive(m))
    ensures Honest(Next(s, Arrive(m))) <==>
      !(s.scanBusy && ((s.associated && Drops(m)) || (s.authorized && Revokes(m))))
  {
    AssociatedStep(s.log, Entry(m, false), true);
    AuthorizedStep(s.log, Entry(m, false), true);
  }

  predicate NoDispatch(steps: seq<Step>) { forall i :: 0 <= i < |steps| ==> steps[i] != Dispatch }

  lemma {:induction false} OverlapOnlyByDispatch(s: State, steps: seq<Step>, s': State)
    requires IsRun(s, steps, s') && NoDispatch(steps)
    ensures s'.overlapped == s.overlapped
    decreases |steps|
  {
    hide Next, Enabled;
    if steps != [] {
      var n := |steps| - 1;
      var mid: State :| IsRun(s, steps[..n], mid) && Enabled(mid, steps[n]) && s' == Next(mid, steps[n]);
      assert NoDispatch(steps[..n]);
      OverlapOnlyByDispatch(s, steps[..n], mid);
      StepOverlap(mid, steps[n]);
    }
  }

  lemma {:induction false} StepOverlap(s: State, step: Step)
    requires Enabled(s, step) && step != Dispatch
    ensures Next(s, step).overlapped == s.overlapped
  {
    match step {
      case Update => match s.at.m { case _ => }
      case _ =>
    }
  }

  /** A dispatch leaves every later state honest, whatever happens until the next one. */
  ghost predicate SafeDispatch(s: State)
    requires Enabled(s, Dispatch)
  {
    forall steps, s' :: IsRun(Next(s, Dispatch), steps, s') && NoDispatch(steps) ==> Honest(s')
  }

  /** Exactly when a dispatch is safe: when no event that will set a flag has passed the check. */
  lemma {:induction false} DispatchSafeExactly(s: State)
    requires Inv(s) && !s.overlapped && Enabled(s, Dispatch)
    ensures SafeDispatch(s) <==> !Pending(s.at)
  {
    var d := Next(s, Dispatch);
    if Pending(s.at) {
      var steps, bad := LostDrop(d);
      assert !SafeDispatch(s);
    } else {
      forall steps, s' | IsRun(d, steps, s') && NoDispatch(steps) ensures Honest(s') {
        NextKeeps(s, Dispatch);
        RunKeeps(d, steps, s');
        OverlapOnlyByDispatch(d, steps, s');
      }
    }
  }

  /** The update goes on after the dispatch, and a deauthentication behind it is ignored. */
  lemma {:induction false} LostDrop(d: State) returns (steps: seq<Step>, bad: State)
    requires d.scanBusy && Pending(d.at)
    ensures IsRun(d, steps, bad) && NoDispatch(steps) && !Honest(bad)
  {
    var updated := Next(d, Update);
    var announced := Next(updated, Announce);
    bad := Next(announced, Arrive(Deauth));
    steps := [Update, Announce, Arrive(Deauth)];
    ThreeSteps(d, Update, updated, Announce, announced, Arrive(Deauth));
    AssociatedStep(announced.log, Entry(Deauth, false), true);
    AuthorizedStep(announced.log, Entry(Deauth, false), true);
  }

  lemma {:induction false} ThreeSteps(s0: State, a: Step, s1: State, b: Step, s2: State, c: Step)
    requires Enabled(s0, a) && s1 == Next(s0, a) && Enabled(s1, b) && s2 == Next(s1, b) && Enabled(s2, c)
    ensures IsRun(s0, [a, b, c], Next(s2, c))
  {
    hide Next, Enabled;
    assert IsRun(s0, [], s0);
    RunExtends(s0, [], s0, a);
    assert [] + [a] == [a] && [a] + [b] == [a, b] && [a, b] + [c] == [a, b, c];
    RunExtends(s0, [a], s1, b);
    RunExtends(s0, [a, b], s2, c);
  }

  lemma {:induction false} RunsCompose(s: State, first: seq<Step>, mid: State, second: seq<Step>, s': State)
    requires IsRun(s, first, mid) && IsRun(mid, second, s')
    ensures IsRun(s, first + second, s')
    decreases |second|
  {
    if second == [] {
      assert first + second == first;
    } else {
      var n := |second| - 1;
      var before: State :| IsRun(mid, second[..n], before) && Enabled(before, second[n]) && s' == Next(before,
        second[n]);
      RunsCompose(s, first, mid, second[..n], before);
      RunExtends(s, first + second[..n], before, second[n]);
      assert first + second[..n] + [second[n]] == first + second;
    }
  }

  /** A run from start that publishes a connection across a deauthentication: a link-up passes the check, a
      scan is dispatched, the link-up sets its flag, the deauthentication behind it is ignored, the scan
      finds the adapter busy and ends, and a key completion publishes. No link-up follows the
      deauthentication. */
  lemma {:induction false} OverlapPublishesAcrossDeauth() returns (steps: seq<Step>, s: State)
    ensures IsRun(Init(), steps, s) && s.media && s.overlapped && s.at == Between && !s.scanBusy
    ensures s.log == [Entry(LinkUp, true), Entry(Deauth, false), Entry(KeyDone, true)]
    ensures !Associated(s.log, true)
  {
    var up, drop, key := Entry(LinkUp, true), Entry(Deauth, false), Entry(KeyDone, true);
    var c := State(true, false, false, true, false, Updated, [up], true);
    var f := State(true, false, false, false, false, Between, [up, drop], true);
    s := State(true, true, false, false, true, Between, [up, drop, key], true);
    LinkUpUnderDispatch(up, c);
    DeauthIgnored(up, drop, c, f);
    KeyDonePublishes(up, drop, key, f, s);
    DeauthStands(up, drop, key);
    hide IsRun, Associated, Authorized, Next, Enabled, Init;
    var first, second, third :=
      [Arrive(LinkUp), Dispatch, Update], [Announce, Arrive(Deauth), EndScan], [Arrive(KeyDone), Update, Announce];
    RunsCompose(Init(), first, c, second, f);
    steps := first + second + third;
    RunsCompose(Init(), first + second, f, third, s);
  }

  lemma DeauthStands(up: Entry, drop: Entry, key: Entry)
    requires drop == Entry(Deauth, false) && key == Entry(KeyDone, true)
    ensures !Associated([up, drop, key], true)
  {
    hide Associated;
    AssociatedStep([up], drop, true);
    AssociatedStep([up, drop], key, true);
    assert [up] + [drop] == [up, drop] && [up, drop] + [key] == [up, drop, key];
  }

  /** What that trace amounts to, acted on and whole. */
  lemma AcrossDeauth()
    ensures var up, drop, key := Entry(LinkUp, true), Entry(Deauth, false), Entry(KeyDone, true);
      && Associated([up, drop], false) && Associated([up, drop, key], false) && Authorized([up, drop, key], false)
      && !Associated([up, drop, key], true)
  {
    var up, drop, key := Entry(LinkUp, true), Entry(Deauth, false), Entry(KeyDone, true);
    DeauthStands(up, drop, key);
    hide Associated, Authorized;
    AssociatedStep([], up, false);
    AssociatedStep([up], drop, false);
    AssociatedStep([up, drop], key, false);
    AuthorizedStep([up, drop], key, false);
    assert [] + [up] == [up] && [up] + [drop] == [up, drop] && [up, drop] + [key] == [up, drop, key];
  }

  lemma {:induction false} LinkUpUnderDispatch(up: Entry, c: State)
    requires up == Entry(LinkUp, true) && c == State(true, false, false, true, false, Updated, [up], true)
    ensures IsRun(Init(), [Arrive(LinkUp), Dispatch, Update], c)
  {
    hide IsRun;
    var a := Next(Init(), Arrive(LinkUp));
    var b := Next(a, Dispatch);
    assert Next(b, Update) == c;
    ThreeSteps(Init(), Arrive(LinkUp), a, Dispatch, b, Update);
  }

  lemma {:induction false} DeauthIgnored(up: Entry, drop: Entry, c: State, f: State)
    requires c == State(true, false, false, true, false, Updated, [up], true) && drop == Entry(Deauth, false)
    requires f == State(true, false, false, false, false, Between, [up, drop], true)
    ensures IsRun(c, [Announce, Arrive(Deauth), EndScan], f)
  {
    hide IsRun;
    var d := Next(c, Announce);
    var e := Next(d, Arrive(Deauth));
    assert Next(e, EndScan) == f;
    ThreeSteps(c, Announce, d, Arrive(Deauth), e, EndScan);
  }

  lemma {:induction false} KeyDonePublishes(up: Entry, drop: Entry, key: Entry, f: State, s: State)
    requires f == State(true, false, false, false, false, Between, [up, drop], true) && key == Entry(KeyDone, true)
    requires s == State(true, true, false, false, true, Between, [up, drop, key], true)
    ensures IsRun(f, [Arrive(KeyDone), Update, Announce], s)
  {
    hide IsRun;
    var g := Next(f, Arrive(KeyDone));
    var h := Next(g, Update);
    assert Next(h, Announce) == s;
    ThreeSteps(f, Arrive(KeyDone), g, Update, h, Announce);
  }

  // ---------------------------------------------------------------- requests

  /** The trace went on, and the worker dropped both flags meanwhile. */
  ghost predicate Renewed(before: seq<Entry>, after: seq<Entry>) {
    before <= after && exists k :: |before| <= k < |after| && after[k] == Entry(Cleared, true)
  }

  lemma RenewedBy(before: seq<Entry>, mid: seq<Entry>, after: seq<Entry>)
    requires before <= mid && mid + [Entry(Cleared, true)] <= after
    ensures Renewed(before, after)
  {
    assert after[|mid|] == Entry(Cleared, true);
  }

  lemma RenewedLater(before: seq<Entry>, mid: seq<Entry>, after: seq<Entry>)
    requires Renewed(before, mid) && mid <= after
    ensures Renewed(before, after)
  {
    var k :| |before| <= k < |mid| && mid[k] == Entry(Cleared, true);
    assert after[k] == Entry(Cleared, true);
  }

  lemma RenewedSince(before: seq<Entry>, mid: seq<Entry>, after: seq<Entry>)
    requires before <= mid && Renewed(mid, after)
    ensures Renewed(before, after)
  {}

  /** A connection that stands after a connect or disconnect request was earned after it: the events acted
      on since hold a link-up and a key completion, overlap or not. */
  lemma {:induction false} EarnedAfterRequest(steps: seq<Step>, s: State, before: seq<Entry>)
    returns (up: nat, key: nat)
    requires IsRun(Init(), steps, s) && Renewed(before, s.log) && s.associated && s.authorized
    ensures |before| < up < |s.log| && s.log[up] == Entry(LinkUp, true)
    ensures |before| < key < |s.log| && s.log[key] == Entry(KeyDone, true)
  {
    EveryRunKeeps(steps, s);
    var d :| |before| <= d < |s.log| && s.log[d] == Entry(Cleared, true);
    hide IsRun, Associated, Authorized;
    up := UpAfter(s.log, false, d);
    key := KeyAfter(s.log, false, d);
  }
}
