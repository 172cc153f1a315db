/** The diagnostics mailbox and its writer thread, one atomic operation per step: the sole producer (the
    bus worker) and the sole consumer (the writer thread) interleave arbitrarily. */
module DiagMachine {
  const FREE: nat := 0
  const CAPTURING: nat := 1
  const READY: nat := 2
  const WRITING: nat := 3

  datatype ProducerAt = Resting | Filling | Toggling | Signalling | StopSignalling | Joining | Gone

  datatype ConsumerAt = Taking | Reading(seen: int) | Releasing | Advancing | Checking | Rechecking | Waiting | Exited

  /** Shared memory, the two program counters, and the history. A buffer's content is an opaque value. */
  datatype World = World(
    state: seq<nat>, buffer: seq<int>, produce: nat, consume: nat, skipped: nat, stop: bool, wake: bool,
    producer: ProducerAt, consumer: ConsumerAt,
    published: seq<int>, written: seq<int>, released: nat)

  datatype Step =
    // producer
    | Begin                 // compare-exchange of the produced slot, free to capturing
    | Fill(content: int)    // any store into the captured buffer
    | Publish               // the slot becomes ready
    | Toggle
    | Signal                // the wake event, after a publication or after Stop
    | SetStop
    | Join                  // the wait for the thread's end, and the release of the memory
    // consumer
    | Take                  // compare-exchange of the consumed slot, ready to writing
    | Write                 // the end of the registry write of the buffer
    | Release
    | Advance
    | Check                 // the read of Stop
    | Wait                  // the end of a wait on the wake event, which clears it

  predicate ByProducer(s: Step) { s.Begin? || s.Fill? || s.Publish? || s.Toggle? || s.Signal? || s.SetStop? || s.Join? }

  predicate Shape(w: World) { |w.state| == 2 && |w.buffer| == 2 && w.produce < 2 && w.consume < 2 }

  predicate Enabled(w: World, s: Step) {
    Shape(w) &&
    match s
    case Begin => w.producer == Resting
    case Fill(_) => w.producer == Filling
    case Publish => w.producer == Filling
    case Toggle => w.producer == Toggling
    case Signal => w.producer in {Signalling, StopSignalling}
    case SetStop => w.producer == Resting
    case Join => w.producer == Joining && w.consumer == Exited
    case Take => w.consumer in {Taking, Rechecking}
    case Write => w.consumer.Reading?
    case Release => w.consumer == Releasing
    case Advance => w.consumer == Advancing
    case Check => w.consumer == Checking
    case Wait => w.consumer == Waiting && w.wake
  }

  function Next(w: World, s: Step): World
    requires Enabled(w, s)
  {
    match s
    case Begin =>
      if w.state[w.produce] != FREE then w.(skipped := w.skipped + 1)
      else w.(state := w.state[w.produce := CAPTURING], producer := Filling)
    case Fill(content) => w.(buffer := w.buffer[w.produce := content])
    case Publish =>
      w.(state := w.state[w.produce := READY], producer := Toggling, published := w.published + [w.buffer[w.produce]])
    case Toggle => w.(produce := 1 - w.produce, producer := Signalling)
    case Signal => w.(wake := true, producer := if w.producer == Signalling then Resting else Joining)
    case SetStop => w.(stop := true, producer := StopSignalling)
    case Join => w.(producer := Gone)
    case Take =>
      if w.state[w.consume] == READY
        then w.(state := w.state[w.consume := WRITING], consumer := Reading(w.buffer[w.consume]))
      else w.(consumer := if w.consumer == Taking then Checking else Exited)
    case Write => w.(written := w.written + [w.buffer[w.consume]], consumer := Releasing)
    case Release => w.(state := w.state[w.consume := FREE], consumer := Advancing, released := w.released + 1)
    case Advance => w.(consume := 1 - w.consume, consumer := Taking)
    case Check => w.(consumer := if w.stop then Rechecking else Waiting)
    case Wait => w.(wake := false, consumer := Taking)
  }

  function Init(): World { World([FREE, FREE], [0, 0], 0, 0, 0, false, false, Resting, Taking, [], [], 0) }

  ghost predicate IsRun(w: World, steps: seq<Step>, w': World)
    decreases |steps|
  {
    if steps == [] then w == w'
    else
      var n := |steps| - 1;
      exists mid: World :: IsRun(w, steps[..n], mid) && Enabled(mid, steps[n]) && w' == Next(mid, steps[n])
  }

  lemma {:induction false} RunExtends(w: World, steps: seq<Step>, mid: World, s: Step)
    requires IsRun(w, steps, mid) && Enabled(mid, s)
    ensures IsRun(w, steps + [s], Next(mid, s))
  {
    assert (steps + [s])[..|steps|] == steps;
  }

  // ---------------------------------------------------------------- the invariant

  predicate Holding(c: ConsumerAt) { c.Reading? || c == Releasing }

  /** The number of published buffers not yet released. */
  function Backlog(w: World): int { |w.published| - w.released }

  /** What slot `k` of the mailbox holds, by the number of buffers published and released. */
  predicate SlotOk(w: World, k: nat)
    requires Shape(w) && k < 2
  {
    var r := w.released;
    if Backlog(w) >= 1 && k == r % 2 then
      w.state[k] == (if Holding(w.consumer) then WRITING else READY) && w.buffer[k] == w.published[r]
    else if Backlog(w) == 2 then w.state[k] == READY && w.buffer[k] == w.published[r + 1]
    else w.state[k] == (if w.producer == Filling && k == |w.published| % 2 then CAPTURING else FREE)
  }

  predicate Indices(w: World) {
    && w.produce == (|w.published| + if w.producer == Toggling then 1 else 0) % 2
    && w.consume == (w.released + if w.consumer == Advancing then 1 else 0) % 2
    && 0 <= Backlog(w) <= (if w.producer == Filling then 1 else 2)
    && (Holding(w.consumer) ==> Backlog(w) >= 1)
    && (w.producer == Toggling ==> |w.published| > 0)
    && (w.consumer == Advancing ==> w.released > 0)
  }

  /** Output is the published buffers in publication order, up to the one being released. */
  predicate Delivered(w: World)
    requires w.released + (if Holding(w.consumer) then 1 else 0) <= |w.published|
  {
    && w.written == w.published[..if w.consumer == Releasing then w.released + 1 else w.released]
    && (w.consumer.Reading? ==> w.consumer.seen == w.published[w.released])
  }

  predicate Stopping(w: World) {
    && (w.stop <==> w.producer in {StopSignalling, Joining, Gone})
    && (w.consumer in {Rechecking, Exited} ==> w.stop)
    && (w.consumer == Exited ==> Backlog(w) == 0)
    && (w.producer == Gone ==> w.consumer == Exited)
  }

  predicate AboutToSignal(w: World) { w.producer in {Toggling, Signalling, StopSignalling} }

  /** No lost wakeup: a consumer on its way to sleep, or asleep, with work or Stop pending has been
      signalled or is about to be. */
  predicate Awake(w: World) {
    && (w.consumer in {Checking, Waiting} && Backlog(w) > 0 ==> w.wake || AboutToSignal(w))
    && (w.consumer == Waiting && w.stop ==> w.wake || AboutToSignal(w))
  }

  predicate Inv(w: World) {
    && Shape(w) && Indices(w) && w.released <= |w.published| && SlotOk(w, 0) && SlotOk(w, 1)
    && Delivered(w) && Stopping(w) && Awake(w)
  }

  lemma {:induction false} BeginKeeps(w: World)
    requires Inv(w) && Enabled(w, Begin)
    ensures Inv(Next(w, Begin))
  {}

  lemma {:induction false} FillKeeps(w: World, content: int)
    requires Inv(w) && Enabled(w, Fill(content))
    ensures Inv(Next(w, Fill(content)))
  {}

  lemma {:induction false} PublishSlots(w: World)
    requires Inv(w) && Enabled(w, Publish)
    ensures Shape(Next(w, Publish)) && Indices(Next(w, Publish))
    ensures Next(w, Publish).released <= |Next(w, Publish).published|
    ensures SlotOk(Next(w, Publish), 0) && SlotOk(Next(w, Publish), 1)
  {}

  lemma {:induction false} PublishKeeps(w: World)
    requires Inv(w) && Enabled(w, Publish)
    ensures Inv(Next(w, Publish))
  {
    PublishSlots(w);
    hide SlotOk, Indices;
    var w' := Next(w, Publish);
    assert w'.published[..|w.published|] == w.published;
  }

  /** The consumed slot is ready exactly when something published is not yet released. */
  lemma {:induction false} ReadyMeansBacklog(w: World)
    requires Inv(w) && Enabled(w, Take)
    ensures w.consume == w.released % 2 && (w.state[w.consume] == READY <==> Backlog(w) > 0)
    ensures Backlog(w) > 0 ==> w.buffer[w.consume] == w.published[w.released]
  {}

  lemma {:induction false} TakeKeeps(w: World)
    requires Inv(w) && Enabled(w, Take) && Backlog(w) > 0
    ensures Inv(Next(w, Take))
  {
    ReadyMeansBacklog(w);
  }

  lemma {:induction false} MissKeeps(w: World)
    requires Inv(w) && Enabled(w, Take) && Backlog(w) == 0
    ensures Inv(Next(w, Take))
  {
    ReadyMeansBacklog(w);
  }

  lemma {:induction false} WriteKeeps(w: World)
    requires Inv(w) && Enabled(w, Write)
    ensures Inv(Next(w, Write))
    ensures Next(w, Write).written == w.written + [w.consumer.seen]
  {}

  lemma {:induction false} ReleaseKeeps(w: World)
    requires Inv(w) && Enabled(w, Release)
    ensures Inv(Next(w, Release))
  {}

  lemma {:induction false} ProducerSlots(w: World, s: Step)
    requires Inv(w) && Enabled(w, s) && (s.Toggle? || s.Signal? || s.SetStop? || s.Join?)
    ensures var w' := Next(w, s); Shape(w') && Indices(w') && SlotOk(w', 0) && SlotOk(w', 1)
  {}

  lemma {:induction false} ProducerKeeps(w: World, s: Step)
    requires Inv(w) && Enabled(w, s) && (s.Toggle? || s.Signal? || s.SetStop? || s.Join?)
    ensures Inv(Next(w, s))
  {
    ProducerSlots(w, s);
    hide SlotOk, Indices;
  }

  lemma {:induction false} ConsumerSlots(w: World, s: Step)
    requires Inv(w) && Enabled(w, s) && (s.Advance? || s.Check? || s.Wait?)
    ensures var w' := Next(w, s); Shape(w') && Indices(w') && SlotOk(w', 0) && SlotOk(w', 1)
  {}

  lemma {:induction false} ConsumerKeeps(w: World, s: Step)
    requires Inv(w) && Enabled(w, s) && (s.Advance? || s.Check? || s.Wait?)
    ensures Inv(Next(w, s))
  {
    ConsumerSlots(w, s);
    hide SlotOk, Indices;
  }

  lemma {:induction false} EmptyWhenCaughtUp(w: World)
    requires Inv(w) && w.released >= |w.published|
    ensures Backlog(w) == 0
  {}

  /** One step of any interleaving. */
  lemma {:induction false} NextKeeps(w: World, s: Step)
    requires Inv(w) && Enabled(w, s)
    ensures Inv(Next(w, s))
  {
    hide Inv;
    match s
    case Begin => BeginKeeps(w);
    case Fill(content) => FillKeeps(w, content);
    case Publish => PublishKeeps(w);
    case Take => if w.released < |w.published| { TakeKeeps(w); } else { EmptyWhenCaughtUp(w); MissKeeps(w); }
    case Write => WriteKeeps(w);
    case Release => ReleaseKeeps(w);
    case _ => if ByProducer(s) { ProducerKeeps(w, s); } else { ConsumerKeeps(w, s); }
  }

  lemma {:induction false} RunKeeps(w: World, steps: seq<Step>, w': World)
    requires Inv(w) && IsRun(w, steps, w')
    ensures Inv(w')
    decreases |steps|
  {
    hide Inv;
    if steps != [] {
      var n := |steps| - 1;
      var mid: World :| IsRun(w, steps[..n], mid) && Enabled(mid, steps[n]) && w' == Next(mid, steps[n]);
      RunKeeps(w, steps[..n], mid);
      NextKeeps(mid, steps[n]);
    }
  }

  lemma {:induction false} InitHolds()
    ensures Inv(Init())
  {}

  // ---------------------------------------------------------------- what every run gives

  lemma {:induction false} OrderedNow(w: World)
    requires Inv(w)
    ensures w.written <= w.published && |w.published| <= |w.written| + 2
    ensures w.consumer.Reading? ==>
      |w.written| < |w.published| && w.consumer.seen == w.published[|w.written|] == w.buffer[w.consume]
  {}

  lemma {:induction false} SlotsApart(w: World)
    requires Inv(w) && w.consumer.Reading? && w.producer == Filling
    ensures w.produce != w.consume && w.state[w.produce] == CAPTURING && w.state[w.consume] == WRITING
  {}

  /** Over every interleaving: what the thread has written is a prefix of what was published, at most two
      buffers behind it; the buffer being read still holds what it held when it was taken, which is what was
      published; and the producer is filling the other slot. */
  lemma {:induction false} EveryRunIsOrdered(steps: seq<Step>, w: World)
    requires IsRun(Init(), steps, w)
    ensures w.written <= w.published && |w.published| <= |w.written| + 2
    ensures Shape(w) && (w.consumer.Reading? ==>
      |w.written| < |w.published| && w.consumer.seen == w.published[|w.written|] == w.buffer[w.consume])
    ensures w.consumer.Reading? && w.producer == Filling ==> w.produce != w.consume
  {
    InitHolds();
    RunKeeps(Init(), steps, w);
    hide IsRun, Indices, SlotOk, Delivered, Stopping, Awake;
    OrderedNow(w);
    if w.consumer.Reading? && w.producer == Filling { SlotsApart(w); }
  }

  lemma {:induction false} DrainedNow(w: World)
    requires Inv(w) && (w.consumer == Exited || w.producer == Gone)
    ensures w.consumer == Exited && w.written == w.published && w.stop
    ensures w.producer in {StopSignalling, Joining, Gone}
  {}

  /** When the thread has exited, everything ever published is written, Stop was asked for, and nothing
      can be published any more; the memory is freed only then. */
  lemma {:induction false} ExitMeansDrained(steps: seq<Step>, w: World)
    requires IsRun(Init(), steps, w) && (w.consumer == Exited || w.producer == Gone)
    ensures w.consumer == Exited && w.written == w.published && w.stop
    ensures !Enabled(w, Publish) && !Enabled(w, Begin)
  {
    InitHolds();
    RunKeeps(Init(), steps, w);
    hide IsRun, Inv;
    DrainedNow(w);
  }

  lemma {:induction false} AwakeNow(w: World)
    requires Inv(w) && w.consumer == Waiting && (|w.written| < |w.published| || w.stop)
    ensures w.wake || Enabled(w, Signal) || Enabled(w, Toggle)
  {}

  /** A sleeping thread that is needed will be woken: by an event already set, or by a producer that has
      nothing left to do but set it. */
  lemma {:induction false} NoLostWakeup(steps: seq<Step>, w: World)
    requires IsRun(Init(), steps, w) && w.consumer == Waiting && (|w.written| < |w.published| || w.stop)
    ensures w.wake || Enabled(w, Signal) || Enabled(w, Toggle)
  {
    InitHolds();
    RunKeeps(Init(), steps, w);
    hide IsRun, Inv;
    AwakeNow(w);
  }

  // ---------------------------------------------------------------- the stop handshake ends

  /** An upper bound on the thread's remaining steps, once Stop is set and signalled. */
  function Remaining(w: World): int {
    4 * Backlog(w) +
    match w.consumer
    case Taking => 3
    case Reading(_) => 2
    case Releasing => 1
    case Advancing => 4
    case Checking => if Backlog(w) > 0 then 5 else 2
    case Rechecking => if Backlog(w) > 0 then 4 else 1
    case Waiting => 4
    case Exited => 0
  }

  /** The step the thread takes next. */
  function ThreadStep(w: World): Step {
    match w.consumer
    case Reading(_) => Write
    case Releasing => Release
    case Advancing => Advance
    case Checking => Check
    case Waiting => Wait
    case _ => Take
  }

  lemma {:induction false} ThreadRuns(w: World)
    requires Inv(w) && w.producer == Joining && w.consumer != Exited
    ensures Enabled(w, ThreadStep(w)) && Next(w, ThreadStep(w)).producer == Joining
    ensures Next(w, ThreadStep(w)).published == w.published
  {}

  lemma {:induction false} ThreadAdvances(w: World)
    requires Inv(w) && w.producer == Joining && w.consumer != Exited && Enabled(w, ThreadStep(w))
    ensures Remaining(Next(w, ThreadStep(w))) < Remaining(w)
  {
    hide SlotOk;
    if ThreadStep(w) == Take { assert w.state[w.consume] == READY <==> Backlog(w) > 0 by { ReadyMeansBacklog(w); } }
  }

  lemma {:induction false} RemainingIsNat(w: World)
    requires Inv(w)
    ensures 0 <= Remaining(w) <= 13
  {
    hide SlotOk;
  }

  /** Once the producer waits for the thread, nothing else is needed: within thirteen of its own steps the
      thread writes every published buffer, in order, and exits. */
  lemma {:induction false} StopTerminates(w: World) returns (w': World, steps: seq<Step>)
    requires Inv(w) && w.producer == Joining
    ensures IsRun(w, steps, w') && |steps| <= Remaining(w) <= 13
    ensures w'.consumer == Exited && w'.written == w'.published == w.published && Enabled(w', Join)
    decreases Remaining(w)
  {
    hide Inv, Next, IsRun, Remaining;
    RemainingIsNat(w);
    if w.consumer == Exited {
      w', steps := w, [];
      DrainedNow(w);
      EmptyRun(w);
    } else {
      var s := ThreadStep(w);
      ThreadRuns(w);
      ThreadAdvances(w);
      NextKeeps(w, s);
      RemainingIsNat(Next(w, s));
      var rest;
      w', rest := StopTerminates(Next(w, s));
      steps := [s] + rest;
      RunPrepends(w, s, rest, w');
    }
  }

  lemma {:induction false} EmptyRun(w: World)
    ensures IsRun(w, [], w)
    ensures Inv(w) && w.consumer == Exited && w.producer == Joining ==> Enabled(w, Join)
  {}

  lemma {:induction false} RunPrepends(w: World, s: Step, rest: seq<Step>, w': World)
    requires Enabled(w, s) && IsRun(Next(w, s), rest, w')
    ensures IsRun(w, [s] + rest, w')
    decreases |rest|
  {
    if rest == [] {
      assert [s][..0] == [];
      assert [s] + rest == [s];
      assert IsRun(w, [s][..0], w);
    } else {
      var n := |rest| - 1;
      var mid: World :| IsRun(Next(w, s), rest[..n], mid) && Enabled(mid, rest[n]) && w' == Next(mid, rest[n]);
      RunPrepends(w, s, rest[..n], mid);
      RunExtends(w, [s] + rest[..n], mid, rest[n]);
      assert [s] + rest[..n] + [rest[n]] == [s] + rest;
    }
  }
}
