/** The mailbox operations and the writer thread, each atomic operation proved to be one machine step. */
module DiagWorker {
  import opened DiagMachine

  class Diagnostics {
    const env: nat -> seq<Step>        // what the producer does before the thread's n-th operation
    const state: array<nat>
    const buffer: array<int>
    var tick: nat
    var produce: nat
    var consume: nat
    var skipped: nat
    var stop: bool
    var wake: bool
    var producer: ProducerAt           // where the producer stands in its own code
    ghost var consumer: ConsumerAt
    ghost var published: seq<int>
    ghost var written: seq<int>
    ghost var released: nat
    ghost var trace: seq<Step>

    ghost function W(): World
      reads this, state, buffer
    {
      World(state[..], buffer[..], produce, consume, skipped, stop, wake,
            producer, consumer, published, written, released)
    }

    ghost predicate Valid()
      reads this, state, buffer
    {
      state.Length == 2 && buffer.Length == 2 && produce < 2 && consume < 2 && IsRun(Init(), trace, W())
    }

    constructor (env: nat -> seq<Step>)
      ensures Valid() && W() == Init() && fresh(state) && fresh(buffer)
    {
      this.env, tick := env, 0;
      produce, consume, skipped, stop, wake := 0, 0, 0, false, false;
      producer, consumer, published, written, released, trace := Resting, Taking, [], [], 0, [];
      state := new nat[2](_ => FREE);
      buffer := new int[2](_ => 0);
      new;
      assert state[..] == [FREE, FREE] && buffer[..] == [0, 0];
    }

    ghost method Took(before: World, steps: seq<Step>, s: Step)
      requires state.Length == 2 && buffer.Length == 2 && trace == steps && IsRun(Init(), steps, before)
      requires Enabled(before, s) && W() == Next(before, s)
      modifies this`trace
      ensures Valid() && trace == steps + [s]
    {
      NextShape(before, s);
      RunExtends(Init(), steps, before, s);
      trace := steps + [s];
    }

    // -------------------------------------------------------------- the producer's operations

    /** CywDiagBegin, up to the caller filling the buffer. */
    method Begin() returns (captured: bool)
      requires Valid() && producer == Resting
      modifies this, state
      ensures Valid() && W() == Next(old(W()), Step.Begin) && tick == old(tick)
      ensures captured <==> old(state[produce]) == FREE
    {
      hide IsRun;
      ghost var w, t := W(), trace;
      captured := state[produce] == FREE;
      if captured { state[produce], producer := CAPTURING, Filling; } else { skipped := skipped + 1; }
      Took(w, t, Step.Begin);
    }

    method Store(content: int)
      requires Valid() && producer == Filling
      modifies this`trace, buffer
      ensures Valid() && W() == Next(old(W()), Fill(content))
    {
      hide IsRun;
      ghost var w, t := W(), trace;
      buffer[produce] := content;
      Took(w, t, Fill(content));
    }

    /** The first half of CywDiagPublish. */
    method MarkReady()
      requires Valid() && producer == Filling
      modifies this, state
      ensures Valid() && W() == Next(old(W()), Publish) && tick == old(tick)
    {
      hide IsRun;
      ghost var w, t := W(), trace;
      state[produce], producer, published := READY, Toggling, published + [buffer[produce]];
      Took(w, t, Publish);
    }

    /** The second half. */
    method ToggleProduce()
      requires Valid() && producer == Toggling
      modifies this
      ensures Valid() && W() == Next(old(W()), Toggle) && tick == old(tick)
    {
      hide IsRun;
      ghost var w, t := W(), trace;
      produce, producer := 1 - produce, Signalling;
      Took(w, t, Toggle);
    }

    method SetWake()
      requires Valid() && producer in {Signalling, StopSignalling}
      modifies this
      ensures Valid() && W() == Next(old(W()), Signal) && tick == old(tick)
    {
      hide IsRun;
      ghost var w, t := W(), trace;
      wake := true;
      producer := if producer == Signalling then Resting else Joining;
      Took(w, t, Signal);
    }

    method RequestStop()
      requires Valid() && producer == Resting
      modifies this
      ensures Valid() && W() == Next(old(W()), SetStop) && tick == old(tick)
    {
      hide IsRun;
      ghost var w, t := W(), trace;
      stop, producer := true, StopSignalling;
      Took(w, t, SetStop);
    }

    /** The producer's turn: any number of its operations, as far as each is allowed. */
    method Interfere()
      requires Valid()
      modifies this, state, buffer
      ensures Valid() && consumer == old(consumer) && written == old(written) && released == old(released)
      ensures old(published) <= published && (old(wake) ==> wake) && (old(stop) ==> stop)
      ensures old(producer) == Joining ==> producer == Joining && published == old(published)
    {
      hide IsRun;
      var script := env(tick);
      tick := tick + 1;
      ghost var w := W();
      for i := 0 to |script|
        invariant Valid() && consumer == old(consumer) && written == old(written) && released == old(released)
        invariant old(published) <= published && (old(wake) ==> wake) && (old(stop) ==> stop)
        invariant old(producer) == Joining ==> producer == Joining && published == old(published)
      {
        ProducerTurn(script[i]);
      }
    }

    method ProducerTurn(s: Step)
      requires Valid()
      modifies this, state, buffer
      ensures Valid() && (W() == old(W()) || (ByProducer(s) && old(Enabled(W(), s)) && W() == Next(old(W()), s)))
      ensures consumer == old(consumer) && written == old(written) && released == old(released)
      ensures old(published) <= published && (old(wake) ==> wake) && (old(stop) ==> stop)
      ensures old(producer) == Joining ==> producer == Joining && published == old(published)
    {
      hide IsRun;
      match s
      case Begin => if producer == Resting { var _ := Begin(); }
      case Fill(content) => if producer == Filling { Store(content); }
      case Publish => if producer == Filling { MarkReady(); }
      case Toggle => if producer == Toggling { ToggleProduce(); }
      case Signal => if producer in {Signalling, StopSignalling} { SetWake(); }
      case SetStop => if producer == Resting { RequestStop(); }
      case _ =>
    }

    // -------------------------------------------------------------- the thread's operations

    /** CywDiagTake. */
    method TakeSlot() returns (taken: bool)
      requires Valid() && consumer in {Taking, Rechecking}
      modifies this, state
      ensures Valid() && W() == Next(old(W()), Take) && tick == old(tick)
      ensures written == old(written) && published == old(published) && producer == old(producer) && stop == old(stop)
      ensures released == old(released)
      ensures taken <==> released < |published|
      ensures if taken then consumer.Reading? else consumer == if old(consumer) == Taking then Checking else Exited
    {
      hide IsRun, Inv;
      ghost var w, t := W(), trace;
      InitHolds();
      RunKeeps(Init(), t, w);
      ReadyMeansBacklog(w);
      CaughtUp(w);
      taken := state[consume] == READY;
      if taken {
        state[consume], consumer := WRITING, Reading(buffer[consume]);
      } else {
        consumer := if consumer == Taking then Checking else Exited;
      }
      Took(w, t, Take);
    }

    /** The end of the registry write of the taken buffer: it wrote what was taken. */
    ghost method Written()
      requires Valid() && consumer.Reading?
      modifies this`written, this`consumer, this`trace
      ensures Valid() && W() == Next(old(W()), Write) && consumer == Releasing
      ensures written == old(written) + [old(consumer).seen]
      ensures producer == old(producer) && published == old(published) && released == old(released)
    {
      hide IsRun, Inv;
      var w, t := W(), trace;
      InitHolds();
      RunKeeps(Init(), t, w);
      OrderedNow(w);
      written, consumer := written + [buffer[consume]], Releasing;
      Took(w, t, Write);
    }

    /** The first half of CywDiagRelease. */
    method FreeSlot()
      requires Valid() && consumer == Releasing
      modifies this, state
      ensures Valid() && W() == Next(old(W()), Step.Release) && consumer == Advancing
      ensures written == old(written) && published == old(published) && released == old(released) + 1
      ensures producer == old(producer)
    {
      hide IsRun;
      ghost var w, t := W(), trace;
      state[consume], consumer, released := FREE, Advancing, released + 1;
      Took(w, t, Step.Release);
    }

    /** The second half. */
    method ToggleConsume()
      requires Valid() && consumer == Advancing
      modifies this
      ensures Valid() && W() == Next(old(W()), Advance) && consumer == Taking
      ensures written == old(written) && published == old(published) && released == old(released)
      ensures producer == old(producer)
    {
      hide IsRun;
      ghost var w, t := W(), trace;
      consume, consumer := 1 - consume, Taking;
      Took(w, t, Advance);
    }

    /** The registry write of the taken buffer, which takes as long as it takes, and CywDiagRelease. What
        is written is what was taken: the producer cannot touch the slot meanwhile. */
    method WriteAndRelease()
      requires Valid() && consumer.Reading?
      modifies this, state, buffer
      ensures Valid() && consumer == Taking && old(published) <= published
      ensures written == old(written) + [old(consumer).seen] && released == old(released) + 1
      ensures old(producer) == Joining ==> producer == Joining && published == old(published)
    {
      hide IsRun, Inv, DiagMachine.Next, Enabled;
      Interfere();
      Written();
      Interfere();
      FreeSlot();
      Interfere();
      ToggleConsume();
    }

    method ReadStop() returns (stopping: bool)
      requires Valid() && consumer == Checking
      modifies this
      ensures Valid() && W() == Next(old(W()), Check) && stopping == stop && tick == old(tick)
      ensures written == old(written) && published == old(published) && released == old(released)
      ensures producer == old(producer)
      ensures producer == Joining ==> stopping
      ensures consumer == if stopping then Rechecking else Waiting
    {
      hide IsRun, Inv;
      ghost var w, t := W(), trace;
      InitHolds();
      RunKeeps(Init(), t, w);
      JoiningMeansStop(w);
      stopping := stop;
      consumer := if stopping then Rechecking else Waiting;
      Took(w, t, Check);
    }

    /** The wait on the wake event, for at most `turns` turns of the producer. */
    method AwaitWake(turns: nat) returns (left: nat)
      requires Valid() && consumer == Waiting
      modifies this, state, buffer
      ensures Valid() && left <= turns && old(published) <= published && written == old(written)
      ensures consumer == if left > 0 then Taking else Waiting
    {
      hide IsRun;
      left := turns;
      while left > 0 && !wake
        invariant Valid() && consumer == Waiting && left <= turns && old(published) <= published
        invariant written == old(written)
      {
        Interfere();
        left := left - 1;
      }
      if left > 0 {
        ghost var w, t := W(), trace;
        wake, consumer := false, Taking;
        Took(w, t, Wait);
      }
    }

    lemma AtMostTwoBehind()
      requires Valid() && consumer == Taking
      ensures released <= |published| <= released + 2
    {
      hide IsRun;
      InitHolds();
      RunKeeps(Init(), trace, W());
      hide SlotOk;
    }

    /** One pass of the thread's loop. */
    method Pass(turns: nat) returns (left: nat, exited: bool)
      requires Valid() && consumer == Taking
      modifies this, state, buffer
      ensures Valid() && left <= turns && old(written) <= written && old(published) <= published
      ensures if exited then consumer == Exited else left == 0 || consumer == Taking
      ensures old(producer) == Joining ==> left == turns && producer == Joining && published == old(published)
      ensures old(producer) == Joining ==>
        if old(released < |published|) then !exited && released == old(released) + 1 else exited
    {
      hide IsRun, Inv, DiagMachine.Next, Enabled;
      left, exited := turns, false;
      Interfere();
      var taken := TakeSlot();
      if taken {
        WriteAndRelease();
        return;
      }
      Interfere();
      var stopping := ReadStop();
      Interfere();
      if stopping {
        taken := TakeSlot();
        if taken { WriteAndRelease(); } else { exited := true; }
      } else {
        left := AwaitWake(left);
      }
    }

    /** CywDiagnosticsThread, under any producer, for any number of turns: its output is always a prefix of
        what was published, and if it ends, it ends because of Stop and with everything written. */
    method Thread(turns: nat) returns (exited: bool)
      requires Valid() && consumer == Taking
      modifies this, state, buffer
      ensures Valid() && old(written) <= written <= published && |published| <= |written| + 2
      ensures exited ==> consumer == Exited && written == published && stop && old(published) <= published
      ensures old(producer) == Joining && turns >= 3 ==> exited
    {
      hide IsRun, Inv, DiagMachine.Next, Enabled;
      var left := turns;
      exited := false;
      EveryRunIsOrdered(trace, W());
      AtMostTwoBehind();
      while left > 0 && !exited
        invariant Valid() && (if exited then consumer == Exited else left == 0 || consumer == Taking)
        invariant old(written) <= written && old(published) <= published
        invariant old(producer) == Joining ==> producer == Joining && published == old(published)
        invariant old(producer) == Joining && !exited ==>
          released - old(released) == turns - left && released <= |published|
        decreases left
      {
        left, exited := Pass(left - 1);
      }
      EveryRunIsOrdered(trace, W());
      if exited { ExitMeansDrained(trace, W()); }
    }
  }

  lemma {:induction false} NextShape(w: World, s: Step)
    requires Enabled(w, s)
    ensures Shape(Next(w, s))
  {}

  lemma {:induction false} CaughtUp(w: World)
    requires Inv(w)
    ensures w.released <= |w.published|
  {}

  lemma {:induction false} JoiningMeansStop(w: World)
    requires Inv(w)
    ensures w.producer == Joining ==> w.stop
  {}
}
