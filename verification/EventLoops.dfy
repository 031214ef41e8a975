/** net/event_loop as a protocol: one loop thread and any number of other threads share
    the functor queue, the quit flag and the eventfd counter.

    A step is one access to what the threads share, together with the private work up to
    the next one.  A run is any sequence of steps; those that cannot happen where they
    stand are skipped, so every interleaving is a run.
 */
module EventLoops {

  type ThreadId = nat

  /** The largest value of an eventfd counter; a write to it then fails with EAGAIN. */
  const COUNTER_MAX: nat := 0xffff_ffff_ffff_fffe

  /** Where the loop thread stands in event_loop::loop. */
  datatype Pc =
    | Starting     // before quit_ is reset
    | Checking     // at the test of quit_
    | Polling      // in poll_wait
    | Dispatching  // running the handlers of active channels
    | Running      // in do_pending_functions, after the swap
    | Exited

  datatype Loop<F> = Loop(
    pc: Pc,
    quit: bool,
    pending: seq<F>,           // pending_functors_
    batch: seq<F>,             // the functors swapped out and not yet started
    counter: nat,              // of wakeup_fd_
    readable: bool,            // wakeup_channel_ is active and not yet handled
    inFlight: set<ThreadId>,   // other threads between their update and their wakeup
    selfInFlight: bool,        // the loop thread between its push and its wakeup
    primed: bool,              // the loop thread queued before loop(), not yet swapped out
    enqueued: seq<F>,          // history: every functor pushed
    executed: seq<F>)          // history: every functor started

  /** A loop that has been constructed and whose loop() has not been called. */
  function Init<F>(): Loop<F> {
    Loop(Starting, false, [], [], 0, false, {}, false, false, [], [])
  }

  /** calling_pending_functors_ */
  predicate Calling<F>(s: Loop<F>) {
    s.pc == Running
  }

  datatype Step<F> =
    // the loop thread
    | Begin                        // quit_ = false
    | Check                        // while (!quit_)
    | PollReturn(woken: bool)      // poll_wait, with or without an event of wakeup_channel_
    | Drain                        // handle_read
    | Swap                         // do_pending_functions takes the queue
    | RunNext                      // and starts its next functor
    | EndBatch
    | SelfQueue(f: F)              // queue_in_loop from a handler, a functor, or before loop()
    | SelfWake                     // and the wakeup it then owes
    | SelfQuit
    // another thread
    | Post(t: ThreadId, f: F)      // queue_in_loop up to the end of the critical section
    | PostQuit(t: ThreadId)        // quit_ = true
    | Wake(t: ThreadId)            // the wakeup that follows either

  predicate Enabled<F>(s: Loop<F>, step: Step<F>) {
    match step
    case Begin => s.pc == Starting
    case Check => s.pc == Checking
    case PollReturn(woken) => s.pc == Polling && (woken ==> s.counter > 0)
    case Drain => s.pc == Dispatching && s.readable
    case Swap => s.pc == Dispatching
    case RunNext => s.pc == Running && !s.selfInFlight && s.batch != []
    case EndBatch => s.pc == Running && !s.selfInFlight && s.batch == []
    case SelfQueue(_) => (s.pc == Starting || s.pc == Dispatching || s.pc == Running) && !s.selfInFlight
    case SelfWake => s.selfInFlight
    case SelfQuit => (s.pc == Starting || s.pc == Dispatching || s.pc == Running) && !s.selfInFlight
    case Post(t, _) => t !in s.inFlight
    case PostQuit(t) => t !in s.inFlight
    case Wake(t) => t in s.inFlight
  }

  /** A write of 1 to the eventfd. */
  function Written(counter: nat): nat {
    if counter < COUNTER_MAX then counter + 1 else counter
  }

  function Push<F>(s: Loop<F>, f: F): Loop<F> {
    s.(pending := s.pending + [f], enqueued := s.enqueued + [f])
  }

  function Effect<F>(s: Loop<F>, step: Step<F>): Loop<F>
    requires Enabled(s, step)
  {
    match step
    case Begin => s.(pc := Checking, quit := false)
    case Check => s.(pc := if s.quit then Exited else Polling)
    case PollReturn(woken) => s.(pc := Dispatching, readable := woken)
    case Drain => s.(counter := 0, readable := false)
    case Swap => s.(pc := Running, batch := s.pending, pending := [], readable := false, primed := false)
    case RunNext => s.(executed := s.executed + [s.batch[0]], batch := s.batch[1..])
    case EndBatch => s.(pc := Checking)
    case SelfQueue(f) =>
      Push(s, f).(selfInFlight := Calling(s), primed := s.primed || s.pc == Starting)
    case SelfWake => s.(counter := Written(s.counter), selfInFlight := false)
    case SelfQuit => s.(quit := true)
    case Post(t, f) => Push(s, f).(inFlight := s.inFlight + {t})
    case PostQuit(t) => s.(quit := true, inFlight := s.inFlight + {t})
    case Wake(t) => s.(counter := Written(s.counter), inFlight := s.inFlight - {t})
  }

  function Next<F>(s: Loop<F>, step: Step<F>): Loop<F> {
    if Enabled(s, step) then Effect(s, step) else s
  }

  function Run<F>(s: Loop<F>, steps: seq<Step<F>>): Loop<F>
    decreases |steps|
  {
    if steps == [] then s else Next(Run(s, steps[..|steps| - 1]), steps[|steps| - 1])
  }

  // ---- exactly once, in order ----

  predicate Fifo<F(==)>(s: Loop<F>) {
    s.executed + s.batch + s.pending == s.enqueued && (s.batch != [] ==> s.pc == Running)
  }

  lemma StepFifo<F>(s: Loop<F>, step: Step<F>)
    requires Fifo(s)
    ensures Fifo(Next(s, step))
  {
    if Enabled(s, step) {
      match step
      case Swap => assert s.batch == [];
      case RunNext => assert s.batch == [s.batch[0]] + s.batch[1..];
      case SelfQueue(f) => assert s.executed + s.batch + (s.pending + [f]) == s.executed + s.batch + s.pending + [f];
      case Post(_, f) => assert s.executed + s.batch + (s.pending + [f]) == s.executed + s.batch + s.pending + [f];
      case _ =>
    }
  }

  /** At every point of every run, the functors executed, then the rest of the current
      batch, then the queue, are the functors enqueued: each runs at most once, none is
      lost, and all run in the order of their critical sections. */
  lemma {:induction false} ExactlyOnceFifo<F>(steps: seq<Step<F>>)
    ensures Fifo(Run(Init(), steps))
    decreases |steps|
  {
    if steps == [] {
    } else {
      ExactlyOnceFifo(steps[..|steps| - 1]);
      StepFifo(Run(Init(), steps[..|steps| - 1]), steps[|steps| - 1]);
    }
  }

  lemma BatchStep<F>(s: Loop<F>, step: Step<F>)
    requires s.pc == Running && Next(s, step).pc == Running
    ensures Next(s, step).executed + Next(s, step).batch == s.executed + s.batch
  {
    if step.RunNext? && Enabled(s, step) {
      assert s.executed + [s.batch[0]] + s.batch[1..] == s.executed + s.batch;
    }
  }

  /** The functors of the queue_in_loop calls that a run contains, from whichever thread. */
  function Pushed<F>(steps: seq<Step<F>>): seq<F> {
    if steps == [] then []
    else
      var n := |steps| - 1;
      var last := steps[n];
      Pushed(steps[..n])
      + if (last.Post? || last.SelfQueue?) && Enabled(Run(Init(), steps[..n]), last) then [last.f] else []
  }

  /** `enqueued` is that history: no call loses its functor, and nothing else adds one. */
  lemma {:induction false} EveryPushCounts<F>(steps: seq<Step<F>>)
    ensures Run(Init(), steps).enqueued == Pushed(steps)
    decreases |steps|
  {
    if steps == [] {
    } else {
      EveryPushCounts(steps[..|steps| - 1]);
      OnePush(Run(Init(), steps[..|steps| - 1]), steps[|steps| - 1]);
    }
  }

  lemma OnePush<F>(s: Loop<F>, step: Step<F>)
    ensures Next(s, step).enqueued
            == s.enqueued + if (step.Post? || step.SelfQueue?) && Enabled(s, step) then [step.f] else []
  {
  }

  /** From the swap to the end of the batch, whatever the functors and the other threads
      enqueue, exactly the functors queued before the swap are run. */
  lemma {:induction false} BatchIsFixed<F>(s: Loop<F>, steps: seq<Step<F>>)
    requires s.pc == Running
    requires forall i | 0 <= i <= |steps| :: Run(s, steps[..i]).pc == Running
    ensures Run(s, steps).executed + Run(s, steps).batch == s.executed + s.batch
    decreases |steps|
  {
    if steps == [] {
    } else {
      var before := steps[..|steps| - 1];
      forall i | 0 <= i <= |before|
        ensures Run(s, before[..i]).pc == Running
      {
        assert before[..i] == steps[..i];
      }
      BatchIsFixed(s, before);
      var s1 := Run(s, before);
      assert steps[..|steps|] == steps;
      BatchStep(s1, steps[|steps| - 1]);
    }
  }

  // ---- no lost wakeup ----

  /** A wakeup is stored in the counter or about to be written. */
  predicate Awake<F>(s: Loop<F>) {
    s.counter > 0 || s.inFlight != {} || s.selfInFlight
  }

  ghost predicate WakeInv<F>(s: Loop<F>) {
    && (s.pending != [] && s.pc != Dispatching ==> Awake(s) || s.primed)
    && (s.quit && s.pc == Polling ==> Awake(s))
    && (s.selfInFlight ==> s.pc == Running)
    && (s.primed ==> s.pc != Running)
  }

  lemma StepWakeInv<F>(s: Loop<F>, step: Step<F>)
    requires WakeInv(s)
    ensures WakeInv(Next(s, step))
  {
    if Enabled(s, step) && (step.Post? || step.PostQuit?) {
      assert step.t in Next(s, step).inFlight;
    }
  }

  lemma {:induction false} RunWakeInv<F>(steps: seq<Step<F>>)
    ensures WakeInv(Run(Init<F>(), steps))
    decreases |steps|
  {
    if steps == [] {
    } else {
      RunWakeInv(steps[..|steps| - 1]);
      StepWakeInv(Run(Init(), steps[..|steps| - 1]), steps[|steps| - 1]);
    }
  }

  /** Some step of the run has its effect, and is one that `p` picks out. */
  ghost predicate Ever<F(!new)>(steps: seq<Step<F>>, p: (Loop<F>, Step<F>) -> bool) {
    exists i | 0 <= i < |steps| :: Happens(steps, i, p)
  }

  ghost predicate Happens<F(!new)>(steps: seq<Step<F>>, i: nat, p: (Loop<F>, Step<F>) -> bool)
    requires i < |steps|
  {
    var s := Run(Init(), steps[..i]);
    Enabled(s, steps[i]) && p(s, steps[i])
  }

  lemma EverSnoc<F(!new)>(steps: seq<Step<F>>, step: Step<F>, p: (Loop<F>, Step<F>) -> bool)
    ensures var s := Run(Init(), steps);
            Ever(steps + [step], p) <==> Ever(steps, p) || (Enabled(s, step) && p(s, step))
  {
    var all := steps + [step];
    forall i | 0 <= i < |steps|
      ensures Happens(all, i, p) <==> Happens(steps, i, p)
    {
      assert all[..i] == steps[..i];
    }
    assert all[..|steps|] == steps;
    assert Happens(all, |steps|, p) <==> Enabled(Run(Init(), steps), step) && p(Run(Init(), steps), step);
  }

  /** The loop thread calls queue_in_loop before it calls loop(). */
  predicate QueuesBeforeLoop<F>(s: Loop<F>, step: Step<F>) {
    step.SelfQueue? && s.pc == Starting
  }

  predicate TakesQueue<F>(s: Loop<F>, step: Step<F>) {
    step.Swap?
  }

  /** Another thread pushes a functor or sets quit_. */
  predicate OtherUpdates<F>(s: Loop<F>, step: Step<F>) {
    step.Post? || step.PostQuit?
  }

  /** `primed` is exactly this part of the history. */
  lemma {:induction false} PrimedExactly<F(!new)>(steps: seq<Step<F>>)
    ensures var s := Run(Init(), steps);
            && (s.primed <==> Ever(steps, QueuesBeforeLoop) && !Ever(steps, TakesQueue))
            && (s.pc == Starting ==> !Ever(steps, TakesQueue))
    decreases |steps|
  {
    if steps == [] {
    } else {
      var before, last := steps[..|steps| - 1], steps[|steps| - 1];
      PrimedExactly(before);
      assert steps == before + [last];
      EverSnoc(before, last, QueuesBeforeLoop);
      EverSnoc(before, last, TakesQueue);
      PrimedStep(Run(Init(), before), last);
    }
  }

  lemma PrimedStep<F>(s: Loop<F>, step: Step<F>)
    ensures var s', done := Next(s, step), Enabled(s, step);
            && (s'.primed <==> !(done && TakesQueue(s, step)) && (s.primed || (done && QueuesBeforeLoop(s, step))))
            && (s'.pc == Starting ==> s.pc == Starting)
            && (done && TakesQueue(s, step) ==> s'.pc != Starting)
            && (done && QueuesBeforeLoop(s, step) ==> s.pc == Starting)
  {
  }

  /** Once loop() has taken its queue for the first time the exception is over for good. */
  lemma {:induction false} NeverPrimedAgain<F>(s: Loop<F>, steps: seq<Step<F>>)
    requires !s.primed && s.pc != Starting
    ensures !Run(s, steps).primed && Run(s, steps).pc != Starting
    decreases |steps|
  {
    if steps == [] {
    } else {
      NeverPrimedAgain(s, steps[..|steps| - 1]);
      PrimedStep(Run(s, steps[..|steps| - 1]), steps[|steps| - 1]);
    }
  }

  /** The eventfd is readable, or another thread is on its way to write it. */
  predicate Woken<F>(s: Loop<F>) {
    s.counter > 0 || s.inFlight != {}
  }

  /** Up to its first poll the loop is woken exactly if another thread has acted. */
  lemma {:induction false} FirstWakeup<F(!new)>(steps: seq<Step<F>>)
    requires !Ever(steps, TakesQueue)
    ensures var s := Run(Init(), steps);
            && s.pc != Running && !s.selfInFlight
            && (s.pc != Dispatching ==> (Woken(s) <==> Ever(steps, OtherUpdates)))
    decreases |steps|
  {
    if steps == [] {
    } else {
      var before, last := steps[..|steps| - 1], steps[|steps| - 1];
      assert steps == before + [last];
      EverSnoc(before, last, TakesQueue);
      EverSnoc(before, last, OtherUpdates);
      FirstWakeup(before);
      FirstWakeupStep(Run(Init(), before), last);
    }
  }

  lemma FirstWakeupStep<F>(s: Loop<F>, step: Step<F>)
    requires s.pc != Running && !s.selfInFlight && !(step.Swap? && Enabled(s, step))
    ensures var s' := Next(s, step);
            && s'.pc != Running && !s'.selfInFlight
            && (s'.pc != Dispatching ==>
                  (Woken(s') <==> Woken(s) || (Enabled(s, step) && OtherUpdates(s, step))))
            && (s'.pc != Dispatching ==> s.pc != Dispatching)
  {
    if Enabled(s, step) && OtherUpdates(s, step) {
      assert step.t in Next(s, step).inFlight;
    }
  }

  /** Whenever the loop thread is in poll_wait while quit is set, the eventfd is readable or
      another thread is on its way to write it, saturated counter or not.  While functors are
      queued it is so exactly unless the queue still has what the loop thread put there
      before it called loop(), and no other thread has acted since. */
  lemma NoLostWakeup<F(!new)>(steps: seq<Step<F>>)
    ensures var s := Run(Init(), steps);
            && (s.pc == Polling && s.quit ==> Woken(s))
            && (s.pc == Polling && s.pending != [] ==>
                  (Woken(s) <==> !Ever(steps, QueuesBeforeLoop) || Ever(steps, TakesQueue)
                                 || Ever(steps, OtherUpdates)))
  {
    RunWakeInv(steps);
    PrimedExactly(steps);
    if !Ever(steps, TakesQueue) {
      FirstWakeup(steps);
    }
  }

  /** The wakeup on its way arrives: it leaves the counter positive, so poll_wait may
      return with the wakeup channel. */
  lemma WakeArrives<F>(s: Loop<F>, t: ThreadId)
    requires s.pc == Polling && t in s.inFlight
    ensures Enabled(Next(s, Wake(t)), PollReturn(true))
  {
  }

  function SelfQueues<F>(fs: seq<F>): seq<Step<F>> {
    if fs == [] then [] else SelfQueues(fs[..|fs| - 1]) + [SelfQueue(fs[|fs| - 1])]
  }

  lemma RunSnoc<F>(s: Loop<F>, steps: seq<Step<F>>, step: Step<F>)
    ensures Run(s, steps + [step]) == Next(Run(s, steps), step)
  {
    assert (steps + [step])[..|steps|] == steps;
  }

  lemma {:induction false} SelfQueuesRun<F>(fs: seq<F>)
    ensures Run(Init(), SelfQueues(fs)) == Init().(pending := fs, enqueued := fs, primed := fs != [])
    decreases |fs|
  {
    if fs == [] {
    } else {
      var n := |fs| - 1;
      SelfQueuesRun(fs[..n]);
      RunSnoc(Init(), SelfQueues(fs[..n]), SelfQueue(fs[n]));
      assert fs == fs[..n] + [fs[n]];
    }
  }

  /** The exception is real: functors that the loop thread queues before loop() are still
      queued, with no wakeup stored or under way, when it first enters poll_wait; so the
      first poll is covered exactly when there are none. */
  lemma QueuedBeforeLoopWaits<F>(fs: seq<F>)
    ensures var s := Run(Init(), SelfQueues(fs) + [Begin] + [Check]);
            && s.pc == Polling && s.pending == fs
            && ((s.pending != [] ==> Awake(s)) <==> fs == [])
  {
    SelfQueuesRun(fs);
    RunSnoc(Init(), SelfQueues(fs), Begin);
    RunSnoc(Init(), SelfQueues(fs) + [Begin], Check);
  }

  // ---- quit ----

  lemma QuitStep<F>(s: Loop<F>, step: Step<F>)
    requires s.quit && s.pc != Starting
    ensures Next(s, step).quit && Next(s, step).pc != Starting
    ensures s.pc != Polling ==> Next(s, step).pc != Polling
  {
  }

  lemma {:induction false} QuitStays<F>(s: Loop<F>, steps: seq<Step<F>>)
    requires s.quit && s.pc != Starting
    ensures Run(s, steps).quit && Run(s, steps).pc != Starting
    ensures s.pc != Polling ==> Run(s, steps).pc != Polling
    decreases |steps|
  {
    if steps == [] {
    } else {
      QuitStays(s, steps[..|steps| - 1]);
      QuitStep(Run(s, steps[..|steps| - 1]), steps[|steps| - 1]);
    }
  }

  /** With quit set, a poll_wait that the loop thread is in has been entered already. */
  lemma {:induction false} QuitPollsOnce<F>(s: Loop<F>, steps: seq<Step<F>>, i: nat)
    requires s.quit && s.pc != Starting && i <= |steps| && Run(s, steps).pc == Polling
    ensures Run(s, steps[..i]).pc == Polling
    decreases |steps|
  {
    assert steps[..|steps|] == steps;
    if i < |steps| {
      var before := steps[..|steps| - 1];
      QuitStays(s, before);
      QuitPollsOnce(s, before, i);
      assert before[..i] == steps[..i];
    }
  }

  ghost predicate EntersPoll<F>(s: Loop<F>, steps: seq<Step<F>>, i: nat)
    requires i < |steps|
  {
    Run(s, steps[..i]).pc != Polling && Run(s, steps[..i + 1]).pc == Polling
  }

  /** In no run from here does the loop thread enter poll_wait. */
  ghost predicate NeverPolls<F(!new)>(s: Loop<F>) {
    forall steps: seq<Step<F>>, i | 0 <= i < |steps| :: !EntersPoll(s, steps, i)
  }

  lemma QuitNeverPolls<F(!new)>(s: Loop<F>)
    requires s.quit && s.pc != Starting
    ensures NeverPolls(s)
  {
    forall steps: seq<Step<F>>, i | 0 <= i < |steps|
      ensures !EntersPoll(s, steps, i)
    {
      if Run(s, steps[..i + 1]).pc == Polling {
        QuitPollsOnce(s, steps[..i + 1], i);
        assert steps[..i + 1][..i] == steps[..i];
      }
    }
  }

  lemma QuitBeforeLoopPolls<F(!new)>(s: Loop<F>)
    requires s.pc == Starting
    ensures !NeverPolls(s)
  {
    var none: seq<Step<F>> := [];
    var steps: seq<Step<F>> := [Begin, Check];
    assert steps[..1] == none + [Begin] && steps[..2] == none + [Begin] + [Check];
    RunSnoc(s, none, Begin);
    RunSnoc(s, none + [Begin], Check);
    assert EntersPoll(s, steps, 1);
  }

  /** A quit, from whichever thread and wherever the loop thread stands, keeps it from ever
      entering poll_wait again exactly when it comes after loop() has reset the flag; an
      earlier one is forgotten. */
  lemma QuitHonoured<F(!new)>(s: Loop<F>, step: Step<F>)
    requires (step.SelfQuit? || step.PostQuit?) && Enabled(s, step)
    ensures NeverPolls(Next(s, step)) <==> s.pc != Starting
  {
    if s.pc == Starting {
      QuitBeforeLoopPolls(Next(s, step));
    } else {
      QuitNeverPolls(Next(s, step));
    }
  }

  /** An honoured quit ends the loop: one that arrives in poll_wait comes with the wakeup
      that lets it return, and the next test of quit_ leaves the loop. */
  lemma QuitEnds<F>(s: Loop<F>, step: Step<F>, steps: seq<Step<F>>)
    requires (step.SelfQuit? || step.PostQuit?) && Enabled(s, step) && s.pc != Starting
    ensures s.pc == Polling ==> Woken(Next(s, step))
    ensures var s' := Run(Next(s, step), steps); s'.pc == Checking ==> Next(s', Check).pc == Exited
  {
    QuitStays(Next(s, step), steps);
    if s.pc == Polling {
      assert step.t in Next(s, step).inFlight;
    }
  }

  // ---- the loop thread's code ----

  /** What a handler or a functor does to its own loop. */
  datatype Deed<F> = QueueFunctor(f: F) | RequestQuit

  /** What one poll_wait reports: whether wakeup_fd_ is asked about, and what the handlers
      of the active channels listed before and after it do. */
  datatype Round<F> = Round(before: seq<seq<Deed<F>>>, woken: bool, after: seq<seq<Deed<F>>>)

  // The loop thread's own steps, in the order of its code.

  function DeedSteps<F>(deed: Deed<F>, calling: bool): seq<Step<F>> {
    match deed
    case QueueFunctor(f) => if calling then [SelfQueue(f), SelfWake] else [SelfQueue(f)]
    case RequestQuit => [SelfQuit]
  }

  function BodySteps<F>(deeds: seq<Deed<F>>, calling: bool): seq<Step<F>> {
    if deeds == [] then []
    else BodySteps(deeds[..|deeds| - 1], calling) + DeedSteps(deeds[|deeds| - 1], calling)
  }

  function HandlerSteps<F>(handlers: seq<seq<Deed<F>>>): seq<Step<F>> {
    if handlers == [] then []
    else HandlerSteps(handlers[..|handlers| - 1]) + BodySteps(handlers[|handlers| - 1], false)
  }

  function DispatchSteps<F>(round: Round<F>, active: bool): seq<Step<F>> {
    HandlerSteps(round.before) + (if active then [Drain] else []) + HandlerSteps(round.after)
  }

  function BatchSteps<F>(taken: seq<F>, does: F -> seq<Deed<F>>): seq<Step<F>> {
    if taken == [] then []
    else BatchSteps(taken[..|taken| - 1], does) + ([RunNext] + BodySteps(does(taken[|taken| - 1]), true))
  }

  function PendingSteps<F>(taken: seq<F>, does: F -> seq<Deed<F>>): seq<Step<F>> {
    [Swap] + BatchSteps(taken, does) + [EndBatch]
  }

  /** One turn of the loop has entered poll_wait at the point `at` of the history, has or has
      not seen wakeup_channel_ active, and has run the functors `taken`. */
  datatype Done<F> = Done(at: nat, active: bool, taken: seq<F>)

  /** A turn, after its test of quit_. */
  function TurnSteps<F>(round: Round<F>, done: Done<F>, does: F -> seq<Deed<F>>): seq<Step<F>> {
    [PollReturn(done.active)] + DispatchSteps(round, done.active) + PendingSteps(done.taken, does)
  }

  function LoopSteps<F>(script: seq<Round<F>>, turns: seq<Done<F>>, does: F -> seq<Deed<F>>): seq<Step<F>>
    requires |turns| <= |script|
    decreases |turns|
  {
    if turns == [] then [Begin]
    else
      var n := |turns| - 1;
      LoopSteps(script, turns[..n], does) + ([Check] + TurnSteps(script[n], turns[n], does))
  }

  predicate IsForeign<F>(step: Step<F>) {
    step.Post? || step.PostQuit? || step.Wake?
  }

  /** Steps of the other threads only. */
  predicate Foreign<F>(steps: seq<Step<F>>) {
    forall i | 0 <= i < |steps| :: IsForeign(steps[i])
  }

  // What the application has asked of the loop, read off the history.

  /** The calls of queue_in_loop and quit among the loop thread's steps. */
  function DeedsOf<F>(steps: seq<Step<F>>): seq<Deed<F>> {
    if steps == [] then []
    else
      var last := steps[|steps| - 1];
      DeedsOf(steps[..|steps| - 1])
      + if last.SelfQueue? then [QueueFunctor(last.f)] else if last.SelfQuit? then [RequestQuit] else []
  }

  function Flat<T>(parts: seq<seq<T>>): seq<T> {
    if parts == [] then [] else Flat(parts[..|parts| - 1]) + parts[|parts| - 1]
  }

  function BatchDeeds<F>(taken: seq<F>, does: F -> seq<Deed<F>>): seq<Deed<F>> {
    if taken == [] then [] else BatchDeeds(taken[..|taken| - 1], does) + does(taken[|taken| - 1])
  }

  /** Everything that the handlers and functors of the turns do. */
  function LoopDeeds<F>(script: seq<Round<F>>, turns: seq<Done<F>>, does: F -> seq<Deed<F>>): seq<Deed<F>>
    requires |turns| <= |script|
    decreases |turns|
  {
    if turns == [] then []
    else
      var n := |turns| - 1;
      LoopDeeds(script, turns[..n], does)
      + (Flat(script[n].before) + Flat(script[n].after) + BatchDeeds(turns[n].taken, does))
  }

  lemma {:induction false} DeedsConcat<F>(xs: seq<Step<F>>, ys: seq<Step<F>>)
    ensures DeedsOf(xs + ys) == DeedsOf(xs) + DeedsOf(ys)
    decreases |ys|
  {
    if ys == [] {
      assert xs + ys == xs;
    } else {
      var n := |ys| - 1;
      DeedsConcat(xs, ys[..n]);
      assert (xs + ys)[..|xs + ys| - 1] == xs + ys[..n];
    }
  }

  lemma {:induction false} ForeignDoNothing<F>(steps: seq<Step<F>>)
    requires Foreign(steps)
    ensures DeedsOf(steps) == []
    decreases |steps|
  {
    if steps == [] {
    } else {
      ForeignDoNothing(steps[..|steps| - 1]);
    }
  }

  lemma {:induction false} DeedsInterleaved<F>(start: seq<Step<F>>, own: seq<Step<F>>, env: Env<F>)
    requires AllForeign(env)
    ensures DeedsOf(Interleaved(start, own, env)) == DeedsOf(start) + DeedsOf(own)
    decreases |own|
  {
    if own == [] {
    } else {
      var n := |own| - 1;
      DeedsInterleaved(start, own[..n], env);
      DeedsOneMore(start, own[..n], own[n], env);
      assert own == own[..n] + [own[n]];
    }
  }

  lemma DeedsOneMore<F>(start: seq<Step<F>>, own: seq<Step<F>>, step: Step<F>, env: Env<F>)
    requires AllForeign(env) && DeedsOf(Interleaved(start, own, env)) == DeedsOf(start) + DeedsOf(own)
    ensures DeedsOf(Interleaved(start, own + [step], env)) == DeedsOf(start) + DeedsOf(own + [step])
  {
    var before := Interleaved(start, own, env);
    InterleavedSnoc(start, own, step, env);
    DeedsWith(before, env);
    OneDeed(With(before, env), step);
    OneDeed(own, step);
  }

  lemma DeedsWith<F>(trace: seq<Step<F>>, env: Env<F>)
    requires AllForeign(env)
    ensures DeedsOf(With(trace, env)) == DeedsOf(trace)
  {
    var others := env(|trace|);
    assert Foreign(others);
    ForeignDoNothing(others);
    DeedsConcat(trace, others);
  }

  lemma OneDeed<F>(steps: seq<Step<F>>, step: Step<F>)
    ensures DeedsOf(steps + [step]) == DeedsOf(steps)
              + if step.SelfQueue? then [QueueFunctor(step.f)] else if step.SelfQuit? then [RequestQuit] else []
  {
    assert (steps + [step])[..|steps|] == steps;
  }

  /** A handler or functor does its deeds, in order, whether functors are being run or not. */
  lemma {:induction false} BodyDoes<F>(deeds: seq<Deed<F>>, calling: bool)
    ensures DeedsOf(BodySteps(deeds, calling)) == deeds
    decreases |deeds|
  {
    if deeds == [] {
    } else {
      var n := |deeds| - 1;
      BodyDoes(deeds[..n], calling);
      NextDeedDoes(BodySteps(deeds[..n], calling), deeds[n], calling);
      assert deeds == deeds[..n] + [deeds[n]];
    }
  }

  lemma NextDeedDoes<F>(own: seq<Step<F>>, deed: Deed<F>, calling: bool)
    ensures DeedsOf(own + DeedSteps(deed, calling)) == DeedsOf(own) + [deed]
  {
    DeedsConcat(own, DeedSteps(deed, calling));
    DeedDoes(deed, calling);
  }

  lemma DeedDoes<F>(deed: Deed<F>, calling: bool)
    ensures DeedsOf(DeedSteps(deed, calling)) == [deed]
  {
    var none: seq<Step<F>> := [];
    match deed
    case QueueFunctor(f) =>
      OneDeed(none, SelfQueue(f));
      OneDeed([SelfQueue(f)], SelfWake);
      assert none + [SelfQueue(f)] == [SelfQueue(f)] && [SelfQueue(f)] + [SelfWake] == [SelfQueue(f), SelfWake];
    case RequestQuit =>
      OneDeed(none, SelfQuit);
      assert none + [SelfQuit] == [SelfQuit];
  }

  lemma {:induction false} HandlersDo<F>(handlers: seq<seq<Deed<F>>>)
    ensures DeedsOf(HandlerSteps(handlers)) == Flat(handlers)
    decreases |handlers|
  {
    if handlers == [] {
    } else {
      var n := |handlers| - 1;
      HandlersDo(handlers[..n]);
      DeedsConcat(HandlerSteps(handlers[..n]), BodySteps(handlers[n], false));
      BodyDoes(handlers[n], false);
    }
  }

  lemma DispatchDoes<F>(round: Round<F>, active: bool)
    ensures DeedsOf(DispatchSteps(round, active)) == Flat(round.before) + Flat(round.after)
  {
    var first, last := HandlerSteps(round.before), HandlerSteps(round.after);
    HandlersDo(round.before);
    HandlersDo(round.after);
    if active {
      NoDeed<F>(Drain);
      DeedsAround(first, [Drain], last);
    } else {
      DeedsAround(first, [], last);
    }
  }

  /** Steps that ask for nothing, between others. */
  lemma DeedsAround<F>(xs: seq<Step<F>>, none: seq<Step<F>>, ys: seq<Step<F>>)
    requires DeedsOf(none) == []
    ensures DeedsOf(xs + none + ys) == DeedsOf(xs) + DeedsOf(ys)
  {
    DeedsConcat(xs, none);
    DeedsConcat(xs + none, ys);
  }

  lemma NoDeed<F>(step: Step<F>)
    requires !step.SelfQueue? && !step.SelfQuit?
    ensures DeedsOf([step]) == []
  {
  }

  lemma {:induction false} BatchDoes<F>(taken: seq<F>, does: F -> seq<Deed<F>>)
    ensures DeedsOf(BatchSteps(taken, does)) == BatchDeeds(taken, does)
    decreases |taken|
  {
    if taken == [] {
    } else {
      var n := |taken| - 1;
      BatchDoes(taken[..n], does);
      DeedsConcat(BatchSteps(taken[..n], does), [RunNext] + BodySteps(does(taken[n]), true));
      FunctorDoes(does(taken[n]));
    }
  }

  lemma FunctorDoes<F>(deeds: seq<Deed<F>>)
    ensures DeedsOf([RunNext] + BodySteps(deeds, true)) == deeds
  {
    DeedsConcat([RunNext], BodySteps(deeds, true));
    BodyDoes(deeds, true);
    NoDeed<F>(RunNext);
  }

  lemma PendingDoes<F>(taken: seq<F>, does: F -> seq<Deed<F>>)
    ensures DeedsOf(PendingSteps(taken, does)) == BatchDeeds(taken, does)
  {
    DeedsConcat([Swap], BatchSteps(taken, does));
    DeedsConcat([Swap] + BatchSteps(taken, does), [EndBatch]);
    NoDeed<F>(Swap);
    NoDeed<F>(EndBatch);
    BatchDoes(taken, does);
  }

  lemma TurnDoes<F>(round: Round<F>, done: Done<F>, does: F -> seq<Deed<F>>)
    ensures DeedsOf(TurnSteps(round, done, does))
            == Flat(round.before) + Flat(round.after) + BatchDeeds(done.taken, does)
  {
    NoDeed<F>(PollReturn(done.active));
    DispatchDoes(round, done.active);
    PendingDoes(done.taken, does);
    DeedsThree([PollReturn(done.active)], DispatchSteps(round, done.active), PendingSteps(done.taken, does),
               Flat(round.before) + Flat(round.after), BatchDeeds(done.taken, does));
  }

  lemma DeedsThree<F>(none: seq<Step<F>>, xs: seq<Step<F>>, ys: seq<Step<F>>, a: seq<Deed<F>>, b: seq<Deed<F>>)
    requires DeedsOf(none) == [] && DeedsOf(xs) == a && DeedsOf(ys) == b
    ensures DeedsOf(none + xs + ys) == a + b
  {
    DeedsConcat(none, xs);
    DeedsConcat(none + xs, ys);
  }

  lemma {:induction false} LoopDoes<F>(script: seq<Round<F>>, turns: seq<Done<F>>, does: F -> seq<Deed<F>>)
    requires |turns| <= |script|
    ensures DeedsOf(LoopSteps(script, turns, does)) == LoopDeeds(script, turns, does)
    decreases |turns|
  {
    if turns == [] {
      NoDeed<F>(Begin);
    } else {
      var n := |turns| - 1;
      LoopDoes(script, turns[..n], does);
      NextTurnDoes(LoopSteps(script, turns[..n], does), script[n], turns[n], does);
    }
  }

  lemma NextTurnDoes<F>(own: seq<Step<F>>, round: Round<F>, done: Done<F>, does: F -> seq<Deed<F>>)
    ensures DeedsOf(own + ([Check] + TurnSteps(round, done, does)))
            == DeedsOf(own) + (Flat(round.before) + Flat(round.after) + BatchDeeds(done.taken, does))
  {
    var turn := TurnSteps(round, done, does);
    SeqAssoc(own, [Check], turn);
    NoDeed<F>(Check);
    DeedsAround(own, [Check], turn);
    TurnDoes(round, done, does);
  }

  /** Every step of the loop thread has had its effect. */
  ghost predicate Effective<F>(steps: seq<Step<F>>) {
    steps != [] ==>
      var n := |steps| - 1;
      Effective(steps[..n]) && (IsForeign(steps[n]) || Enabled(Run(Init(), steps[..n]), steps[n]))
  }

  /** A quit that the application asks for after loop() has begun is not lost. */
  lemma {:induction false} QuitLasts<F>(start: seq<Step<F>>, rest: seq<Step<F>>)
    requires Effective(start + rest) && Run(Init(), start).pc != Starting
    ensures Run(Init(), start + rest).pc != Starting
    ensures RequestQuit in DeedsOf(rest) ==> Run(Init(), start + rest).quit
    decreases |rest|
  {
    if rest == [] {
      assert start + rest == start;
    } else {
      var n := |rest| - 1;
      var before := start + rest[..n];
      assert (start + rest)[..|start + rest| - 1] == before;
      QuitLasts(start, rest[..n]);
      QuitLastsStep(Run(Init(), before), rest[n]);
    }
  }

  lemma QuitLastsStep<F>(s: Loop<F>, step: Step<F>)
    requires s.pc != Starting
    ensures Next(s, step).pc != Starting
    ensures s.quit || (step.SelfQuit? && Enabled(s, step)) ==> Next(s, step).quit
  {
    if s.quit {
      QuitStep(s, step);
    }
  }

  lemma AskedQuit<F>(start: seq<Step<F>>, history: seq<Step<F>>, deeds: seq<Deed<F>>)
    requires start <= history && Effective(history) && Run(Init(), start).pc != Starting
    requires DeedsOf(history) == DeedsOf(start) + deeds
    ensures RequestQuit in deeds ==> Run(Init(), history).quit
  {
    var rest := history[|start|..];
    assert start + rest == history;
    DeedsConcat(start, rest);
    assert deeds == DeedsOf(history)[|DeedsOf(start)|..] == DeedsOf(rest);
    QuitLasts(start, rest);
  }

  lemma EffectiveSnoc<F>(steps: seq<Step<F>>, step: Step<F>)
    requires Effective(steps) && (IsForeign(step) || Enabled(Run(Init(), steps), step))
    ensures Effective(steps + [step])
  {
    assert (steps + [step])[..|steps|] == steps;
  }

  /** What is private to the loop thread is the same, and the shared state has only grown. */
  predicate SamePrivate<F(==)>(s: Loop<F>, s': Loop<F>) {
    && s'.pc == s.pc && s'.batch == s.batch && s'.executed == s.executed
    && s'.readable == s.readable && s'.selfInFlight == s.selfInFlight && s'.primed == s.primed
    && (s.quit ==> s'.quit) && s.pending <= s'.pending
  }

  lemma ForeignPrivate<F>(s: Loop<F>, step: Step<F>)
    requires IsForeign(step)
    ensures SamePrivate(s, Next(s, step))
  {
  }

  /** What the other threads do, by the point of the history at which the loop thread lets
      them run: each choice of one is an interleaving, and each interleaving a choice. */
  type Env<!F> = nat -> seq<Step<F>>

  ghost predicate AllForeign<F>(env: Env<F>) {
    forall n :: Foreign(env(n))
  }

  /** A history, and what the other threads do at its end. */
  function With<F>(trace: seq<Step<F>>, env: Env<F>): seq<Step<F>> {
    trace + env(|trace|)
  }

  /** The history that follows `start` when the loop thread takes these steps of its own
      and the other threads run before each. */
  function Interleaved<F>(start: seq<Step<F>>, own: seq<Step<F>>, env: Env<F>): (history: seq<Step<F>>)
    ensures start <= history
    decreases |own|
  {
    if own == [] then start
    else
      var n := |own| - 1;
      With(Interleaved(start, own[..n], env), env) + [own[n]]
  }

  lemma InterleavedSnoc<F>(start: seq<Step<F>>, own: seq<Step<F>>, step: Step<F>, env: Env<F>)
    ensures Interleaved(start, own + [step], env) == With(Interleaved(start, own, env), env) + [step]
  {
    assert (own + [step])[..|own|] == own;
  }

  lemma InterleavedOne<F>(start: seq<Step<F>>, step: Step<F>, env: Env<F>)
    ensures Interleaved(start, [step], env) == With(start, env) + [step]
  {
    InterleavedSnoc(start, [], step, env);
    assert [] + [step] == [step];
  }

  lemma {:induction false} InterleavedConcat<F>(start: seq<Step<F>>, xs: seq<Step<F>>, ys: seq<Step<F>>, env: Env<F>)
    ensures Interleaved(Interleaved(start, xs, env), ys, env) == Interleaved(start, xs + ys, env)
    decreases |ys|
  {
    if ys == [] {
      assert xs + ys == xs;
    } else {
      var n := |ys| - 1;
      InterleavedConcat(start, xs, ys[..n], env);
      assert (xs + ys)[..|xs + ys| - 1] == xs + ys[..n];
    }
  }

  /** What a turn owes to the point where it entered poll_wait: it was covered by a wakeup
      if functors were queued, and it has run at least those. */
  ghost predicate Serves<F>(done: Done<F>, trace: seq<Step<F>>, round: Round<F>, env: Env<F>) {
    && done.at <= |trace|
    && var asleep := Run(Init(), trace[..done.at]);
       && asleep.pc == Polling
       && (asleep.pending != [] && !asleep.primed ==> Woken(asleep))
       && asleep.pending <= done.taken
       && done.active == (round.woken && Run(Init(), With(trace[..done.at], env)).counter > 0)
  }

  ghost predicate AllServe<F>(turns: seq<Done<F>>, trace: seq<Step<F>>, script: seq<Round<F>>, env: Env<F>) {
    && |turns| <= |script|
    && forall i | 0 <= i < |turns| :: Serves(turns[i], trace, script[i], env)
  }

  /** What happens later changes nothing about the turns so far. */
  lemma StillServe<F>(turns: seq<Done<F>>, trace: seq<Step<F>>, later: seq<Step<F>>, script: seq<Round<F>>,
                      env: Env<F>)
    requires trace <= later && AllServe(turns, trace, script, env)
    ensures AllServe(turns, later, script, env)
  {
    forall i | 0 <= i < |turns|
      ensures Serves(turns[i], later, script[i], env)
    {
      ServesLater(turns[i], trace, later, script[i], env);
    }
  }

  lemma ServesLater<F>(done: Done<F>, trace: seq<Step<F>>, later: seq<Step<F>>, round: Round<F>, env: Env<F>)
    requires trace <= later && Serves(done, trace, round, env)
    ensures Serves(done, later, round, env)
  {
    assert later[..done.at] == trace[..done.at];
  }

  function AllTaken<F>(turns: seq<Done<F>>): seq<F> {
    if turns == [] then [] else AllTaken(turns[..|turns| - 1]) + turns[|turns| - 1].taken
  }

  lemma SeqAssoc<T>(xs: seq<T>, ys: seq<T>, zs: seq<T>)
    ensures (xs + ys) + zs == xs + (ys + zs)
  {
  }

  lemma InterleavedMore<F>(start: seq<Step<F>>, own: seq<Step<F>>, step: Step<F>, more: seq<Step<F>>, env: Env<F>)
    ensures Interleaved(With(Interleaved(start, own, env), env) + [step], more, env)
            == Interleaved(start, own + ([step] + more), env)
  {
    var next := own + [step];
    InterleavedSnoc(start, own, step, env);
    InterleavedConcat(start, next, more, env);
    SeqAssoc(own, [step], more);
  }

  lemma Advance<T>(ran: seq<T>, taken: seq<T>, i: nat)
    requires i < |taken|
    ensures taken[i..] != [] && taken[i..][0] == taken[i] && taken[i..][1..] == taken[i + 1..]
    ensures (ran + taken[..i]) + [taken[i]] == ran + taken[..i + 1]
  {
  }

  lemma BatchHistory<F>(start: seq<Step<F>>, taken: seq<F>, i: nat, does: F -> seq<Deed<F>>, env: Env<F>)
    requires i < |taken|
    ensures Interleaved(Interleaved(start, BatchSteps(taken[..i], does), env),
                        [RunNext] + BodySteps(does(taken[i]), true), env)
            == Interleaved(start, BatchSteps(taken[..i + 1], does), env)
  {
    assert taken[..i + 1][..i] == taken[..i];
    InterleavedConcat(start, BatchSteps(taken[..i], does), [RunNext] + BodySteps(does(taken[i]), true), env);
  }

  lemma OneTurn<F>(script: seq<Round<F>>, turns: seq<Done<F>>, done: Done<F>, does: F -> seq<Deed<F>>)
    requires |turns| < |script|
    ensures LoopSteps(script, turns + [done], does)
            == LoopSteps(script, turns, does) + ([Check] + TurnSteps(script[|turns|], done, does))
    ensures AllTaken(turns + [done]) == AllTaken(turns) + done.taken
  {
    assert (turns + [done])[..|turns|] == turns;
  }

  /** A turn added to the turns so far, in the history and in what is owed. */
  lemma TurnsHistory<F>(start: seq<Step<F>>, trace: seq<Step<F>>, script: seq<Round<F>>, turns: seq<Done<F>>,
                        done: Done<F>, does: F -> seq<Deed<F>>, env: Env<F>)
    requires |turns| < |script| && trace == With(Interleaved(start, LoopSteps(script, turns, does), env), env)
    ensures Interleaved(trace + [Check], TurnSteps(script[|turns|], done, does), env)
            == Interleaved(start, LoopSteps(script, turns + [done], does), env)
    ensures AllTaken(turns + [done]) == AllTaken(turns) + done.taken
  {
    OneTurn(script, turns, done, does);
    InterleavedMore(start, LoopSteps(script, turns, does), Check, TurnSteps(script[|turns|], done, does), env);
  }

  lemma OneMoreServes<F>(turns: seq<Done<F>>, done: Done<F>, trace: seq<Step<F>>, later: seq<Step<F>>,
                         script: seq<Round<F>>, env: Env<F>)
    requires trace <= later && AllServe(turns, trace, script, env)
    requires |turns| < |script| && Serves(done, later, script[|turns|], env)
    ensures AllServe(turns + [done], later, script, env)
  {
    StillServe(turns, trace, later, script, env);
  }

  /** The members of the class, with the history of the shared accesses so far.  `Valid`
      ties the members to the protocol state that this history leads to, so each theorem
      about runs is one about this code.  Other threads run before every step of it. */
  class EventLoop<F(==)> {
    var quit: bool
    var calling: bool              // calling_pending_functors_
    var pending: seq<F>
    var counter: nat               // the kernel's, behind wakeup_fd_
    var inFlight: set<ThreadId>    // the other threads' own
    var trace: seq<Step<F>>

    ghost function At(): Loop<F>
      reads this
    {
      Run(Init(), trace)
    }

    ghost predicate Valid()
      reads this
    {
      var s := At();
      && quit == s.quit && calling == Calling(s) && pending == s.pending
      && counter == s.counter && inFlight == s.inFlight
      && Effective(trace)
    }

    constructor ()
      ensures Valid() && At() == Init()
    {
      quit, calling, pending, counter, inFlight, trace := false, false, [], 0, {}, [];
    }

    method Record(step: Step<F>)
      requires Effective(trace) && (IsForeign(step) || Enabled(At(), step))
      modifies this`trace
      ensures trace == old(trace) + [step] && At() == Next(old(At()), step) && Effective(trace)
    {
      RunSnoc(Init(), trace, step);
      EffectiveSnoc(trace, step);
      trace := trace + [step];
    }

    /** queue_in_loop in another thread, up to the end of its critical section. */
    method OtherPosts(t: ThreadId, f: F)
      requires Valid()
      modifies this
      ensures Valid() && trace == old(trace) + [Post(t, f)] && calling == old(calling)
    {
      if t !in inFlight {
        pending, inFlight := pending + [f], inFlight + {t};
      }
      Record(Post(t, f));
    }

    /** quit in another thread, up to its wakeup. */
    method OtherQuits(t: ThreadId)
      requires Valid()
      modifies this
      ensures Valid() && trace == old(trace) + [PostQuit(t)] && calling == old(calling)
    {
      if t !in inFlight {
        quit, inFlight := true, inFlight + {t};
      }
      Record(PostQuit(t));
    }

    /** The wakeup of either. */
    method OtherWakes(t: ThreadId)
      requires Valid()
      modifies this
      ensures Valid() && trace == old(trace) + [Wake(t)] && calling == old(calling)
    {
      if t in inFlight {
        counter, inFlight := Written(counter), inFlight - {t};
      }
      Record(Wake(t));
    }

    /** One step of another thread. */
    method Other(step: Step<F>)
      requires Valid() && IsForeign(step)
      modifies this
      ensures Valid() && trace == old(trace) + [step]
      ensures SamePrivate(old(At()), At()) && calling == old(calling)
    {
      ForeignPrivate(At(), step);
      RunSnoc(Init(), trace, step);
      match step {
        case Post(t, f) => OtherPosts(t, f);
        case PostQuit(t) => OtherQuits(t);
        case Wake(t) => OtherWakes(t);
      }
    }

    /** Other threads run, as the environment says for this point. */
    method Others(env: Env<F>)
      requires Valid() && AllForeign(env)
      modifies this
      ensures Valid() && trace == With(old(trace), env)
      ensures SamePrivate(old(At()), At()) && calling == old(calling)
    {
      var steps := env(|trace|);
      assert Foreign(steps);
      for i := 0 to |steps|
        invariant Valid() && trace == old(trace) + steps[..i]
        invariant SamePrivate(old(At()), At()) && calling == old(calling)
      {
        assert steps[..i + 1] == steps[..i] + [steps[i]];
        Other(steps[i]);
      }
      assert steps[..|steps|] == steps;
    }

    method Wakeup()
      modifies this`counter
      ensures counter == Written(old(counter))
    {
      counter := Written(counter);
    }

    /** queue_in_loop called on the loop thread: the critical section, and the wakeup if
        functors are being run. */
    method QueueInLoop(f: F, env: Env<F>)
      requires Valid() && AllForeign(env) && Enabled(At(), SelfQueue(f))
      modifies this
      ensures Valid() && calling == old(calling)
      ensures trace == Interleaved(old(trace), DeedSteps(QueueFunctor(f), calling), env)
      ensures DeedsOf(trace) == DeedsOf(old(trace)) + [QueueFunctor(f)]
      ensures var s := Run(Init(), With(old(trace), env));
              && s.pending + [f] <= pending
              && (!calling ==> pending == s.pending + [f] && counter == s.counter)
      ensures calling ==>
                var s := Run(Init(), With(With(old(trace), env) + [SelfQueue(f)], env));
                counter == if s.counter < COUNTER_MAX then s.counter + 1 else s.counter
      ensures !At().selfInFlight && (old(At()).pc != Starting ==> SamePrivate(old(At()), At()))
    {
      InterleavedOne(trace, SelfQueue(f), env);
      InterleavedSnoc(trace, [SelfQueue(f)], SelfWake, env);
      DeedsInterleaved(trace, DeedSteps(QueueFunctor(f), calling), env);
      DeedDoes(QueueFunctor(f), calling);
      Enqueue(f, env);
      if calling {
        Others(env);
        Wakeup();
        Record(SelfWake);
      }
    }

    /** The critical section of queue_in_loop. */
    method Enqueue(f: F, env: Env<F>)
      requires Valid() && AllForeign(env) && Enabled(At(), SelfQueue(f))
      modifies this
      ensures Valid() && calling == old(calling) && trace == With(old(trace), env) + [SelfQueue(f)]
      ensures At().selfInFlight == calling
      ensures var s := Run(Init(), With(old(trace), env)); pending == s.pending + [f] && counter == s.counter
      ensures old(At()).pc != Starting ==> SamePrivate(old(At()), At().(selfInFlight := false))
    {
      Others(env);
      pending := pending + [f];
      Record(SelfQueue(f));
    }

    /** quit called on the loop thread: no wakeup. */
    method Quit(env: Env<F>)
      requires Valid() && AllForeign(env) && Enabled(At(), SelfQuit)
      modifies this
      ensures Valid() && calling == old(calling) && quit
      ensures trace == With(old(trace), env) + [SelfQuit]
      ensures DeedsOf(trace) == DeedsOf(old(trace)) + [RequestQuit]
      ensures SamePrivate(old(At()), At())
    {
      DeedsWith(trace, env);
      OneDeed(With(trace, env), SelfQuit);
      Others(env);
      quit := true;
      Record(SelfQuit);
    }

    /** The body of a handler or functor: every deed, in order. */
    method Perform(deeds: seq<Deed<F>>, env: Env<F>)
      requires Valid() && AllForeign(env) && (At().pc == Dispatching || At().pc == Running) && !At().selfInFlight
      modifies this
      ensures Valid() && calling == old(calling)
      ensures trace == Interleaved(old(trace), BodySteps(deeds, calling), env)
      ensures DeedsOf(trace) == DeedsOf(old(trace)) + deeds && (RequestQuit in deeds ==> quit)
      ensures SamePrivate(old(At()), At())
    {
      DeedsInterleaved(trace, BodySteps(deeds, calling), env);
      BodyDoes(deeds, calling);
      DoAll(deeds, env);
      AskedQuit(old(trace), trace, deeds);
    }

    method DoAll(deeds: seq<Deed<F>>, env: Env<F>)
      requires Valid() && AllForeign(env) && (At().pc == Dispatching || At().pc == Running) && !At().selfInFlight
      modifies this
      ensures Valid() && calling == old(calling)
      ensures trace == Interleaved(old(trace), BodySteps(deeds, calling), env)
      ensures SamePrivate(old(At()), At())
    {
      for i := 0 to |deeds|
        invariant Valid() && calling == old(calling)
        invariant trace == Interleaved(old(trace), BodySteps(deeds[..i], calling), env)
        invariant SamePrivate(old(At()), At())
      {
        assert deeds[..i + 1][..i] == deeds[..i];
        InterleavedConcat(old(trace), BodySteps(deeds[..i], calling), DeedSteps(deeds[i], calling), env);
        Do(deeds[i], env);
      }
      assert deeds[..|deeds|] == deeds;
    }

    method Do(deed: Deed<F>, env: Env<F>)
      requires Valid() && AllForeign(env) && (At().pc == Dispatching || At().pc == Running) && !At().selfInFlight
      modifies this
      ensures Valid() && calling == old(calling)
      ensures trace == Interleaved(old(trace), DeedSteps(deed, calling), env)
      ensures SamePrivate(old(At()), At())
    {
      match deed {
        case QueueFunctor(f) => QueueInLoop(f, env);
        case RequestQuit =>
          InterleavedOne(trace, SelfQuit, env);
          Quit(env);
      }
    }

    /** The start of do_pending_functions, up to the end of its critical section. */
    method TakeFunctors(env: Env<F>) returns (functors: seq<F>)
      requires Valid() && AllForeign(env) && At().pc == Dispatching && !At().selfInFlight && At().batch == []
      modifies this
      ensures Valid() && calling && trace == With(old(trace), env) + [Swap]
      ensures functors == Run(Init(), With(old(trace), env)).pending && old(pending) <= functors
      ensures At().pc == Running && !At().selfInFlight && At().batch == functors
      ensures At().executed == old(At()).executed && (old(quit) ==> quit)
    {
      Others(env);
      calling := true;
      functors := pending;
      pending := [];
      Record(Swap);
    }

    /** The next functor of the batch is called. */
    method RunFunctor(deeds: seq<Deed<F>>, env: Env<F>)
      requires Valid() && AllForeign(env) && At().pc == Running && !At().selfInFlight && At().batch != []
      modifies this
      ensures Valid() && calling == old(calling) && (old(quit) ==> quit)
      ensures trace == Interleaved(old(trace), [RunNext] + BodySteps(deeds, calling), env)
      ensures At().pc == Running && !At().selfInFlight
      ensures At().executed == old(At()).executed + [old(At()).batch[0]] && At().batch == old(At()).batch[1..]
    {
      InterleavedOne(trace, RunNext, env);
      InterleavedConcat(trace, [RunNext], BodySteps(deeds, calling), env);
      Others(env);
      Record(RunNext);
      Perform(deeds, env);
    }

    /** What has been run and recorded of a batch after its first `i` functors. */
    ghost predicate Ran(start: seq<Step<F>>, ran: seq<F>, taken: seq<F>, i: nat, does: F -> seq<Deed<F>>, env: Env<F>)
      requires i <= |taken|
      reads this
    {
      && At().batch == taken[i..] && At().executed == ran + taken[..i]
      && trace == Interleaved(start, BatchSteps(taken[..i], does), env)
    }

    /** The loop over the functors taken. */
    method RunBatch(taken: seq<F>, does: F -> seq<Deed<F>>, env: Env<F>)
      requires Valid() && AllForeign(env) && calling && At().pc == Running && !At().selfInFlight && At().batch == taken
      modifies this
      ensures Valid() && calling && At().pc == Running && !At().selfInFlight && At().batch == []
      ensures trace == Interleaved(old(trace), BatchSteps(taken, does), env)
      ensures At().executed == old(At()).executed + taken && (old(quit) ==> quit)
    {
      ghost var start, ran := trace, At().executed;
      for i := 0 to |taken|
        invariant Valid() && calling && At().pc == Running && !At().selfInFlight && (old(quit) ==> quit)
        invariant Ran(start, ran, taken, i, does, env)
      {
        RunOne(start, ran, taken, i, does, env);
      }
      assert taken[..|taken|] == taken;
    }

    /** One round of it. */
    method RunOne(ghost start: seq<Step<F>>, ghost ran: seq<F>, taken: seq<F>, i: nat,
                  does: F -> seq<Deed<F>>, env: Env<F>)
      requires Valid() && AllForeign(env) && calling && At().pc == Running && !At().selfInFlight
      requires i < |taken| && Ran(start, ran, taken, i, does, env)
      modifies this
      ensures Valid() && calling && At().pc == Running && !At().selfInFlight && (old(quit) ==> quit)
      ensures Ran(start, ran, taken, i + 1, does, env)
    {
      BatchHistory(start, taken, i, does, env);
      Advance(ran, taken, i);
      RunFunctor(does(taken[i]), env);
    }

    /** do_pending_functions: runs the functors queued at its swap, all of them, in order,
        once each, and no other. */
    method DoPendingFunctions(does: F -> seq<Deed<F>>, env: Env<F>) returns (taken: seq<F>)
      requires Valid() && AllForeign(env) && At().pc == Dispatching && !At().selfInFlight && At().batch == []
      modifies this
      ensures Valid() && Idle() && (old(quit) ==> quit)
      ensures taken == Run(Init(), With(old(trace), env)).pending && old(pending) <= taken
      ensures At().executed == old(At()).executed + taken
      ensures trace == Interleaved(old(trace), PendingSteps(taken, does), env)
      ensures DeedsOf(trace) == DeedsOf(old(trace)) + BatchDeeds(taken, does)
    {
      taken := TakeFunctors(env);
      RunBatch(taken, does, env);
      PendingHistory(old(trace), taken, does, env);
      DeedsInterleaved(old(trace), PendingSteps(taken, does), env);
      PendingDoes(taken, does);
      FinishBatch(env);
    }

    method FinishBatch(env: Env<F>)
      requires Valid() && AllForeign(env) && At().pc == Running && !At().selfInFlight && At().batch == []
      modifies this
      ensures Valid() && Idle() && At().executed == old(At()).executed && (old(quit) ==> quit)
      ensures trace == With(old(trace), env) + [EndBatch]
    {
      Others(env);
      calling := false;
      Record(EndBatch);
    }

    lemma PendingHistory(start: seq<Step<F>>, taken: seq<F>, does: F -> seq<Deed<F>>, env: Env<F>)
      ensures var swapped := With(start, env) + [Swap];
              With(Interleaved(swapped, BatchSteps(taken, does), env), env) + [EndBatch]
              == Interleaved(start, PendingSteps(taken, does), env)
    {
      InterleavedOne(start, Swap, env);
      InterleavedConcat(start, [Swap], BatchSteps(taken, does), env);
      InterleavedSnoc(start, [Swap] + BatchSteps(taken, does), EndBatch, env);
    }

    /** handle_read: the eventfd is read and so reset. */
    method HandleRead(env: Env<F>)
      requires Valid() && AllForeign(env) && Enabled(At(), Drain)
      modifies this
      ensures Valid() && trace == With(old(trace), env) + [Drain] && counter == 0 && calling == old(calling)
      ensures SamePrivate(old(At()), At().(readable := true)) && !At().readable
    {
      Others(env);
      counter := 0;
      Record(Drain);
    }

    /** Some of the active channels, other than the wakeup channel. */
    method Handle(handlers: seq<seq<Deed<F>>>, env: Env<F>)
      requires Valid() && AllForeign(env) && At().pc == Dispatching && !calling && !At().selfInFlight
      modifies this
      ensures Valid() && !calling && SamePrivate(old(At()), At())
      ensures trace == Interleaved(old(trace), HandlerSteps(handlers), env)
      ensures DeedsOf(trace) == DeedsOf(old(trace)) + Flat(handlers)
    {
      DeedsInterleaved(trace, HandlerSteps(handlers), env);
      HandlersDo(handlers);
      for i := 0 to |handlers|
        invariant Valid() && !calling && SamePrivate(old(At()), At())
        invariant trace == Interleaved(old(trace), HandlerSteps(handlers[..i]), env)
      {
        assert handlers[..i + 1][..i] == handlers[..i];
        InterleavedConcat(old(trace), HandlerSteps(handlers[..i]), BodySteps(handlers[i], false), env);
        Perform(handlers[i], env);
      }
      assert handlers[..|handlers|] == handlers;
    }

    /** The loop over the active channels, in the order in which epoll_wait reported them. */
    method Dispatch(round: Round<F>, active: bool, env: Env<F>)
      requires Valid() && AllForeign(env) && At().pc == Dispatching && At().readable == active && !At().selfInFlight
      modifies this
      ensures Valid() && SamePrivate(old(At()), At().(readable := active)) && !At().readable
      ensures trace == Interleaved(old(trace), DispatchSteps(round, active), env)
      ensures DeedsOf(trace) == DeedsOf(old(trace)) + (Flat(round.before) + Flat(round.after))
    {
      DeedsInterleaved(trace, DispatchSteps(round, active), env);
      DispatchDoes(round, active);
      DispatchHistory(trace, round, active, env);
      Handle(round.before, env);
      HandleWakeup(active, env);
      Handle(round.after, env);
    }

    /** The wakeup channel, if it is active. */
    method HandleWakeup(active: bool, env: Env<F>)
      requires Valid() && AllForeign(env) && At().pc == Dispatching && At().readable == active && !calling
      modifies this
      ensures Valid() && !calling && SamePrivate(old(At()), At().(readable := active)) && !At().readable
      ensures trace == Interleaved(old(trace), if active then [Drain] else [], env)
    {
      if active {
        InterleavedOne(trace, Drain, env);
        HandleRead(env);
      }
    }

    lemma DispatchHistory(start: seq<Step<F>>, round: Round<F>, active: bool, env: Env<F>)
      ensures var first := Interleaved(start, HandlerSteps(round.before), env);
              var second := Interleaved(first, if active then [Drain] else [], env);
              Interleaved(second, HandlerSteps(round.after), env)
              == Interleaved(start, DispatchSteps(round, active), env)
    {
      var before, drain := HandlerSteps(round.before), if active then [Drain] else [];
      InterleavedConcat(start, before, drain, env);
      InterleavedConcat(start, before + drain, HandlerSteps(round.after), env);
    }

    /** poll_wait: other threads run while the loop thread is in it. */
    method PollWait(woken: bool, env: Env<F>) returns (active: bool)
      requires Valid() && AllForeign(env) && At().pc == Polling
      modifies this
      ensures Valid() && trace == With(old(trace), env) + [PollReturn(active)] && calling == old(calling)
      ensures active == (woken && Run(Init(), With(old(trace), env)).counter > 0)
      ensures SamePrivate(old(At()), At().(pc := Polling, readable := old(At()).readable))
      ensures At().pc == Dispatching && At().readable == active
    {
      Others(env);
      active := woken && counter > 0;
      Record(PollReturn(active));
    }

    /** One turn of the loop, from the test of quit_, found false, up to the next: whatever its
        handlers and functors ask for is done, in order. */
    method Turn(round: Round<F>, does: F -> seq<Deed<F>>, env: Env<F>) returns (done: Done<F>)
      requires Valid() && AllForeign(env) && Idle() && !quit
      modifies this
      ensures Valid() && Idle() && Serves(done, trace, round, env) && done.at == |old(trace)| + 1
      ensures trace == Interleaved(old(trace) + [Check], TurnSteps(round, done, does), env)
      ensures At().executed == old(At()).executed + done.taken && old(pending) <= done.taken
      ensures var deeds := Flat(round.before) + Flat(round.after) + BatchDeeds(done.taken, does);
              DeedsOf(trace) == DeedsOf(old(trace)) + deeds && (RequestQuit in deeds ==> quit)
    {
      done := TakeTurn(round, does, env);
      TurnAsks(old(trace), round, done, does, env);
      AskedQuit(old(trace), trace, Flat(round.before) + Flat(round.after) + BatchDeeds(done.taken, does));
    }

    lemma TurnAsks(start: seq<Step<F>>, round: Round<F>, done: Done<F>, does: F -> seq<Deed<F>>, env: Env<F>)
      requires AllForeign(env)
      ensures DeedsOf(Interleaved(start + [Check], TurnSteps(round, done, does), env))
              == DeedsOf(start) + (Flat(round.before) + Flat(round.after) + BatchDeeds(done.taken, does))
    {
      OneDeed(start, Check);
      DeedsInterleaved(start + [Check], TurnSteps(round, done, does), env);
      TurnDoes(round, done, does);
    }

    method TakeTurn(round: Round<F>, does: F -> seq<Deed<F>>, env: Env<F>) returns (done: Done<F>)
      requires Valid() && AllForeign(env) && Idle() && !quit
      modifies this
      ensures Valid() && Idle() && Serves(done, trace, round, env) && done.at == |old(trace)| + 1
      ensures trace == Interleaved(old(trace) + [Check], TurnSteps(round, done, does), env)
      ensures At().executed == old(At()).executed + done.taken && old(pending) <= done.taken
    {
      ghost var start := trace + [Check];
      var at := |trace| + 1;
      var active := Sleep(round.woken, env);
      var taken := DispatchAndRun(round, active, does, env);
      done := Done(at, active, taken);
      TurnHistory(start, round, done, does, env);
      assert trace[..at] == start;
    }

    /** The handlers, and then the functors. */
    method DispatchAndRun(round: Round<F>, active: bool, does: F -> seq<Deed<F>>, env: Env<F>)
      returns (taken: seq<F>)
      requires Valid() && AllForeign(env) && At().pc == Dispatching && At().readable == active
      requires !At().selfInFlight && At().batch == []
      modifies this
      ensures Valid() && Idle() && At().executed == old(At()).executed + taken && old(pending) <= taken
      ensures var dispatched := Interleaved(old(trace), DispatchSteps(round, active), env);
              trace == Interleaved(dispatched, PendingSteps(taken, does), env)
    {
      Dispatch(round, active, env);
      taken := DoPendingFunctions(does, env);
    }

    /** The test of quit_, and poll_wait. */
    method Sleep(woken: bool, env: Env<F>) returns (active: bool)
      requires Valid() && AllForeign(env) && Idle() && !quit
      modifies this
      ensures Valid() && At().pc == Dispatching && At().readable == active
      ensures !At().selfInFlight && At().batch == [] && At().executed == old(At()).executed && old(pending) <= pending
      ensures var start := old(trace) + [Check];
              && trace == With(start, env) + [PollReturn(active)]
              && active == (woken && Run(Init(), With(start, env)).counter > 0)
              && var asleep := Run(Init(), start);
                 && asleep.pc == Polling && asleep.pending == old(pending)
                 && (asleep.pending != [] && !asleep.primed ==> Woken(asleep))
    {
      Record(Check);
      RunWakeInv(trace);
      active := PollWait(woken, env);
    }

    lemma TurnHistory(start: seq<Step<F>>, round: Round<F>, done: Done<F>, does: F -> seq<Deed<F>>, env: Env<F>)
      ensures var polled := With(start, env) + [PollReturn(done.active)];
              var dispatched := Interleaved(polled, DispatchSteps(round, done.active), env);
              Interleaved(dispatched, PendingSteps(done.taken, does), env)
              == Interleaved(start, TurnSteps(round, done, does), env)
    {
      var poll, dispatch := [PollReturn(done.active)], DispatchSteps(round, done.active);
      InterleavedOne(start, PollReturn(done.active), env);
      InterleavedConcat(start, poll, dispatch, env);
      InterleavedConcat(start, poll + dispatch, PendingSteps(done.taken, does), env);
    }

    ghost predicate Idle()
      reads this
    {
      At().pc == Checking && !At().selfInFlight && At().batch == []
    }

    /** event_loop::loop for as many turns as the script of poll results lasts, or until quit_
        is found set; then it has exited.  The loop thread has taken exactly the steps of its
        turns, each handler's and functor's deeds included; the functors run are those that
        the turns took, each at least those queued when it entered poll_wait; and those run,
        then those still queued, are the functors enqueued, in order. */
    method Loop(script: seq<Round<F>>, does: F -> seq<Deed<F>>, env: Env<F>) returns (turns: seq<Done<F>>)
      requires Valid() && At().pc == Starting && AllForeign(env)
      modifies this
      ensures Valid() && At().pc == (if quit then Exited else Checking)
      ensures Looped(old(trace), script, turns, does, env, trace, quit) && (quit || |turns| == |script|)
      ensures AllServe(turns, trace, script, env)
      ensures At().executed == old(At()).executed + AllTaken(turns)
      ensures At().executed + pending == At().enqueued == Pushed(trace)
      ensures DeedsOf(trace) == DeedsOf(old(trace)) + LoopDeeds(script, turns, does)
      ensures RequestQuit in LoopDeeds(script, turns, does) ==> quit
    {
      Start(env);
      ghost var begun := trace;
      turns := TurnsAndExit(old(trace), script, does, env);
      AllAccounted(trace);
      LoopHistory(old(trace), script, turns, does, env, trace, quit);
      AskedQuit(begun, trace, LoopDeeds(script, turns, does));
    }

    /** The loop has taken the steps of these turns, and stopped or not. */
    ghost predicate Looped(start: seq<Step<F>>, script: seq<Round<F>>, turns: seq<Done<F>>, does: F -> seq<Deed<F>>,
                           env: Env<F>, history: seq<Step<F>>, stopped: bool)
    {
      && |turns| <= |script|
      && var own := LoopSteps(script, turns, does);
         history == if stopped then Interleaved(start, own + [Check], env) else With(Interleaved(start, own, env), env)
    }

    lemma AllAccounted(history: seq<Step<F>>)
      ensures var s := Run(Init(), history);
              s.enqueued == Pushed(history) && (s.batch == [] ==> s.executed + s.pending == s.enqueued)
    {
      ExactlyOnceFifo(history);
      EveryPushCounts(history);
      assert Run(Init(), history).executed + [] == Run(Init(), history).executed;
    }

    /** The while loop of loop(), and the test of quit_ that ends it. */
    method TurnsAndExit(ghost start: seq<Step<F>>, script: seq<Round<F>>, does: F -> seq<Deed<F>>, env: Env<F>)
      returns (turns: seq<Done<F>>)
      requires Valid() && AllForeign(env) && Idle()
      requires trace == With(Interleaved(start, [Begin], env), env)
      modifies this
      ensures Valid() && old(trace) <= trace && (quit || |turns| == |script|)
      ensures At().pc == (if quit then Exited else Checking) && At().batch == []
      ensures AllServe(turns, trace, script, env) && At().executed == old(At()).executed + AllTaken(turns)
      ensures Looped(start, script, turns, does, env, trace, quit)
    {
      turns := Turns(start, script, does, env);
      if quit {
        InterleavedSnoc(start, LoopSteps(script, turns, does), Check, env);
        StillServe(turns, trace, trace + [Check], script, env);
        Record(Check);
      }
    }

    /** What the loop's history says of what the application has asked for. */
    lemma LoopHistory(start: seq<Step<F>>, script: seq<Round<F>>, turns: seq<Done<F>>, does: F -> seq<Deed<F>>,
                      env: Env<F>, history: seq<Step<F>>, stopped: bool)
      requires AllForeign(env) && Looped(start, script, turns, does, env, history, stopped)
      ensures DeedsOf(history) == DeedsOf(start) + LoopDeeds(script, turns, does)
    {
      var own := LoopSteps(script, turns, does);
      LoopDoes(script, turns, does);
      if stopped {
        DeedsInterleaved(start, own + [Check], env);
        OneDeed(own, Check);
      } else {
        DeedsInterleaved(start, own, env);
        DeedsWith(Interleaved(start, own, env), env);
      }
    }

    /** What has been run and recorded after `turns`, from a start with `ran` executed. */
    ghost predicate After(start: seq<Step<F>>, ran: seq<F>, script: seq<Round<F>>, turns: seq<Done<F>>,
                          does: F -> seq<Deed<F>>, env: Env<F>)
      reads this
    {
      && AllServe(turns, trace, script, env)
      && trace == With(Interleaved(start, LoopSteps(script, turns, does), env), env)
      && At().executed == ran + AllTaken(turns)
    }

    /** The while loop of loop(). */
    method Turns(ghost start: seq<Step<F>>, script: seq<Round<F>>, does: F -> seq<Deed<F>>, env: Env<F>)
      returns (turns: seq<Done<F>>)
      requires Valid() && AllForeign(env) && Idle()
      requires trace == With(Interleaved(start, [Begin], env), env)
      modifies this
      ensures Valid() && Idle() && (quit || |turns| == |script|) && old(trace) <= trace
      ensures After(start, old(At()).executed, script, turns, does, env)
    {
      turns := [];
      ghost var ran := At().executed;
      while !quit && |turns| < |script|
        invariant Valid() && Idle() && After(start, ran, script, turns, does, env) && old(trace) <= trace
        decreases |script| - |turns|
      {
        turns := NextTurn(start, ran, script, turns, does, env);
      }
    }

    /** A turn after `turns`. */
    method NextTurn(ghost start: seq<Step<F>>, ghost ran: seq<F>, script: seq<Round<F>>, turns: seq<Done<F>>,
                    does: F -> seq<Deed<F>>, env: Env<F>) returns (turns': seq<Done<F>>)
      requires Valid() && AllForeign(env) && Idle() && !quit && |turns| < |script|
      requires After(start, ran, script, turns, does, env)
      modifies this
      ensures Valid() && Idle() && |turns'| == |turns| + 1 && old(trace) <= trace
      ensures After(start, ran, script, turns', does, env)
    {
      ghost var before := trace;
      var done := TurnAndOthers(script[|turns|], does, env);
      turns' := turns + [done];
      TurnsHistory(start, before, script, turns, done, does, env);
      OneMoreServes(turns, done, before, trace, script, env);
      SeqAssoc(ran, AllTaken(turns), done.taken);
    }

    /** A turn, and the steps of other threads up to the next test of quit_. */
    method TurnAndOthers(round: Round<F>, does: F -> seq<Deed<F>>, env: Env<F>) returns (done: Done<F>)
      requires Valid() && AllForeign(env) && Idle() && !quit
      modifies this
      ensures Valid() && Idle() && old(trace) <= trace && Serves(done, trace, round, env)
      ensures trace == With(Interleaved(old(trace) + [Check], TurnSteps(round, done, does), env), env)
      ensures At().executed == old(At()).executed + done.taken
    {
      done := Turn(round, does, env);
      ghost var after := trace;
      Others(env);
      ServesLater(done, after, trace, round, env);
    }

    lemma BeginDoes(start: seq<Step<F>>, env: Env<F>)
      requires AllForeign(env)
      ensures DeedsOf(With(With(start, env) + [Begin], env)) == DeedsOf(start)
    {
      DeedsWith(start, env);
      OneDeed(With(start, env), Begin);
      DeedsWith(With(start, env) + [Begin], env);
    }

    /** The start of loop(), up to its first test of quit_. */
    method Start(env: Env<F>)
      requires Valid() && At().pc == Starting && AllForeign(env)
      modifies this
      ensures Valid() && Idle() && At().executed == old(At()).executed
      ensures trace == With(Interleaved(old(trace), [Begin], env), env) && DeedsOf(trace) == DeedsOf(old(trace))
    {
      RunWakeInv(trace);
      ExactlyOnceFifo(trace);
      InterleavedOne(trace, Begin, env);
      BeginDoes(trace, env);
      Others(env);
      quit := false;
      Record(Begin);
      Others(env);
    }
  }
}
