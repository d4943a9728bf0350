/**
  The event loop of src/net/EventLoop.cc as a machine of atomic steps. Any number of threads push functors and
  then write the eventfd, as two separate steps; the loop thread tests, polls, dispatches, swaps and runs.
 */
module EventLoopMachine {

  type Functor = nat
  type ThreadId = nat

  /** An eventfd holds at most this value; a write that would exceed it is refused. */
  const EVENTFD_MAX: nat := 0xFFFF_FFFF_FFFF_FFFE

  /** Where the loop thread stands. `Idle` is before loop(); `Entering` is between setting the flag and the swap. */
  datatype Phase = Idle | Testing | Polling | Dispatching | Entering | Running | Stopped

  datatype State = State(
    phase: Phase,
    quit: bool,
    calling: bool,                // _callingPendingFunctors
    pending: seq<Functor>,        // _pendingFunctors
    batch: seq<Functor>,          // the rest of the local vector in doPendingFunctors
    eventfd: nat,
    wakeActive: bool,             // the wakeup channel is active and not yet handled
    owing: set<ThreadId>,         // other threads between their push (or flag) and their write
    loopOwes: bool,               // the loop thread between its own push and its write
    queued: seq<Functor>,         // history: everything ever queued
    executed: seq<Functor>,       // history: everything run from the queue
    swaps: nat,                   // history: how often the vectors were swapped
    early: bool,                  // history: the loop thread queued before loop(), and no swap since
    quitDuringLoop: bool)         // history: quit() was called after loop() had started

  datatype Step =
    | Push(t: ThreadId, f: Functor) | Write(t: ThreadId) | Quit(t: ThreadId)
    | LoopPush(f: Functor) | LoopWrite | LoopQuit
    | Start | Test | PollReturn(woken: bool) | HandleRead | EndDispatch | Swap | RunFunctor | EndFunctors

  const INITIAL := State(Idle, false, false, [], [], 0, false, {}, false, [], [], 0, false, false)

  function Bump(counter: nat): (c: nat)
    ensures 0 < c
  {
    if counter < EVENTFD_MAX then counter + 1 else counter
  }

  predicate Enabled(s: State, step: Step) {
    match step
    case Push(t, _) => t !in s.owing
    case Quit(t) => t !in s.owing
    case Write(t) => t in s.owing
    case LoopPush(_) => (s.phase.Idle? || s.phase.Dispatching? || s.phase.Running?) && !s.loopOwes
    case LoopQuit => (s.phase.Idle? || s.phase.Dispatching? || s.phase.Running?) && !s.loopOwes
    case LoopWrite => s.loopOwes
    case Start => s.phase.Idle?
    case Test => s.phase.Testing?
    case PollReturn(woken) => s.phase.Polling? && (woken ==> 0 < s.eventfd)
    case HandleRead => s.phase.Dispatching? && s.wakeActive
    case EndDispatch => s.phase.Dispatching? && !s.wakeActive
    case Swap => s.phase.Entering?
    case RunFunctor => s.phase.Running? && s.batch != [] && !s.loopOwes
    case EndFunctors => s.phase.Running? && s.batch == [] && !s.loopOwes
  }

  function Apply(s: State, step: Step): State
    requires Enabled(s, step)
  {
    match step
    case Push(t, f) => s.(pending := s.pending + [f], queued := s.queued + [f], owing := s.owing + {t})
    case Write(t) => s.(eventfd := Bump(s.eventfd), owing := s.owing - {t})
    case Quit(t) => s.(quit := true, owing := s.owing + {t}, quitDuringLoop := s.quitDuringLoop || !s.phase.Idle?)
    case LoopPush(f) =>
      s.(pending := s.pending + [f], queued := s.queued + [f], loopOwes := s.calling, early := s.early || s.phase.Idle?)
    case LoopWrite => s.(eventfd := Bump(s.eventfd), loopOwes := false)
    case LoopQuit => s.(quit := true, quitDuringLoop := s.quitDuringLoop || !s.phase.Idle?)
    case Start => s.(phase := Testing, quit := false)
    case Test => s.(phase := if s.quit then Stopped else Polling)
    case PollReturn(woken) => s.(phase := Dispatching, wakeActive := woken)
    case HandleRead => s.(eventfd := 0, wakeActive := false)
    case EndDispatch => s.(phase := Entering, calling := true)
    case Swap => s.(phase := Running, batch := s.pending, pending := [], swaps := s.swaps + 1, early := false)
    case RunFunctor => s.(executed := s.executed + [s.batch[0]], batch := s.batch[1..])
    case EndFunctors => s.(phase := Testing, calling := false)
  }

  /** Runs: the interleavings that lead from `s` to `t`. */
  ghost predicate Run(s: State, steps: seq<Step>, t: State)
    decreases |steps|
  {
    if steps == [] then s == t
    else Enabled(s, steps[0]) && Run(Apply(s, steps[0]), steps[1..], t)
  }

  ghost predicate Reachable(s: State) {
    exists steps :: Run(INITIAL, steps, s)
  }

  /** Whether a wakeup is on its way: posted, or owed by a thread that has already pushed. */
  predicate WakeupComing(s: State) {
    0 < s.eventfd || s.owing != {} || s.loopOwes
  }

  ghost predicate Inv(s: State) {
    && s.queued == s.executed + s.batch + s.pending
    && (s.calling <==> s.phase.Entering? || s.phase.Running?)
    && (s.batch != [] || s.loopOwes ==> s.phase.Running?)
    && (s.wakeActive ==> s.phase.Dispatching? && 0 < s.eventfd)
    && (s.early ==> s.pending != [])
    && (!s.phase.Dispatching? && !s.phase.Entering? && s.pending != [] ==> WakeupComing(s) || s.early)
    && (s.quitDuringLoop ==> s.quit && !s.phase.Idle?)
    && (!s.phase.Idle? && s.quit ==> s.quitDuringLoop)
    && (s.phase.Polling? && s.quit ==> WakeupComing(s))
    && (s.phase.Stopped? ==> s.quit)
  }

  lemma StepKeepsOrder(s: State, step: Step)
    requires s.queued == s.executed + s.batch + s.pending && Enabled(s, step)
    requires step.Swap? ==> s.batch == []
    ensures var t := Apply(s, step); t.queued == t.executed + t.batch + t.pending
  {
    if step.RunFunctor? {
      assert s.batch == [s.batch[0]] + s.batch[1..];
    }
  }

  lemma StepKeepsInv(s: State, step: Step)
    requires Inv(s) && Enabled(s, step)
    ensures Inv(Apply(s, step))
  {
    StepKeepsOrder(s, step);
    match step
    case Push(t, f) => assert t in s.owing + {t} && s.pending + [f] != [];
    case Quit(t) => assert t in s.owing + {t};
    case _ =>
  }

  lemma {:induction false} RunKeepsInv(s: State, steps: seq<Step>, t: State)
    requires Inv(s) && Run(s, steps, t)
    ensures Inv(t)
    decreases |steps|
  {
    if steps != [] {
      StepKeepsInv(s, steps[0]);
      RunKeepsInv(Apply(s, steps[0]), steps[1..], t);
    }
  }

  lemma ReachableInv(s: State)
    requires Reachable(s)
    ensures Inv(s)
  {
    var steps :| Run(INITIAL, steps, s);
    RunKeepsInv(INITIAL, steps, s);
  }

  // ----- What was asked of the loop, read off the steps alone -----

  /** The functors queued, by any thread, in order. */
  function Pushed(steps: seq<Step>): seq<Functor> {
    if steps == [] then [] else PushedBy(steps[0]) + Pushed(steps[1..])
  }

  function Swaps(steps: seq<Step>): nat {
    if steps == [] then 0 else (if steps[0].Swap? then 1 else 0) + Swaps(steps[1..])
  }

  /** The writes to the eventfd since it was last read, after `before` earlier ones. */
  function Writes(steps: seq<Step>, before: nat): nat {
    if steps == [] then before else Writes(steps[1..], WritesAfter(steps[0], before))
  }

  predicate IsQuit(step: Step) {
    step.Quit? || step.LoopQuit?
  }

  /** quit() was called after loop() had begun. */
  ghost predicate QuitWhileLooping(steps: seq<Step>) {
    exists i, j :: 0 <= i < j < |steps| && steps[i].Start? && IsQuit(steps[j])
  }

  /** The loop thread queued before loop(), and nothing was swapped since. */
  ghost predicate QueuedEarly(steps: seq<Step>) {
    && Swaps(steps) == 0
    && exists i :: 0 <= i < |steps| && steps[i].LoopPush? && forall j :: 0 <= j < i ==> !steps[j].Start?
  }

  /** What a step adds to the functors queued. */
  function PushedBy(step: Step): seq<Functor> {
    match step
    case Push(_, f) => [f]
    case LoopPush(f) => [f]
    case _ => []
  }

  function WritesAfter(step: Step, before: nat): nat {
    if step.HandleRead? then 0 else before + if step.Write? || step.LoopWrite? then 1 else 0
  }

  lemma StepQueues(s: State, step: Step)
    requires Enabled(s, step)
    ensures Apply(s, step).queued == s.queued + PushedBy(step)
  {
    assert s.queued + [] == s.queued;
  }

  lemma StepSwaps(s: State, step: Step)
    requires Enabled(s, step)
    ensures Apply(s, step).swaps == s.swaps + if step.Swap? then 1 else 0
  {
    match step
    case Swap =>
    case _ =>
  }

  lemma StepStarts(s: State, step: Step)
    requires Enabled(s, step)
    ensures Apply(s, step).phase.Idle? <==> s.phase.Idle? && !step.Start?
    ensures step.Start? ==> s.phase.Idle?
    ensures step.Swap? ==> !s.phase.Idle?
  {
    match step
    case Start =>
    case Swap =>
    case _ =>
  }

  lemma StepQuits(s: State, step: Step)
    requires Enabled(s, step)
    ensures Apply(s, step).quitDuringLoop <==> s.quitDuringLoop || (IsQuit(step) && !s.phase.Idle?)
  {
  }

  lemma StepIsEarly(s: State, step: Step)
    requires Enabled(s, step)
    ensures Apply(s, step).early <==> !step.Swap? && (s.early || (step.LoopPush? && s.phase.Idle?))
  {
  }

  /** The histories are what the steps say. */
  lemma {:induction false} HistoriesTold(s: State, steps: seq<Step>, t: State)
    requires Run(s, steps, t)
    ensures t.queued == s.queued + Pushed(steps) && t.swaps == s.swaps + Swaps(steps)
    decreases |steps|
  {
    if steps != [] {
      StepSwaps(s, steps[0]);
      StepQueues(s, steps[0]);
      hide Apply, Enabled, PushedBy;
      var m := Apply(s, steps[0]);
      HistoriesTold(m, steps[1..], t);
      Reassociate(s.queued, PushedBy(steps[0]), Pushed(steps[1..]));
    } else {
      assert s.queued + [] == s.queued;
    }
  }

  lemma Reassociate(a: seq<Functor>, b: seq<Functor>, c: seq<Functor>)
    ensures a + b + c == a + (b + c)
  {
  }

  function Capped(n: nat): nat {
    if n < 0xFFFF_FFFF_FFFF_FFFE then n else 0xFFFF_FFFF_FFFF_FFFE
  }

  lemma StepCounts(s: State, step: Step, before: nat)
    requires Enabled(s, step) && s.eventfd == Capped(before)
    ensures Apply(s, step).eventfd == Capped(WritesAfter(step, before))
  {
    match step
    case HandleRead =>
    case Write(_) =>
    case LoopWrite =>
    case _ =>
  }

  /** The eventfd counts the writes since it was last read, up to its limit: the read takes the whole count. */
  lemma {:induction false} CounterTold(s: State, steps: seq<Step>, t: State, before: nat)
    requires Run(s, steps, t) && s.eventfd == Capped(before)
    ensures t.eventfd == Capped(Writes(steps, before))
    decreases |steps|
  {
    if steps != [] {
      StepCounts(s, steps[0], before);
      hide Apply, Enabled, Capped;
      CounterTold(Apply(s, steps[0]), steps[1..], t, WritesAfter(steps[0], before));
    }
  }

  lemma {:induction false} QuitTold(s: State, steps: seq<Step>, t: State)
    requires !s.phase.Idle? && Run(s, steps, t)
    ensures !t.phase.Idle?
    ensures t.quitDuringLoop <==> s.quitDuringLoop || exists j :: 0 <= j < |steps| && IsQuit(steps[j])
    decreases |steps|
  {
    if steps != [] {
      StepStarts(s, steps[0]);
      StepQuits(s, steps[0]);
      hide Apply, Enabled;
      QuitTold(Apply(s, steps[0]), steps[1..], t);
      assert forall j :: 1 <= j < |steps| ==> steps[j] == steps[1..][j - 1];
    }
  }

  lemma {:induction false} QuitFromIdleTold(s: State, steps: seq<Step>, t: State)
    requires s.phase.Idle? && !s.quitDuringLoop && Run(s, steps, t)
    ensures t.quitDuringLoop <==> QuitWhileLooping(steps)
    decreases |steps|
  {
    if steps != [] {
      StepStarts(s, steps[0]);
      StepQuits(s, steps[0]);
      hide Apply, Enabled;
      var m, rest := Apply(s, steps[0]), steps[1..];
      assert forall j :: 1 <= j < |steps| ==> steps[j] == rest[j - 1];
      if steps[0].Start? {
        QuitTold(m, rest, t);
        NoSecondStart(m, rest, t);
        if t.quitDuringLoop {
          var j :| 0 <= j < |rest| && IsQuit(rest[j]);
          assert steps[0].Start? && IsQuit(steps[j + 1]);
        }
      } else {
        QuitFromIdleTold(m, rest, t);
        if QuitWhileLooping(rest) {
          var i, j :| 0 <= i < j < |rest| && rest[i].Start? && IsQuit(rest[j]);
          assert steps[i + 1].Start? && IsQuit(steps[j + 1]);
        }
      }
    }
  }

  lemma {:induction false} NoSecondStart(s: State, steps: seq<Step>, t: State)
    requires !s.phase.Idle? && Run(s, steps, t)
    ensures forall j :: 0 <= j < |steps| ==> !steps[j].Start?
    decreases |steps|
  {
    if steps != [] {
      StepStarts(s, steps[0]);
      hide Apply, Enabled;
      NoSecondStart(Apply(s, steps[0]), steps[1..], t);
      assert forall j :: 1 <= j < |steps| ==> steps[j] == steps[1..][j - 1];
    }
  }

  lemma {:induction false} EarlyTold(s: State, steps: seq<Step>, t: State)
    requires !s.phase.Idle? && Run(s, steps, t)
    ensures t.early <==> s.early && Swaps(steps) == 0
    decreases |steps|
  {
    if steps != [] {
      StepStarts(s, steps[0]);
      StepIsEarly(s, steps[0]);
      hide Apply, Enabled;
      EarlyTold(Apply(s, steps[0]), steps[1..], t);
    }
  }

  lemma {:induction false} EarlyFromIdleTold(s: State, steps: seq<Step>, t: State)
    requires s.phase.Idle? && Run(s, steps, t)
    ensures t.early <==> (s.early && Swaps(steps) == 0) || QueuedEarly(steps)
    decreases |steps|
  {
    if steps != [] {
      StepStarts(s, steps[0]);
      StepIsEarly(s, steps[0]);
      hide Apply, Enabled;
      var m, rest := Apply(s, steps[0]), steps[1..];
      assert forall j :: 1 <= j < |steps| ==> steps[j] == rest[j - 1];
      if steps[0].Start? {
        EarlyTold(m, rest, t);
      } else {
        EarlyFromIdleTold(m, rest, t);
        if QueuedEarly(rest) {
          var i :| 0 <= i < |rest| && rest[i].LoopPush? && forall j :: 0 <= j < i ==> !rest[j].Start?;
          assert steps[i + 1].LoopPush? && forall j :: 0 <= j < i + 1 ==> !steps[j].Start?;
        }
        if QueuedEarly(steps) && !steps[0].LoopPush? {
          var i :| 0 <= i < |steps| && steps[i].LoopPush? && forall j :: 0 <= j < i ==> !steps[j].Start?;
          assert rest[i - 1].LoopPush? && forall j :: 0 <= j < i - 1 ==> !rest[j].Start?;
        }
      }
    }
  }

  // ----- What the loop promises -----

  /**
    No lost wakeup. In every interleaving, when the loop is blocked in poll and no wakeup is posted or owed,
    functors are pending exactly when the loop thread itself queued some before loop() and nothing was swapped since.
   */
  lemma NoLostWakeup(steps: seq<Step>, s: State)
    requires Run(INITIAL, steps, s) && s.phase.Polling? && s.eventfd == 0 && s.owing == {}
    ensures s.pending != [] <==> QueuedEarly(steps)
  {
    RunKeepsInv(INITIAL, steps, s);
    EarlyFromIdleTold(INITIAL, steps, s);
  }

  /** Nor is a quit() called after loop() began ever slept through. */
  lemma NoLostQuit(steps: seq<Step>, s: State)
    requires Run(INITIAL, steps, s) && s.phase.Polling? && QuitWhileLooping(steps)
    ensures 0 < s.eventfd || s.owing != {}
  {
    RunKeepsInv(INITIAL, steps, s);
    QuitFromIdleTold(INITIAL, steps, s);
  }

  /**
    Once loop() has begun the flag is up exactly when a quit() was called since: it is what the next test of the flag
    goes by, and a quit() made earlier is forgotten.
   */
  lemma QuitExactly(steps: seq<Step>, s: State)
    requires Run(INITIAL, steps, s) && !s.phase.Idle?
    ensures s.quit <==> QuitWhileLooping(steps)
    ensures s.phase.Stopped? ==> QuitWhileLooping(steps)
    ensures s.phase.Testing? ==> (Apply(s, Test).phase.Stopped? <==> QuitWhileLooping(steps))
  {
    RunKeepsInv(INITIAL, steps, s);
    QuitFromIdleTold(INITIAL, steps, s);
  }

  /** How many more batches a loop told to quit may run: one when it is past its test of the flag. */
  function BatchesLeft(s: State): nat {
    if BeforeSwap(s) then 1 else 0
  }

  predicate BeforeSwap(s: State) {
    s.phase.Polling? || s.phase.Dispatching? || s.phase.Entering?
  }

  lemma QuitStep(s: State, step: Step)
    requires Inv(s) && s.quitDuringLoop && Enabled(s, step)
    ensures var t := Apply(s, step); t.quitDuringLoop && t.swaps + BatchesLeft(t) <= s.swaps + BatchesLeft(s)
  {
  }

  lemma {:induction false} QuitRun(s: State, steps: seq<Step>, t: State)
    requires Inv(s) && s.quitDuringLoop && Run(s, steps, t)
    ensures t.quitDuringLoop && t.swaps + BatchesLeft(t) <= s.swaps + BatchesLeft(s)
    decreases |steps|
  {
    if steps != [] {
      hide Inv;
      StepKeepsInv(s, steps[0]);
      QuitStep(s, steps[0]);
      QuitRun(Apply(s, steps[0]), steps[1..], t);
    }
  }

  /** However the threads interleave, after a quit() the loop swaps at most once more. */
  lemma QuitEndsTheLoop(before: seq<Step>, s: State, after: seq<Step>, t: State)
    requires Run(INITIAL, before, s) && QuitWhileLooping(before) && Run(s, after, t)
    ensures Swaps(after) <= BatchesLeft(s)
  {
    RunKeepsInv(INITIAL, before, s);
    QuitFromIdleTold(INITIAL, before, s);
    QuitRun(s, after, t);
    HistoriesTold(s, after, t);
  }

  /**
    Each functor runs at most once and in queue order: what ran, what is left of the batch and what waits is what was
    queued, by any thread and in every interleaving.
   */
  lemma FunctorsConserved(steps: seq<Step>, s: State)
    requires Run(INITIAL, steps, s)
    ensures Pushed(steps) == s.executed + s.batch + s.pending
    ensures s.executed <= Pushed(steps)
  {
    RunKeepsInv(INITIAL, steps, s);
    HistoriesTold(INITIAL, steps, s);
    QueuedInOrder(s);
    hide Run, Pushed, Inv;
    assert [] + Pushed(steps) == Pushed(steps);
  }

  lemma QueuedInOrder(s: State)
    requires Inv(s)
    ensures s.queued == s.executed + s.batch + s.pending && s.executed <= s.queued
  {
    hide WakeupComing;
    assert s.executed + s.batch + s.pending == s.executed + (s.batch + s.pending);
  }

  /** Between two swaps the batch only drains: executed ++ batch does not move, whoever queues meanwhile. */
  lemma {:induction false} BatchOnlyDrains(s: State, steps: seq<Step>, t: State)
    requires Inv(s) && Run(s, steps, t)
    ensures s.swaps <= t.swaps
    ensures s.swaps == t.swaps ==> t.executed + t.batch == s.executed + s.batch
    decreases |steps|
  {
    if steps != [] {
      hide Inv;
      var m := Apply(s, steps[0]);
      StepKeepsInv(s, steps[0]);
      BatchOnlyDrains(m, steps[1..], t);
      if steps[0].RunFunctor? {
        assert m.executed + m.batch == s.executed + s.batch;
      }
    }
  }

  /** One doPendingFunctors call: from the swap to its end it runs exactly the functors pending at the swap. */
  lemma OneCallRunsTheBatch(s: State, steps: seq<Step>, t: State)
    requires Reachable(s) && Enabled(s, Swap) && Run(Apply(s, Swap), steps, t)
    requires Swaps(steps) == 0 && !t.phase.Running?
    ensures t.executed == s.executed + s.pending
  {
    ReachableInv(s);
    HistoriesTold(Apply(s, Swap), steps, t);
    StepKeepsInv(s, Swap);
    BatchOnlyDrains(Apply(s, Swap), steps, t);
    RunKeepsInv(Apply(s, Swap), steps, t);
  }

  lemma {:induction false} SwapTakesAll(s: State, steps: seq<Step>, t: State)
    requires Inv(s) && Run(s, steps, t) && s.swaps < t.swaps
    ensures s.queued <= t.executed + t.batch
    decreases |steps|
  {
    var m := Apply(s, steps[0]);
    StepKeepsInv(s, steps[0]);
    assert s.queued <= m.queued;
    if m.swaps == t.swaps {
      BatchOnlyDrains(m, steps[1..], t);
      assert m.executed + m.batch == s.queued;
    } else {
      SwapTakesAll(m, steps[1..], t);
    }
  }

  /** Whatever was queued while the loop was in poll has run by the time it is in poll again, or has stopped. */
  lemma EveryIterationDelivers(before: seq<Step>, s: State, after: seq<Step>, t: State)
    requires Run(INITIAL, before, s) && s.phase.Polling? && Run(s, after, t) && 0 < Swaps(after)
    requires t.phase.Polling? || t.phase.Stopped?
    ensures Pushed(before) <= t.executed
  {
    hide Apply, Enabled;
    RunKeepsInv(INITIAL, before, s);
    HistoriesTold(INITIAL, before, s);
    assert [] + Pushed(before) == Pushed(before);
    HistoriesTold(s, after, t);
    RunKeepsInv(s, after, t);
    SwapTakesAll(s, after, t);
    hide Run;
    assert t.batch == [];
  }

  lemma StepBeforeSwap(s: State, step: Step)
    requires Inv(s) && BeforeSwap(s) && Enabled(s, step)
    ensures var m := Apply(s, step);
            if step.Swap? then m.swaps == s.swaps + 1
            else
              && BeforeSwap(m) && m.swaps == s.swaps && s.pending <= m.pending
              && (s.phase.Polling? && 0 < s.eventfd && m.phase.Polling? ==> 0 < m.eventfd)
              && (m.phase.Polling? ==> s.phase.Polling?)
  {
  }

  lemma {:induction false} SwapsGrow(s: State, steps: seq<Step>, t: State)
    requires Run(s, steps, t)
    ensures s.swaps <= t.swaps
    decreases |steps|
  {
    if steps != [] {
      SwapsGrow(Apply(s, steps[0]), steps[1..], t);
    }
  }

  lemma {:induction false} UntilSwap(s: State, steps: seq<Step>, t: State)
    requires Inv(s) && BeforeSwap(s) && Run(s, steps, t) && t.swaps == s.swaps
    ensures BeforeSwap(t) && s.pending <= t.pending
    ensures t.phase.Polling? ==> s.phase.Polling?
    ensures s.phase.Polling? && 0 < s.eventfd && t.phase.Polling? ==> 0 < t.eventfd
    decreases |steps|
  {
    if steps != [] {
      hide Inv;
      StepKeepsInv(s, steps[0]);
      StepBeforeSwap(s, steps[0]);
      SwapsGrow(Apply(s, steps[0]), steps[1..], t);
      UntilSwap(Apply(s, steps[0]), steps[1..], t);
    }
  }

  /**
    A posted wakeup cannot be lost: in every run from there, poll stays ready to return until it does, and what was
    pending is still pending, and in the batch, when the next swap is made.
   */
  lemma PostedWakeupDelivers(s: State, steps: seq<Step>, t: State)
    requires Reachable(s) && s.phase.Polling? && 0 < s.eventfd
    requires Run(s, steps, t) && Swaps(steps) == 0
    ensures t.phase.Polling? ==> Enabled(t, PollReturn(true))
    ensures Enabled(t, Swap) ==> s.pending <= Apply(t, Swap).batch && Apply(t, Swap).pending == []
  {
    ReachableInv(s);
    HistoriesTold(s, steps, t);
    UntilSwap(s, steps, t);
  }

  /** And such a run there is: poll returns and the very next swap takes everything pending. */
  lemma PostedWakeupPath(s: State)
    requires Reachable(s) && s.phase.Polling? && 0 < s.eventfd
    ensures exists t ::
              Run(s, [PollReturn(true), HandleRead, EndDispatch, Swap], t) && t.batch == s.pending && t.pending == []
  {
    ReachableInv(s);
    var a := Apply(s, PollReturn(true));
    var b := Apply(a, HandleRead);
    var c := Apply(b, EndDispatch);
    var d := Apply(c, Swap);
    assert Run(d, [], d);
    assert Run(c, [Swap], d);
    assert [EndDispatch, Swap][1..] == [Swap];
    assert Run(b, [EndDispatch, Swap], d);
    assert [HandleRead, EndDispatch, Swap][1..] == [EndDispatch, Swap];
    assert Run(a, [HandleRead, EndDispatch, Swap], d);
    assert [PollReturn(true), HandleRead, EndDispatch, Swap][1..] == [HandleRead, EndDispatch, Swap];
  }

  /** The rule needs its assumption: a functor the loop thread queues before loop() sleeps through the first poll. */
  lemma EarlyQueueSleeps(f: Functor)
    ensures exists s ::
              && Run(INITIAL, [LoopPush(f), Start, Test], s)
              && s.phase.Polling? && s.pending == [f] && !WakeupComing(s)
  {
    var a := Apply(INITIAL, LoopPush(f));
    var b := Apply(a, Start);
    var c := Apply(b, Test);
    assert Run(c, [], c);
    assert Run(b, [Test], c);
    assert [Start, Test][1..] == [Test];
    assert Run(a, [Start, Test], c);
    assert [LoopPush(f), Start, Test][1..] == [Start, Test];
  }

  /** Likewise a quit() made before loop() is overwritten: the loop goes to poll with the flag down. */
  lemma EarlyQuitIsOverwritten(t: ThreadId)
    ensures exists s :: Run(INITIAL, [Quit(t), Start, Test], s) && s.phase.Polling? && !s.quit
  {
    var a := Apply(INITIAL, Quit(t));
    var b := Apply(a, Start);
    var c := Apply(b, Test);
    assert Run(c, [], c);
    assert Run(b, [Test], c);
    assert [Start, Test][1..] == [Test];
    assert Run(a, [Start, Test], c);
    assert [Quit(t), Start, Test][1..] == [Start, Test];
  }
}

/** The object itself: its methods, each a sequence of the machine's steps, over the real fields. */
module EventLoops {
  import opened Bytes
  import opened EventLoopMachine

  /** A functor queued while another runs: by that functor, in the loop thread, or by another thread. */
  datatype Request = ByFunctor(f: Functor) | ByThread(t: ThreadId, f: Functor)

  function Functors(requests: seq<Request>): (fs: seq<Functor>)
    ensures |fs| == |requests| && forall i :: 0 <= i < |fs| ==> fs[i] == requests[i].f
  {
    if requests == [] then [] else Functors(requests[..|requests| - 1]) + [requests[|requests| - 1].f]
  }

  lemma RunningCalls(s: State)
    requires Inv(s) && s.phase.Running?
    ensures s.calling
  {
  }

  lemma FunctorsNext(requests: seq<Request>, r: Request)
    ensures Functors(requests + [r]) == Functors(requests) + [r.f]
  {
    assert (requests + [r])[..|requests|] == requests;
  }

  class EventLoop {
    var quit: bool
    var callingPendingFunctors: bool
    var pendingFunctors: seq<Functor>
    var eventfd: nat
    ghost var m: State

    ghost predicate Valid()
      reads this
    {
      && Inv(m)
      && quit == m.quit && callingPendingFunctors == m.calling
      && pendingFunctors == m.pending && eventfd == m.eventfd
    }

    constructor ()
      ensures Valid() && m == INITIAL
    {
      quit, callingPendingFunctors, pendingFunctors, eventfd := false, false, [], 0;
      m := INITIAL;
    }

    /** Advances the specification state by one step. */
    ghost method Advance(step: Step)
      requires Inv(m) && Enabled(m, step)
      modifies this`m
      ensures m == Apply(old(m), step) && Inv(m)
    {
      StepKeepsInv(m, step);
      m := Apply(m, step);
    }

    method Wakeup()
      modifies this`eventfd
      ensures eventfd == Bump(old(eventfd))
    {
      if eventfd < EVENTFD_MAX {
        eventfd := eventfd + 1;
      }
    }

    /** The eventfd's read: it takes the whole count. */
    method HandleRead()
      requires Valid() && Enabled(m, Step.HandleRead)
      modifies this
      ensures Valid() && m == Apply(old(m), Step.HandleRead) && eventfd == 0
    {
      eventfd := 0;
      Advance(Step.HandleRead);
    }

    /** queueInLoop from another thread: the push, then always the write. */
    method QueueFromThread(cb: Functor, ghost t: ThreadId)
      requires Valid() && t !in m.owing
      modifies this
      ensures Valid() && m == Apply(Apply(old(m), Push(t, cb)), Write(t))
      ensures pendingFunctors == old(pendingFunctors) + [cb] && 0 < eventfd
    {
      pendingFunctors := pendingFunctors + [cb];
      Advance(Push(t, cb));
      Wakeup();
      Advance(Write(t));
    }

    /** queueInLoop from the loop thread: it writes only while functors are being called. */
    method QueueFromLoop(cb: Functor)
      requires Valid() && Enabled(m, LoopPush(cb))
      modifies this
      ensures Valid()
      ensures pendingFunctors == old(pendingFunctors) + [cb]
      ensures if old(callingPendingFunctors) then 0 < eventfd else eventfd == old(eventfd)
      ensures m == var pushed := Apply(old(m), LoopPush(cb));
                   if old(m).calling then Apply(pushed, LoopWrite) else pushed
    {
      pendingFunctors := pendingFunctors + [cb];
      Advance(LoopPush(cb));
      if callingPendingFunctors {
        Wakeup();
        Advance(LoopWrite);
      }
    }

    /** runInLoop: at once in the loop thread, through the queue from any other. */
    method RunInLoop(cb: Functor, inLoopThread: bool, ghost t: ThreadId) returns (calledNow: bool)
      requires Valid() && t !in m.owing
      modifies this
      ensures Valid() && calledNow == inLoopThread
      ensures m == if inLoopThread then old(m) else Apply(Apply(old(m), Push(t, cb)), Write(t))
      ensures pendingFunctors == old(pendingFunctors) + if inLoopThread then [] else [cb]
      ensures if inLoopThread then eventfd == old(eventfd) else 0 < eventfd
    {
      calledNow := inLoopThread;
      if !inLoopThread {
        QueueFromThread(cb, t);
      }
    }

    method QuitFromThread(ghost t: ThreadId)
      requires Valid() && t !in m.owing
      modifies this
      ensures Valid() && m == Apply(Apply(old(m), Step.Quit(t)), Write(t))
      ensures quit && 0 < eventfd && pendingFunctors == old(pendingFunctors)
    {
      quit := true;
      Advance(Step.Quit(t));
      Wakeup();
      Advance(Write(t));
    }

    /**
      Runs the functors pending at the swap and no others: `requests[i]` is what gets queued while the i-th one runs,
      and all of it waits for the next call, with a wakeup posted if there is any.
     */
    method DoPendingFunctors(requests: seq<seq<Request>>)
      requires Valid() && Enabled(m, EndDispatch) && |requests| == |pendingFunctors|
      requires forall i, j :: 0 <= i < |requests| && 0 <= j < |requests[i]| && requests[i][j].ByThread? ==>
                 requests[i][j].t !in m.owing
      modifies this
      ensures Valid() && m.phase.Testing? && !callingPendingFunctors
      ensures m.executed == old(m.executed) + old(pendingFunctors)
      ensures pendingFunctors == Functors(Flatten(requests))
      ensures pendingFunctors != [] ==> 0 < eventfd
      ensures m.owing == old(m.owing) && m.swaps == old(m.swaps) + 1
    {
      Advance(EndDispatch);
      callingPendingFunctors := true;
      var functors := pendingFunctors;
      pendingFunctors := [];
      Advance(Swap);
      RunBatch(functors, requests);
      Advance(EndFunctors);
      callingPendingFunctors := false;
    }

    /** The loop over the swapped-out vector. */
    method RunBatch(functors: seq<Functor>, requests: seq<seq<Request>>)
      requires Valid() && m.phase.Running? && !m.loopOwes && m.batch == functors && pendingFunctors == []
      requires |requests| == |functors|
      requires forall i, j :: 0 <= i < |requests| && 0 <= j < |requests[i]| && requests[i][j].ByThread? ==>
                 requests[i][j].t !in m.owing
      modifies this
      ensures Valid() && m.phase.Running? && !m.loopOwes && m.batch == []
      ensures m.executed == old(m.executed) + functors
      ensures pendingFunctors == Functors(Flatten(requests)) && (pendingFunctors != [] ==> 0 < eventfd)
      ensures m.owing == old(m.owing) && m.swaps == old(m.swaps)
    {
      hide Inv, Functors, Flatten;
      NothingAsked();
      var i := 0;
      assert functors[0..] == functors && requests[..0] == [];
      while i < |functors|
        invariant 0 <= i <= |functors|
        invariant Valid() && m.phase.Running? && !m.loopOwes && m.owing == old(m.owing) && m.swaps == old(m.swaps)
        invariant m.batch == functors[i..]
        invariant m.executed == old(m.executed) + functors[..i]
        invariant pendingFunctors == Functors(Flatten(requests[..i]))
        invariant pendingFunctors != [] ==> 0 < eventfd
      {
        assert functors[..i + 1] == functors[..i] + [functors[i]];
        Advance(RunFunctor);
        RunBody(requests[i], Flatten(requests[..i]));
        FlattenNext(requests, i);
        i := i + 1;
      }
      assert functors[..i] == functors && requests[..|requests|] == requests;
    }

    lemma NothingAsked()
      ensures Functors(Flatten([])) == []
    {
    }

    /** What is queued while one functor runs, in the order it is queued. */
    method RunBody(requests: seq<Request>, ghost before: seq<Request>)
      requires Valid() && m.phase.Running? && !m.loopOwes
      requires forall j :: 0 <= j < |requests| && requests[j].ByThread? ==> requests[j].t !in m.owing
      requires pendingFunctors == Functors(before) && (pendingFunctors != [] ==> 0 < eventfd)
      modifies this
      ensures Valid() && m.phase.Running? && !m.loopOwes
      ensures m.owing == old(m.owing) && m.swaps == old(m.swaps)
      ensures m.batch == old(m.batch) && m.executed == old(m.executed)
      ensures pendingFunctors == Functors(before + requests) && (pendingFunctors != [] ==> 0 < eventfd)
    {
      hide Inv, Functors;
      var j := 0;
      assert before + requests[..0] == before;
      while j < |requests|
        invariant 0 <= j <= |requests|
        invariant Valid() && m.phase.Running? && !m.loopOwes
        invariant m.owing == old(m.owing) && m.swaps == old(m.swaps)
        invariant m.batch == old(m.batch) && m.executed == old(m.executed)
        invariant pendingFunctors == Functors(before + requests[..j]) && (pendingFunctors != [] ==> 0 < eventfd)
      {
        RunningCalls(m);
        FunctorsNext(before + requests[..j], requests[j]);
        assert before + requests[..j + 1] == before + requests[..j] + [requests[j]];
        match requests[j] {
          case ByFunctor(f) => QueueFromLoop(f);
          case ByThread(t, f) => QueueFromThread(f, t);
        }
        j := j + 1;
      }
      assert requests[..|requests|] == requests;
    }
  }
}
