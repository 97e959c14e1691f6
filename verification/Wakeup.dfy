/**
 The functor queue and the eventfd of one loop, as interleaved steps of the loop thread
 and any number of other threads. A step is what one lock, one atomic access or one system call
 makes visible.
 */
module Wakeup {
  import ConnectionSpec

  /** Fewer than 8 bytes and write(2) on an eventfd fails with EINVAL, leaving the counter alone. */
  const EVENTFD_WIDTH := 8

  /** The width eventloop.cpp:186 passes. */
  const SOURCE_WIDTH := 2

  type FunctorId = ConnectionSpec.Functor

  datatype LoopPc = Testing | AtPoll | Handling(reported: bool) | Swapping | Executing | Stopped

  /** Another thread: outside, or past the push (or the store of quit) but not yet past wakeup(). */
  datatype ThreadPc = Outside | Pushed | Quitting

  datatype State = State(
    pc: LoopPc, looping: bool, calling: bool, owesWakeup: bool, counter: nat,
    pending: seq<FunctorId>, batch: seq<FunctorId>,
    executed: seq<FunctorId>, pushed: seq<FunctorId>,
    threads: map<nat, ThreadPc>)

  /** loop() has stored true in m_bLooping. */
  const STARTED := State(Testing, true, false, false, 0, [], [], [], [], map[])

  datatype Event =
    | Test                                // while(m_bLooping.load())
    | PollReturn(reported: bool)          // the eventfd is, or is not, among the ready descriptors
    | HandleRead                          // EventLoop::handleRead
    | EndHandlers                         // m_bCallingPendingFactors = true
    | Swap
    | RunFunctor
    | LoopQueue(f: FunctorId)             // queueInLoop from a handler or a functor: the push
    | LoopWakeup                          // ... and its wakeup()
    | LoopQuit
    | EndFunctors
    | Push(thread: nat, f: FunctorId)     // queueInLoop from another thread: the push
    | Wake(thread: nat)                   // ... and its wakeup(), or that of quit()
    | Quit(thread: nat)

  function PcOf(s: State, thread: nat): ThreadPc {
    if thread in s.threads then s.threads[thread] else Outside
  }

  function Woken(width: nat, counter: nat): nat {
    if width >= EVENTFD_WIDTH then counter + 1 else counter
  }

  predicate Legal(s: State, e: Event) {
    match e
    case Test => s.pc == Testing
    case PollReturn(reported) => s.pc == AtPoll && (reported ==> s.counter > 0)
    case HandleRead => s.pc == Handling(true) && !s.owesWakeup
    case EndHandlers => s.pc.Handling? && !s.pc.reported && !s.owesWakeup
    case Swap => s.pc == Swapping
    case RunFunctor => s.pc == Executing && s.batch != [] && !s.owesWakeup
    case LoopQueue(_) => (s.pc.Handling? || s.pc == Executing) && !s.owesWakeup
    case LoopWakeup => s.owesWakeup
    case LoopQuit => (s.pc.Handling? || s.pc == Executing) && !s.owesWakeup
    case EndFunctors => s.pc == Executing && s.batch == [] && !s.owesWakeup
    case Push(t, _) => PcOf(s, t) == Outside
    case Wake(t) => PcOf(s, t) != Outside
    case Quit(t) => PcOf(s, t) == Outside
  }

  function Step(width: nat, s: State, e: Event): State
    requires Legal(s, e)
  {
    match e
    case Test => s.(pc := if s.looping then AtPoll else Stopped)
    case PollReturn(reported) => s.(pc := Handling(reported))
    case HandleRead => s.(pc := Handling(false), counter := 0)
    case EndHandlers => s.(pc := Swapping, calling := true)
    case Swap => s.(pc := Executing, batch := s.pending, pending := [])
    case RunFunctor => s.(batch := s.batch[1..], executed := s.executed + [s.batch[0]])
    case LoopQueue(f) => s.(pending := s.pending + [f], pushed := s.pushed + [f], owesWakeup := s.calling)
    case LoopWakeup => s.(owesWakeup := false, counter := Woken(width, s.counter))
    case LoopQuit => s.(looping := false)
    case EndFunctors => s.(pc := Testing, calling := false)
    case Push(t, f) => s.(pending := s.pending + [f], pushed := s.pushed + [f], threads := s.threads[t := Pushed])
    case Wake(t) => s.(threads := s.threads[t := Outside], counter := Woken(width, s.counter))
    case Quit(t) => s.(looping := false, threads := s.threads[t := Quitting])
  }

  ghost predicate LegalRun(width: nat, s: State, run: seq<Event>)
    decreases |run|
  {
    run == [] || (Legal(s, run[0]) && LegalRun(width, Step(width, s, run[0]), run[1..]))
  }

  ghost function Exec(width: nat, s: State, run: seq<Event>): State
    requires LegalRun(width, s, run)
    decreases |run|
  {
    if run == [] then s else Exec(width, Step(width, s, run[0]), run[1..])
  }

  lemma {:induction false} RunThen(width: nat, s: State, run: seq<Event>, more: seq<Event>)
    requires LegalRun(width, s, run) && LegalRun(width, Exec(width, s, run), more)
    ensures LegalRun(width, s, run + more)
    ensures Exec(width, s, run + more) == Exec(width, Exec(width, s, run), more)
    decreases |run|
  {
    if run == [] {
      assert run + more == more;
    } else {
      assert (run + more)[0] == run[0] && (run + more)[1..] == run[1..] + more;
      RunThen(width, Step(width, s, run[0]), run[1..], more);
    }
  }

  // -------------------------------------------------------------------------------------------
  // Who does what in a run

  /** A step of another thread. */
  predicate ByThread(e: Event) {
    e.Push? || e.Wake? || e.Quit?
  }

  /** What another thread tries to do, if it is at that point. */
  function Attempt(width: nat, s: State, e: Event): State {
    if ByThread(e) && Legal(s, e) then Step(width, s, e) else s
  }

  function Attempts(width: nat, s: State, events: seq<Event>): State {
    if events == [] then s else Attempt(width, Attempts(width, s, events[..|events| - 1]), events[|events| - 1])
  }

  function OwnOf(e: Event): seq<Event> {
    if ByThread(e) then [] else [e]
  }

  function PushOf(e: Event): seq<FunctorId> {
    match e
    case LoopQueue(f) => [f]
    case Push(_, f) => [f]
    case _ => []
  }

  function WakeupOf(e: Event): nat {
    if e.Wake? || e.LoopWakeup? then 1 else 0
  }

  /** The loop thread's own steps of a run. */
  function Own(run: seq<Event>): seq<Event> {
    if run == [] then [] else OwnOf(run[0]) + Own(run[1..])
  }

  /** What a run pushes, in order, whoever pushes it. */
  function Pushes(run: seq<Event>): seq<FunctorId> {
    if run == [] then [] else PushOf(run[0]) + Pushes(run[1..])
  }

  /** How often a run writes the eventfd. */
  function Wakeups(run: seq<Event>): nat {
    if run == [] then 0 else WakeupOf(run[0]) + Wakeups(run[1..])
  }

  lemma {:induction false} OwnAppend(run: seq<Event>, more: seq<Event>)
    ensures Own(run + more) == Own(run) + Own(more)
    decreases |run|
  {
    if run == [] {
      assert run + more == more;
    } else {
      assert (run + more)[0] == run[0] && (run + more)[1..] == run[1..] + more;
      OwnAppend(run[1..], more);
      assert Own(run + more) == OwnOf(run[0]) + (Own(run[1..]) + Own(more));
    }
  }

  /** A run, then what follows it. */
  lemma AndThen(width: nat, s: State, run: seq<Event>, more: seq<Event>)
    requires LegalRun(width, s, run) && LegalRun(width, Exec(width, s, run), more)
    ensures LegalRun(width, s, run + more) && Own(run + more) == Own(run) + Own(more)
    ensures Exec(width, s, run + more) == Exec(width, Exec(width, s, run), more)
  {
    RunThen(width, s, run, more);
    OwnAppend(run, more);
  }

  lemma {:induction false} PushesAppend(run: seq<Event>, more: seq<Event>)
    ensures Pushes(run + more) == Pushes(run) + Pushes(more)
    decreases |run|
  {
    if run == [] {
      assert run + more == more;
    } else {
      assert (run + more)[0] == run[0] && (run + more)[1..] == run[1..] + more;
      PushesAppend(run[1..], more);
      assert Pushes(run + more) == PushOf(run[0]) + (Pushes(run[1..]) + Pushes(more));
    }
  }

  lemma {:induction false} WakeupsAppend(run: seq<Event>, more: seq<Event>)
    ensures Wakeups(run + more) == Wakeups(run) + Wakeups(more)
    decreases |run|
  {
    if run == [] {
      assert run + more == more;
    } else {
      assert (run + more)[0] == run[0] && (run + more)[1..] == run[1..] + more;
      WakeupsAppend(run[1..], more);
    }
  }

  lemma {:induction false} OwnAlone(run: seq<Event>)
    requires forall e :: e in run ==> !ByThread(e)
    ensures Own(run) == run
    decreases |run|
  {
    if run != [] {
      assert run[0] in run;
      OwnAlone(run[1..]);
    }
  }

  /** Between two swaps the pending list grows by exactly what is pushed, */
  lemma {:induction false} PendingGrows(width: nat, s: State, run: seq<Event>)
    requires LegalRun(width, s, run) && Swap !in run
    ensures Exec(width, s, run).pending == s.pending + Pushes(run)
    decreases |run|
  {
    if run == [] {
      assert s.pending + [] == s.pending;
    } else {
      var s1 := Step(width, s, run[0]);
      PendingGrows(width, s1, run[1..]);
      assert run[0] in run;
      assert s1.pending == s.pending + PushOf(run[0]);
      assert s.pending + (PushOf(run[0]) + Pushes(run[1..])) == s1.pending + Pushes(run[1..]);
    }
  }

  /** and between two reads the counter by the wakeups that are wide enough. */
  lemma {:induction false} CounterGrows(width: nat, s: State, run: seq<Event>)
    requires LegalRun(width, s, run) && HandleRead !in run && width >= EVENTFD_WIDTH
    ensures Exec(width, s, run).counter == s.counter + Wakeups(run)
    decreases |run|
  {
    if run != [] {
      assert run[0] in run;
      CounterGrows(width, Step(width, s, run[0]), run[1..]);
    }
  }

  // -------------------------------------------------------------------------------------------
  // Invariant

  ghost predicate SomeThread(s: State, pc: ThreadPc) {
    exists t :: t in s.threads && s.threads[t] == pc
  }

  /** A wakeup has reached the eventfd, or the step that brings it there is next for somebody. */
  ghost predicate WakeupComing(s: State) {
    s.counter > 0 || s.owesWakeup || SomeThread(s, Pushed)
  }

  ghost predicate QuitComing(s: State) {
    s.counter > 0 || SomeThread(s, Quitting)
  }

  /** executed, then the unexecuted rest of the batch, then pending: everything ever pushed, in order. */
  ghost predicate FifoOk(s: State) {
    s.executed + s.batch + s.pending == s.pushed
  }

  ghost predicate LoopOk(s: State) {
    && (s.calling <==> s.pc == Swapping || s.pc == Executing)
    && (s.owesWakeup ==> s.pc == Executing)
    && (s.batch != [] ==> s.pc == Executing)
  }

  /** From the swap to the next poll, nothing waits unannounced. */
  ghost predicate WakeupOk(s: State) {
    && (s.pc in {Executing, Testing, AtPoll} && s.pending != [] ==> WakeupComing(s))
    && (s.pc == AtPoll && !s.looping ==> QuitComing(s))
  }

  lemma StepKeepsQueue(width: nat, s: State, e: Event)
    requires FifoOk(s) && LoopOk(s) && Legal(s, e)
    ensures FifoOk(Step(width, s, e)) && LoopOk(Step(width, s, e))
  {
    var s' := Step(width, s, e);
    match e
    case LoopQueue(f) => assert s'.executed + s'.batch + s'.pending == (s.executed + s.batch + s.pending) + [f];
    case Push(_, f) => assert s'.executed + s'.batch + s'.pending == (s.executed + s.batch + s.pending) + [f];
    case Swap => assert s'.executed + s'.batch + s'.pending == s.executed + s.batch + s.pending;
    case RunFunctor =>
      assert s.batch == [s.batch[0]] + s.batch[1..];
      assert s'.executed + s'.batch == s.executed + s.batch;
    case _ =>
  }

  lemma StepKeepsWakeup(width: nat, s: State, e: Event)
    requires width >= EVENTFD_WIDTH && LoopOk(s) && WakeupOk(s) && Legal(s, e)
    ensures WakeupOk(Step(width, s, e))
  {
    var s' := Step(width, s, e);
    match e
    case Push(t, f) =>
      assert s'.threads[t] == Pushed;
      assert forall u :: u in s.threads && s.threads[u] == Quitting ==> u != t && s'.threads[u] == Quitting;
    case Quit(t) =>
      assert s'.threads[t] == Quitting;
      assert forall u :: u in s.threads && s.threads[u] == Pushed ==> u != t && s'.threads[u] == Pushed;
    case _ =>
  }

  lemma {:induction false} RunKeepsQueue(width: nat, s: State, run: seq<Event>)
    requires FifoOk(s) && LoopOk(s) && LegalRun(width, s, run)
    ensures FifoOk(Exec(width, s, run)) && LoopOk(Exec(width, s, run))
    decreases |run|
  {
    if run != [] {
      StepKeepsQueue(width, s, run[0]);
      RunKeepsQueue(width, Step(width, s, run[0]), run[1..]);
    }
  }

  lemma {:induction false} RunKeepsWakeup(width: nat, s: State, run: seq<Event>)
    requires width >= EVENTFD_WIDTH && FifoOk(s) && LoopOk(s) && WakeupOk(s) && LegalRun(width, s, run)
    ensures WakeupOk(Exec(width, s, run))
    decreases |run|
  {
    if run != [] {
      StepKeepsQueue(width, s, run[0]);
      StepKeepsWakeup(width, s, run[0]);
      RunKeepsWakeup(width, Step(width, s, run[0]), run[1..]);
    }
  }

  // -------------------------------------------------------------------------------------------
  // Theorems

  /**
   Exactly once, in push order, in every interleaving and whatever the wakeups do: what has
   run is a prefix of what was pushed, and nothing pushed is missing or doubled.
   */
  lemma ExactlyOnceInOrder(width: nat, run: seq<Event>)
    requires LegalRun(width, STARTED, run)
    ensures var s := Exec(width, STARTED, run);
      && s.executed <= s.pushed
      && s.pushed[|s.executed|..] == s.batch + s.pending
  {
    RunKeepsQueue(width, STARTED, run);
    var s := Exec(width, STARTED, run);
    assert s.pushed == s.executed + (s.batch + s.pending);
  }

  /**
   At poll, a queued functor has its wakeup in the eventfd or about to be written, and so
   has a quit; with every thread outside, the poll returns at once.
   */
  ghost predicate NeverSleepsOnWork(s: State) {
    && (s.pc == AtPoll && s.pending != [] ==> s.counter > 0 || SomeThread(s, Pushed))
    && (s.pc == AtPoll && !s.looping ==> s.counter > 0 || SomeThread(s, Quitting))
  }

  lemma NoLostWakeup(width: nat, run: seq<Event>)
    requires width >= EVENTFD_WIDTH && LegalRun(width, STARTED, run)
    ensures NeverSleepsOnWork(Exec(width, STARTED, run))
  {
    RunKeepsQueue(width, STARTED, run);
    RunKeepsWakeup(width, STARTED, run);
  }

  /**
   So the loop gets to the work: at poll with functors queued and every thread outside, the
   eventfd is readable, and the round it starts swaps in all of them.
   */
  lemma QueuedWorkRunsNext(width: nat, run: seq<Event>)
    requires width >= EVENTFD_WIDTH && LegalRun(width, STARTED, run)
    requires var s := Exec(width, STARTED, run);
      s.pc == AtPoll && s.pending != [] && forall t :: t in s.threads ==> s.threads[t] == Outside
    ensures var s, round := Exec(width, STARTED, run), [PollReturn(true), HandleRead, EndHandlers, Swap];
      LegalRun(width, s, round) && Exec(width, s, round).batch == s.pending
  {
    NoLostWakeup(width, run);
    RunKeepsQueue(width, STARTED, run);
    var s := Exec(width, STARTED, run);
    var s1 := Step(width, s, PollReturn(true));
    var s2 := Step(width, s1, HandleRead);
    var s3 := Step(width, s2, EndHandlers);
    var s4 := Step(width, s3, Swap);
    assert [PollReturn(true), HandleRead, EndHandlers, Swap][1..] == [HandleRead, EndHandlers, Swap];
    assert [HandleRead, EndHandlers, Swap][1..] == [EndHandlers, Swap];
    assert [EndHandlers, Swap][1..] == [Swap];
    assert [Swap][1..] == [];
    assert LegalRun(width, s4, []) && Exec(width, s4, []) == s4;
    assert LegalRun(width, s3, [Swap]) && Exec(width, s3, [Swap]) == s4;
    assert LegalRun(width, s2, [EndHandlers, Swap]) && Exec(width, s2, [EndHandlers, Swap]) == s4;
    assert LegalRun(width, s1, [HandleRead, EndHandlers, Swap]) && Exec(width, s1, [HandleRead, EndHandlers, Swap]) == s4;
  }

  /** With a narrower write, one push from another thread is enough to be lost. */
  lemma NarrowWriteLosesWakeup(width: nat, f: FunctorId)
    requires width < EVENTFD_WIDTH
    ensures var run := [Test, Push(0, f), Wake(0)];
      LegalRun(width, STARTED, run) && !NeverSleepsOnWork(Exec(width, STARTED, run))
  {
    var s1 := Step(width, STARTED, Test);
    var s2 := Step(width, s1, Push(0, f));
    var s3 := Step(width, s2, Wake(0));
    assert Legal(s1, Push(0, f)) && Legal(s2, Wake(0));
    assert [Test, Push(0, f), Wake(0)][1..] == [Push(0, f), Wake(0)];
    assert [Push(0, f), Wake(0)][1..] == [Wake(0)];
    assert [Wake(0)][1..] == [];
    assert s3.counter == 0 && s3.threads == map[0 := Outside] && s3.pending == [f];
    assert LegalRun(width, s3, []) && Exec(width, s3, []) == s3;
    assert LegalRun(width, s2, [Wake(0)]) && Exec(width, s2, [Wake(0)]) == s3;
    assert LegalRun(width, s1, [Push(0, f), Wake(0)]) && Exec(width, s1, [Push(0, f), Wake(0)]) == s3;
  }

  /** No wakeup is ever lost exactly when wakeup() writes the eight bytes an eventfd needs; the source writes two. */
  lemma NoLostWakeupExactly(width: nat)
    ensures (forall run :: LegalRun(width, STARTED, run) ==> NeverSleepsOnWork(Exec(width, STARTED, run)))
            <==> width >= EVENTFD_WIDTH
    ensures SOURCE_WIDTH < EVENTFD_WIDTH
  {
    if width >= EVENTFD_WIDTH {
      forall run | LegalRun(width, STARTED, run)
        ensures NeverSleepsOnWork(Exec(width, STARTED, run))
      {
        NoLostWakeup(width, run);
      }
    } else {
      NarrowWriteLosesWakeup(width, ConnectionSpec.Client);
    }
  }

  function Runs(run: seq<Event>): nat {
    if run == [] then 0 else (if run[0] == RunFunctor then 1 else 0) + Runs(run[1..])
  }

  /**
   A batch ends: until EndFunctors, whatever is queued meanwhile by functors or threads, the
   functors run are exactly the next ones of the swapped batch, so at most as many run as it held.
   */
  lemma {:induction false} BatchIsFixed(width: nat, s: State, run: seq<Event>)
    requires s.pc == Executing && LegalRun(width, s, run) && EndFunctors !in run && LoopOk(s)
    ensures var s' := Exec(width, s, run);
      && s'.pc == Executing
      && Runs(run) <= |s.batch|
      && s'.batch == s.batch[Runs(run)..]
      && s'.executed == s.executed + s.batch[..Runs(run)]
    decreases |run|
  {
    if run == [] {
      assert s.executed + [] == s.executed;
    } else {
      var s1 := Step(width, s, run[0]);
      StepKeepsLoop(width, s, run[0]);
      assert forall e :: e in run[1..] ==> e in run;
      BatchIsFixed(width, s1, run[1..]);
      if run[0] == RunFunctor {
        TakesNext(s.executed, s.batch, Runs(run[1..]));
      }
    }
  }

  lemma TakesNext(executed: seq<FunctorId>, batch: seq<FunctorId>, n: nat)
    requires n < |batch|
    ensures executed + batch[..n + 1] == (executed + [batch[0]]) + batch[1..][..n]
    ensures batch[n + 1..] == batch[1..][n..]
  {
  }

  lemma StepKeepsLoop(width: nat, s: State, e: Event)
    requires LoopOk(s) && Legal(s, e)
    ensures LoopOk(Step(width, s, e))
  {
  }
}
