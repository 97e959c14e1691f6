/**
 EventLoop as the object it is: fields updated in place by its own thread, while other threads
 queue functors and ask it to quit between any two of its steps. Every method shows the run of the
 machine of Wakeup.dfy that it is, other threads' steps included, so that machine's theorems hold of it.
 */
module EventLoopObject {
  import opened Wakeup
  import PollerObjects

  /** The loop thread's own steps in queueing a functor: the push, and its wakeup while a batch is running. */
  function AnnounceOne(calling: bool, f: FunctorId): seq<Event> {
    if calling then [LoopQueue(f), LoopWakeup] else [LoopQueue(f)]
  }

  /** In queueing several. */
  function Announce(calling: bool, fs: seq<FunctorId>): seq<Event> {
    if fs == [] then [] else Announce(calling, fs[..|fs| - 1]) + AnnounceOne(calling, fs[|fs| - 1])
  }

  /** And in running a batch whose functors queue these lists: each functor, then what it queues. */
  function BatchSteps(lists: seq<seq<FunctorId>>): seq<Event> {
    if lists == [] then [] else FunctorSteps(lists[0]) + BatchSteps(lists[1..])
  }

  function FunctorSteps(fs: seq<FunctorId>): seq<Event> {
    [RunFunctor] + Announce(true, fs)
  }

  /** All of those lists. */
  function Spawned(lists: seq<seq<FunctorId>>): seq<FunctorId> {
    if lists == [] then [] else lists[0] + Spawned(lists[1..])
  }

  /** What the functors of a batch queue, the first of them being the `from`-th to run. */
  function Queues(queues: (nat, FunctorId) -> seq<FunctorId>, from: nat, batch: seq<FunctorId>): (lists: seq<seq<FunctorId>>)
    ensures |lists| == |batch| && forall i :: 0 <= i < |batch| ==> lists[i] == queues(from + i, batch[i])
  {
    seq(|batch|, i requires 0 <= i < |batch| => queues(from + i, batch[i]))
  }

  lemma OnePush(calling: bool, f: FunctorId)
    ensures Pushes(AnnounceOne(calling, f)) == [f]
    ensures calling ==> Wakeups(AnnounceOne(calling, f)) == 1
  {
    assert [LoopWakeup][1..] == [];
    assert AnnounceOne(calling, f)[1..] == if calling then [LoopWakeup] else [];
  }

  lemma {:induction false} AnnouncePushes(calling: bool, fs: seq<FunctorId>)
    ensures Pushes(Announce(calling, fs)) == fs
    decreases |fs|
  {
    if fs != [] {
      var front, f := fs[..|fs| - 1], fs[|fs| - 1];
      OnePush(calling, f);
      AnnouncePushes(calling, front);
      PushesAppend(Announce(calling, front), AnnounceOne(calling, f));
    }
  }

  lemma {:induction false} AnnounceWakes(fs: seq<FunctorId>)
    ensures Wakeups(Announce(true, fs)) == |fs|
    decreases |fs|
  {
    if fs != [] {
      var front, f := fs[..|fs| - 1], fs[|fs| - 1];
      OnePush(true, f);
      AnnounceWakes(front);
      WakeupsAppend(Announce(true, front), AnnounceOne(true, f));
    }
  }

  lemma {:induction false} AnnounceHasNoSwap(calling: bool, fs: seq<FunctorId>)
    ensures Swap !in Announce(calling, fs) && HandleRead !in Announce(calling, fs)
    decreases |fs|
  {
    if fs != [] {
      AnnounceHasNoSwap(calling, fs[..|fs| - 1]);
    }
  }

  lemma HeadMoves(executed: seq<FunctorId>, batch: seq<FunctorId>)
    requires batch != []
    ensures (executed + [batch[0]]) + batch[1..] == executed + batch
  {
  }

  /** The next functor's steps move from those to come to those done. */
  lemma NextOfBatch(all: seq<Event>, done: seq<Event>, lists: seq<seq<FunctorId>>)
    requires lists != [] && done + BatchSteps(lists) == all
    ensures (done + FunctorSteps(lists[0])) + BatchSteps(lists[1..]) == all
  {
    assert done + (FunctorSteps(lists[0]) + BatchSteps(lists[1..])) == all;
  }

  lemma FunctorPushes(fs: seq<FunctorId>)
    ensures Pushes(FunctorSteps(fs)) == fs && Wakeups(FunctorSteps(fs)) == |fs|
  {
    var more := Announce(true, fs);
    AnnouncePushes(true, fs);
    AnnounceWakes(fs);
    assert FunctorSteps(fs)[1..] == more;
  }

  lemma {:induction false} BatchPushes(lists: seq<seq<FunctorId>>)
    ensures Pushes(BatchSteps(lists)) == Spawned(lists)
    ensures Wakeups(BatchSteps(lists)) == |Spawned(lists)|
    decreases |lists|
  {
    if lists != [] {
      BatchPushes(lists[1..]);
      FunctorPushes(lists[0]);
      PushesAppend(FunctorSteps(lists[0]), BatchSteps(lists[1..]));
      WakeupsAppend(FunctorSteps(lists[0]), BatchSteps(lists[1..]));
    }
  }

  lemma {:induction false} BatchHasNoSwap(lists: seq<seq<FunctorId>>)
    ensures Swap !in BatchSteps(lists) && HandleRead !in BatchSteps(lists)
    decreases |lists|
  {
    if lists != [] {
      BatchHasNoSwap(lists[1..]);
      AnnounceHasNoSwap(true, lists[0]);
    }
  }

  /** Taking away other threads' steps takes away none of the loop thread's. */
  lemma {:induction false} OwnKeeps(run: seq<Event>, e: Event)
    requires !ByThread(e)
    ensures e in run <==> e in Own(run)
    decreases |run|
  {
    if run != [] {
      OwnKeeps(run[1..], e);
    }
  }

  /** From the swap to the end of a batch, pending and counter only grow. */
  lemma OnlyGrows(width: nat, s: State, run: seq<Event>, lists: seq<seq<FunctorId>>)
    requires LegalRun(width, s, run) && Own(run) == BatchSteps(lists) + [EndFunctors]
    ensures Swap !in run && Exec(width, s, run).pending == s.pending + Pushes(run)
    ensures width >= EVENTFD_WIDTH ==> Exec(width, s, run).counter == s.counter + Wakeups(run)
  {
    BatchHasNoSwap(lists);
    OwnKeeps(run, Swap);
    OwnKeeps(run, HandleRead);
    PendingGrows(width, s, run);
    if width >= EVENTFD_WIDTH {
      CounterGrows(width, s, run);
    }
  }

  /** With no other thread about, what is pushed in a batch is what its functors queue, announced once each. */
  lemma Undisturbed(run: seq<Event>, lists: seq<seq<FunctorId>>)
    requires Own(run) == BatchSteps(lists) + [EndFunctors]
    requires NoThread(run)
    ensures Pushes(run) == Spawned(lists) && Wakeups(run) == |Spawned(lists)|
  {
    OwnAlone(run);
    BatchPushes(lists);
    PushesAppend(BatchSteps(lists), [EndFunctors]);
    WakeupsAppend(BatchSteps(lists), [EndFunctors]);
    assert [EndFunctors][1..] == [];
  }

  lemma {:induction false} AnnounceHasAll(calling: bool, fs: seq<FunctorId>)
    ensures forall f :: f in fs ==> LoopQueue(f) in Announce(calling, fs)
    decreases |fs|
  {
    if fs != [] {
      var front, last := fs[..|fs| - 1], fs[|fs| - 1];
      AnnounceHasAll(calling, front);
      assert fs == front + [last];
      assert LoopQueue(last) in AnnounceOne(calling, last);
    }
  }

  lemma {:induction false} QueuedIsPushed(run: seq<Event>, f: FunctorId)
    requires LoopQueue(f) in run
    ensures f in Pushes(run)
    decreases |run|
  {
    if run[0] != LoopQueue(f) {
      QueuedIsPushed(run[1..], f);
    }
  }

  /** What the loop's thread has queued without a swap in between is pending. */
  lemma AnnouncedArePending(width: nat, s: State, run: seq<Event>, calling: bool, fs: seq<FunctorId>)
    requires LegalRun(width, s, run) && Own(run) == Announce(calling, fs)
    ensures forall f :: f in fs ==> f in Exec(width, s, run).pending
  {
    AnnounceHasNoSwap(calling, fs);
    OwnKeeps(run, Swap);
    PendingGrows(width, s, run);
    AnnounceHasAll(calling, fs);
    forall f | f in fs
      ensures f in Pushes(run)
    {
      OwnKeeps(run, LoopQueue(f));
      QueuedIsPushed(run, f);
    }
  }

  /** What is pending is what was pushed since the last swap. */
  ghost predicate PushedSinceSwap(run: seq<Event>, pending: seq<FunctorId>) {
    exists k :: 0 <= k < |run| && run[k] == Swap && Swap !in run[k + 1..] && pending == Pushes(run[k + 1..])
  }

  lemma SinceSwap(before: seq<Event>, after: seq<Event>)
    requires before != [] && before[|before| - 1] == Swap && Swap !in after
    ensures PushedSinceSwap(before + after, Pushes(after))
  {
    assert (before + after)[|before| - 1] == Swap && (before + after)[|before|..] == after;
  }

  ghost predicate NoThread(run: seq<Event>) {
    forall e :: e in run ==> !ByThread(e)
  }

  class EventLoop {
    const poller: PollerObjects.EPollPoller
    const width: nat                          // what wakeup() writes
    const queues: (nat, FunctorId) -> seq<FunctorId>   // what the n-th functor run queues on this loop
    const others: nat -> seq<Event>           // what other threads try to do at each moment
    var looping: bool
    var calling: bool
    var pending: seq<FunctorId>
    var counter: nat                          // the eventfd's
    var pc: LoopPc                            // where the thread is in loop()
    var threads: map<nat, ThreadPc>           // and the others in queueInLoop and quit
    var moment: nat
    var ran: nat                              // how many functors have run

    ghost var owesWakeup: bool
    ghost var batch: seq<FunctorId>
    ghost var executed: seq<FunctorId>
    ghost var pushed: seq<FunctorId>

    ghost function View(): State
      reads this
    {
      State(pc, looping, calling, owesWakeup, counter, pending, batch, executed, pushed, threads)
    }

    /** `run` is a run of the machine from `s` to what the object is now. */
    ghost predicate Did(s: State, run: seq<Event>)
      reads this
    {
      LegalRun(width, s, run) && View() == Exec(width, s, run)
    }

    constructor (width: nat, queues: (nat, FunctorId) -> seq<FunctorId>, others: nat -> seq<Event>)
      ensures View() == STARTED.(looping := false) && fresh(poller)
      ensures this.width == width && this.queues == queues && this.others == others
    {
      poller := new PollerObjects.EPollPoller();
      this.width, this.queues, this.others := width, queues, others;
      looping, calling, pending, counter, threads, moment, ran := false, false, [], 0, map[], 0, 0;
      pc, owesWakeup, batch, executed, pushed := Testing, false, [], [], [];
    }

    // -----------------------------------------------------------------------------------------
    // Other threads

    method WakeUp()
      modifies `counter
      ensures counter == Woken(width, old(counter))
    {
      if width >= EVENTFD_WIDTH {
        counter := counter + 1;
      }
    }

    function IsOutside(thread: nat): bool
      reads this
    {
      thread !in threads || threads[thread] == Outside
    }

    /** The push of queueInLoop on another thread. */
    method ThreadPush(t: nat, f: FunctorId)
      requires IsOutside(t)
      modifies `pending, `pushed, `threads
      ensures Did(old(View()), [Push(t, f)]) && View() == Step(width, old(View()), Push(t, f))
      ensures pending == old(pending) + [f] && !IsOutside(t)
    {
      ghost var s := View();
      pending, pushed, threads := pending + [f], pushed + [f], threads[t := Pushed];
      OneStep(width, s, Push(t, f));
    }

    /** The store of quit() on another thread. */
    method ThreadQuit(t: nat)
      requires IsOutside(t)
      modifies `looping, `threads
      ensures Did(old(View()), [Quit(t)]) && View() == Step(width, old(View()), Quit(t))
      ensures !looping && !IsOutside(t)
    {
      ghost var s := View();
      looping, threads := false, threads[t := Quitting];
      OneStep(width, s, Quit(t));
    }

    /** The wakeup of either. */
    method ThreadWake(t: nat)
      requires !IsOutside(t)
      modifies `counter, `threads
      ensures Did(old(View()), [Wake(t)]) && View() == Step(width, old(View()), Wake(t))
      ensures counter == Woken(width, old(counter)) && IsOutside(t)
    {
      ghost var s := View();
      WakeUp();
      threads := threads[t := Outside];
      OneStep(width, s, Wake(t));
    }

    /** One step of another thread, if it is at that point; a thread does its wakeup before anything else. */
    method ThreadStep(e: Event) returns (ghost run: seq<Event>)
      modifies `pending, `pushed, `counter, `looping, `threads
      ensures Did(old(View()), run) && Own(run) == [] && old(pending) <= pending
      ensures View() == Attempt(width, old(View()), e)
    {
      run := [];
      match e {
        case Push(t, f) =>
          if IsOutside(t) {
            ThreadPush(t, f);
            run := [e];
          }
        case Quit(t) =>
          if IsOutside(t) {
            ThreadQuit(t);
            run := [e];
          }
        case Wake(t) =>
          if !IsOutside(t) {
            ThreadWake(t);
            run := [e];
          }
        case _ =>
      }
      assert [e][1..] == [];
    }

    /** What other threads do at this moment: any number of their steps. */
    method Interlude() returns (ghost run: seq<Event>)
      modifies `pending, `pushed, `counter, `looping, `threads, `moment
      ensures Did(old(View()), run) && Own(run) == [] && old(pending) <= pending
      ensures View() == Attempts(width, old(View()), others(old(moment))) && moment == old(moment) + 1
    {
      ghost var s := View();
      var events := others(moment);
      moment := moment + 1;
      run := [];
      for i := 0 to |events|
        invariant Did(s, run) && Own(run) == [] && s.pending <= pending
        invariant View() == Attempts(width, s, events[..i]) && moment == old(moment) + 1
      {
        ghost var more := ThreadStep(events[i]);
        AndThen(width, s, run, more);
        run := run + more;
        assert events[..i + 1][..i] == events[..i];
      }
      assert events[..|events|] == events;
    }

    /** queueInLoop on another thread, nobody in between. */
    method QueueFrom(thread: nat, f: FunctorId) returns (ghost run: seq<Event>)
      requires IsOutside(thread)
      modifies `pending, `pushed, `counter, `threads
      ensures Did(old(View()), run) && run == [Push(thread, f)] + [Wake(thread)]
      ensures pending == old(pending) + [f] && counter == Woken(width, old(counter)) && IsOutside(thread)
    {
      ghost var s := View();
      ThreadPush(thread, f);
      ThreadWake(thread);
      AndThen(width, s, [Push(thread, f)], [Wake(thread)]);
      run := [Push(thread, f)] + [Wake(thread)];
    }

    /** quit() on another thread, nobody in between: the eventfd is written so that poll returns. */
    method QuitFrom(thread: nat) returns (ghost run: seq<Event>)
      requires IsOutside(thread)
      modifies `looping, `counter, `threads
      ensures Did(old(View()), run) && run == [Quit(thread)] + [Wake(thread)]
      ensures !looping && counter == Woken(width, old(counter)) && IsOutside(thread)
    {
      ghost var s := View();
      ThreadQuit(thread);
      ThreadWake(thread);
      AndThen(width, s, [Quit(thread)], [Wake(thread)]);
      run := [Quit(thread)] + [Wake(thread)];
    }

    // -----------------------------------------------------------------------------------------
    // The loop's own thread

    ghost predicate MayQueue()
      reads this
    {
      (pc.Handling? || pc == Executing) && !owesWakeup
    }

    method HandleRead() returns (ghost run: seq<Event>)
      requires pc == Handling(true) && !owesWakeup
      modifies `counter, `pc
      ensures Did(old(View()), run) && run == [Wakeup.Event.HandleRead]
      ensures counter == 0 && pc == Handling(false)
    {
      ghost var s := View();
      counter, pc := 0, Handling(false);
      run := [Wakeup.Event.HandleRead];
      OneStep(width, s, Wakeup.Event.HandleRead);
    }

    /** The push of queueInLoop on the loop's own thread. */
    method PushHere(f: FunctorId) returns (ghost run: seq<Event>)
      requires MayQueue()
      modifies `pending, `pushed, `owesWakeup
      ensures Did(old(View()), run) && run == [LoopQueue(f)] && Own(run) == run
      ensures pending == old(pending) + [f] && owesWakeup == calling
    {
      ghost var s := View();
      pending, pushed, owesWakeup := pending + [f], pushed + [f], calling;
      run := [LoopQueue(f)];
      OneStep(width, s, LoopQueue(f));
    }

    /** And its wakeup. */
    method WakeUpHere() returns (ghost run: seq<Event>)
      requires owesWakeup
      modifies `counter, `owesWakeup
      ensures Did(old(View()), run) && run == [LoopWakeup] && Own(run) == run
      ensures counter == Woken(width, old(counter)) && !owesWakeup
    {
      ghost var s := View();
      WakeUp();
      owesWakeup := false;
      run := [LoopWakeup];
      OneStep(width, s, LoopWakeup);
    }

    /** queueInLoop on the loop's own thread, nobody in between: push, and wake the next poll if a batch is running. */
    method QueueInLoop(f: FunctorId) returns (ghost run: seq<Event>)
      requires MayQueue()
      modifies `pending, `pushed, `counter
      ensures Did(old(View()), run) && run == AnnounceOne(calling, f)
      ensures pending == old(pending) + [f]
      ensures counter == if calling then Woken(width, old(counter)) else old(counter)
    {
      ghost var s := View();
      pending, pushed := pending + [f], pushed + [f];
      run := [LoopQueue(f)];
      OneStep(width, s, LoopQueue(f));
      if calling {
        WakeUp();
        OneStep(width, Step(width, s, LoopQueue(f)), LoopWakeup);
        AndThen(width, s, run, [LoopWakeup]);
        run := run + [LoopWakeup];
      }
    }

    /** The same among other threads, which may act before it and between the push and the wakeup. */
    method QueueAmid(f: FunctorId) returns (ghost run: seq<Event>)
      requires MayQueue()
      modifies `pending, `pushed, `counter, `looping, `threads, `moment, `owesWakeup
      ensures Did(old(View()), run) && Own(run) == AnnounceOne(calling, f) && MayQueue()
      ensures old(pending) <= pending
    {
      ghost var s := View();
      run := Interlude();
      ghost var more := PushHere(f);
      AndThen(width, s, run, more);
      run := run + more;
      if calling {
        more := InterludeThenWakeUp();
        AndThen(width, s, run, more);
        run := run + more;
      }
    }

    method InterludeThenWakeUp() returns (ghost run: seq<Event>)
      requires owesWakeup
      modifies `pending, `pushed, `counter, `looping, `threads, `moment, `owesWakeup
      ensures Did(old(View()), run) && Own(run) == [LoopWakeup] && !owesWakeup && old(pending) <= pending
    {
      ghost var s := View();
      run := Interlude();
      ghost var more := WakeUpHere();
      AndThen(width, s, run, more);
      run := run + more;
    }

    /** Runs one functor: everything it queues waits for the next batch. */
    method Call(f: FunctorId) returns (ghost run: seq<Event>)
      requires MayQueue()
      modifies `pending, `pushed, `counter, `looping, `threads, `moment, `owesWakeup, `ran
      ensures Did(old(View()), run) && Own(run) == Announce(calling, queues(old(ran), f)) && MayQueue()
      ensures old(pending) <= pending && ran == old(ran) + 1
    {
      ran := ran + 1;
      run := QueueAll(queues(ran - 1, f));
    }

    /** Queues several functors, one queueInLoop after another. */
    method QueueAll(fs: seq<FunctorId>) returns (ghost run: seq<Event>)
      requires MayQueue()
      modifies `pending, `pushed, `counter, `looping, `threads, `moment, `owesWakeup
      ensures Did(old(View()), run) && Own(run) == Announce(calling, fs) && MayQueue()
      ensures old(pending) <= pending && forall f :: f in fs ==> f in pending
    {
      ghost var s := View();
      run := [];
      for i := 0 to |fs|
        invariant Did(s, run) && MayQueue() && s.pending <= pending
        invariant Own(run) == Announce(calling, fs[..i])
      {
        ghost var more := QueueAmid(fs[i]);
        AndThen(width, s, run, more);
        run := run + more;
        assert fs[..i + 1][..i] == fs[..i];
      }
      assert fs[..|fs|] == fs;
      AnnouncedArePending(width, s, run, calling, fs);
    }

    /** runInLoop on the loop's own thread: the functor itself is not queued, it runs now. */
    method RunInLoop(f: FunctorId) returns (ghost run: seq<Event>)
      requires MayQueue()
      modifies `pending, `pushed, `counter, `looping, `threads, `moment, `owesWakeup, `ran
      ensures Did(old(View()), run) && Own(run) == Announce(calling, queues(old(ran), f)) && MayQueue()
    {
      run := Call(f);
    }

    /** quit() on the loop's own thread: no wakeup is needed, the test comes before the next poll. */
    method QuitHere() returns (ghost run: seq<Event>)
      requires MayQueue()
      modifies `looping
      ensures Did(old(View()), run) && run == [LoopQuit] && !looping
    {
      ghost var s := View();
      looping := false;
      run := [LoopQuit];
      OneStep(width, s, LoopQuit);
    }

    /** The swap, under the lock; functors other threads have just pushed are in it. */
    method TakePending() returns (functors: seq<FunctorId>, ghost run: seq<Event>)
      requires pc == Swapping && batch == []
      modifies `pc, `pending, `batch, `pushed, `counter, `looping, `threads, `moment
      ensures Did(old(View()), run) && Own(run) == [Swap] && run != [] && run[|run| - 1] == Swap
      ensures functors == batch && old(pending) <= functors && pending == [] && pc == Executing && moment == old(moment) + 1
      ensures run == [Swap] ==> functors == old(pending) && counter == old(counter)
    {
      ghost var s := View();
      run := Interlude();
      ghost var s1 := View();
      functors := pending;
      pending, batch, pc := [], pending, Executing;
      OneStep(width, s1, Swap);
      AndThen(width, s, run, [Swap]);
      run := run + [Swap];
    }

    /** The start of doPendingFunctors: the flag, then the swap. */
    method SwapFunctors() returns (functors: seq<FunctorId>, ghost run: seq<Event>)
      requires pc == Handling(false) && !owesWakeup && batch == []
      modifies `calling, `pc, `pending, `batch, `pushed, `counter, `looping, `threads, `moment
      ensures Did(old(View()), run) && Own(run) == [EndHandlers, Swap] && run != [] && run[|run| - 1] == Swap
      ensures functors == batch && old(pending) <= functors && pending == [] && pc == Executing && calling
      ensures NoThread(run) ==> functors == old(pending) && counter == old(counter)
    {
      ghost var s := View();
      calling, pc := true, Swapping;
      OneStep(width, s, EndHandlers);
      ghost var more;
      functors, more := TakePending();
      AndThen(width, s, [EndHandlers], more);
      run := [EndHandlers] + more;
      if NoThread(run) {
        assert forall e :: e in more ==> e in run;
        OwnAlone(more);
      }
    }

    /** Takes the next functor of the batch and calls it. */
    method RunNext(f: FunctorId) returns (ghost run: seq<Event>)
      requires pc == Executing && calling && !owesWakeup && batch != [] && batch[0] == f
      modifies `pending, `pushed, `counter, `looping, `threads, `moment, `owesWakeup, `batch, `executed, `ran
      ensures Did(old(View()), run) && Own(run) == FunctorSteps(queues(old(ran), f))
      ensures batch == old(batch)[1..] && executed == old(executed) + [f] && !owesWakeup
      ensures executed + batch == old(executed + batch)
      ensures ran == old(ran) + 1
    {
      ghost var s := View();
      HeadMoves(executed, batch);
      batch, executed := batch[1..], executed + [f];
      OneStep(width, s, RunFunctor);
      ghost var more := Call(f);
      AndThen(width, s, [RunFunctor], more);
      run := [RunFunctor] + more;
    }

    /** The loop over the swapped functors. */
    method RunBatch(functors: seq<FunctorId>) returns (ghost run: seq<Event>)
      requires pc == Executing && calling && !owesWakeup && batch == functors
      modifies `pending, `pushed, `counter, `looping, `threads, `moment, `owesWakeup, `batch, `executed, `ran
      ensures Did(old(View()), run) && Own(run) == BatchSteps(Queues(queues, old(ran), functors))
      ensures batch == [] && executed == old(executed) + functors && !owesWakeup && ran == old(ran) + |functors|
    {
      ghost var s, lists := View(), Queues(queues, ran, functors);
      run := [];
      for i := 0 to |functors|
        invariant Did(s, run) && Own(run) + BatchSteps(lists[i..]) == BatchSteps(lists) && ran == old(ran) + i
        invariant batch == functors[i..] && executed + batch == old(executed) + functors && !owesWakeup
      {
        run := RunAnother(functors[i], s, run, BatchSteps(lists), lists[i..]);
      }
    }

    /** The same, after the steps the batch has already taken since `s`. */
    method RunAnother(f: FunctorId, ghost s: State, ghost before: seq<Event>, ghost all: seq<Event>, ghost lists: seq<seq<FunctorId>>)
      returns (ghost run: seq<Event>)
      requires pc == Executing && calling && !owesWakeup && batch != [] && batch[0] == f
      requires Did(s, before) && lists != [] && lists[0] == queues(ran, f) && Own(before) + BatchSteps(lists) == all
      modifies `pending, `pushed, `counter, `looping, `threads, `moment, `owesWakeup, `batch, `executed, `ran
      ensures Did(s, run) && Own(run) + BatchSteps(lists[1..]) == all && ran == old(ran) + 1 && !owesWakeup
      ensures batch == old(batch)[1..] && executed + batch == old(executed + batch)
    {
      ghost var more := RunNext(f);
      AndThen(width, s, before, more);
      NextOfBatch(all, Own(before), lists);
      run := before + more;
    }

    /** The rest of doPendingFunctors, from the swap on; what is pending then was pushed meanwhile. */
    method RunSwapped(functors: seq<FunctorId>) returns (ghost run: seq<Event>)
      requires pc == Executing && calling && !owesWakeup && batch == functors && pending == []
      modifies `calling, `pc, `pending, `pushed, `counter, `looping, `threads, `moment, `owesWakeup, `batch, `executed, `ran
      ensures Did(old(View()), run) && Own(run) == BatchSteps(Queues(queues, old(ran), functors)) + [EndFunctors]
      ensures executed == old(executed) + functors && pending == Pushes(run) && Swap !in run && ran == old(ran) + |functors|
      ensures width >= EVENTFD_WIDTH ==> counter == old(counter) + Wakeups(run)
      ensures NoThread(run) ==> pending == Spawned(Queues(queues, old(ran), functors)) && Wakeups(run) == |pending|
      ensures !calling && pc == Testing && batch == [] && !owesWakeup
    {
      ghost var s := View();
      run := RunBatch(functors);
      ghost var s1 := View();
      calling, pc := false, Testing;
      OneStep(width, s1, EndFunctors);
      AndThen(width, s, run, [EndFunctors]);
      run := run + [EndFunctors];
      OnlyGrows(width, s, run, Queues(queues, old(ran), functors));
      if NoThread(run) {
        Undisturbed(run, Queues(queues, old(ran), functors));
      }
    }

    /**
     doPendingFunctors: every functor pending at the swap, all that were queued before it, runs once
     and in order, and queues what it queues; nothing queued meanwhile, by functors or by other
     threads, runs before the next batch. With no other thread about, exactly what the functors queue
     is pending afterwards, announced once each.
     */
    method DoPendingFunctors() returns (functors: seq<FunctorId>, ghost run: seq<Event>)
      requires pc == Handling(false) && !owesWakeup && !calling && batch == []
      modifies `calling, `pc, `pending, `pushed, `counter, `looping, `threads, `moment, `owesWakeup, `batch, `executed, `ran
      ensures Did(old(View()), run)
      ensures Own(run) == [EndHandlers, Swap] + (BatchSteps(Queues(queues, old(ran), functors)) + [EndFunctors])
      ensures old(pending) <= functors && executed == old(executed) + functors && ran == old(ran) + |functors|
      ensures PushedSinceSwap(run, pending)
      ensures NoThread(run) ==>
        && functors == old(pending) && pending == Spawned(Queues(queues, old(ran), functors))
        && (width >= EVENTFD_WIDTH ==> counter == old(counter) + |pending|)
      ensures !calling && pc == Testing && batch == [] && !owesWakeup
    {
      ghost var s := View();
      functors, run := SwapFunctors();
      ghost var after := RunSwapped(functors);
      AndThen(width, s, run, after);
      SinceSwap(run, after);
      assert NoThread(run + after) ==> NoThread(run) && NoThread(after) by {
        assert forall e :: e in run || e in after ==> e in run + after;
      }
      run := run + after;
    }

    /** The active channels' handlers: the eventfd's if it was reported, then whatever others queue. */
    method Handlers(handlers: seq<FunctorId>) returns (ghost run: seq<Event>)
      requires pc.Handling? && !owesWakeup && !calling && batch == []
      modifies `pc, `pending, `pushed, `counter, `looping, `threads, `moment, `owesWakeup
      ensures Did(old(View()), run) && pc == Handling(false) && !owesWakeup
      ensures old(pending) <= pending && forall f :: f in handlers ==> f in pending
      ensures Own(run) == (if old(pc).reported then [Wakeup.Event.HandleRead] else []) + Announce(false, handlers)
    {
      ghost var s := View();
      run := [];
      if pc.reported {
        run := HandleRead();
        assert run[1..] == [];
      }
      ghost var more := QueueAll(handlers);
      AndThen(width, s, run, more);
      run := run + more;
    }

    /** The loop's condition, read after other threads had their say. */
    method TestLooping() returns (go: bool, ghost run: seq<Event>)
      requires pc == Testing && !owesWakeup
      modifies `pc, `pending, `pushed, `counter, `looping, `threads, `moment
      ensures Did(old(View()), run) && Own(run) == [Test] && pc == if go then AtPoll else Stopped
      ensures (go <==> looping) && moment == old(moment) + 1 && old(pending) <= pending
    {
      ghost var s := View();
      run := Interlude();
      ghost var s1 := View();
      go := looping;
      pc := if go then AtPoll else Stopped;
      OneStep(width, s1, Test);
      AndThen(width, s, run, [Test]);
      run := run + [Test];
    }

    /** poll: asked to report the eventfd, it does if something has made it readable by the time it returns. */
    method Poll(report: bool) returns (ghost run: seq<Event>)
      requires pc == AtPoll && !owesWakeup
      modifies `pc, `pending, `pushed, `counter, `looping, `threads, `moment
      ensures Did(old(View()), run) && pc == Handling(report && counter > 0)
      ensures Own(run) == [PollReturn(pc.reported)] && moment == old(moment) + 1 && old(pending) <= pending
    {
      ghost var s := View();
      run := Interlude();
      ghost var s1 := View();
      var reported := report && counter > 0;
      pc := Handling(reported);
      OneStep(width, s1, PollReturn(reported));
      AndThen(width, s, run, [PollReturn(reported)]);
      run := run + [PollReturn(reported)];
    }

    /** The active channels' handlers, then all that is pending, what they have queued included. */
    method Serve(handlers: seq<FunctorId>) returns (functors: seq<FunctorId>, ghost run: seq<Event>)
      requires pc.Handling? && !owesWakeup && !calling && batch == []
      modifies `calling, `pc, `pending, `pushed, `counter, `looping, `threads, `moment, `owesWakeup, `batch, `executed, `ran
      ensures Did(old(View()), run) && Own(run) == ServeSteps(old(pc).reported, handlers, Queues(queues, old(ran), functors))
      ensures old(pending) <= functors && (forall f :: f in handlers ==> f in functors)
      ensures executed == old(executed) + functors && ran == old(ran) + |functors|
      ensures pc == Testing && !calling && batch == [] && !owesWakeup
    {
      ghost var s := View();
      run := Handlers(handlers);
      ghost var more;
      functors, more := DoPendingFunctors();
      AndThen(width, s, run, more);
      run := run + more;
    }

    /**
     The body of loop(): poll, the active channels' handlers, then the functors, which include all that
     was pending and all that the handlers have queued.
     */
    method Turn(report: bool, handlers: seq<FunctorId>) returns (ghost r: TurnRecord, ghost run: seq<Event>)
      requires pc == AtPoll && !owesWakeup && !calling && batch == []
      modifies `calling, `pc, `pending, `pushed, `counter, `looping, `threads, `moment, `owesWakeup, `batch, `executed, `ran
      ensures Did(old(View()), run) && Own(run) == TurnSteps(queues, r)
      ensures r.handlers == handlers && (r.reported ==> report) && r.from == old(ran) && ran == old(ran) + |r.functors|
      ensures old(pending) <= r.functors && (forall f :: f in handlers ==> f in r.functors)
      ensures executed == old(executed) + r.functors
      ensures pc == Testing && !calling && batch == [] && !owesWakeup
    {
      ghost var s, from := View(), ran;
      run := Poll(report);
      ghost var reported := pc.reported;
      ghost var more;
      var functors;
      functors, more := Serve(handlers);
      AndThen(width, s, run, more);
      run := run + more;
      r := TurnRecord(reported, handlers, from, functors);
    }

    /** One round of loop()'s while: its condition, and its body if that holds. */
    method LoopOnce(report: bool, handlers: seq<FunctorId>) returns (go: bool, ghost r: TurnRecord, ghost run: seq<Event>)
      requires pc == Testing && !owesWakeup && !calling && batch == []
      modifies `calling, `pc, `pending, `pushed, `counter, `looping, `threads, `moment, `owesWakeup, `batch, `executed, `ran
      ensures Did(old(View()), run) && Own(run) == [Test] + if go then TurnSteps(queues, r) else []
      ensures !go ==> !looping && executed == old(executed) && ran == old(ran)
      ensures go ==> r.handlers == handlers && (r.reported ==> report) && r.from == old(ran) && ran == old(ran) + |r.functors|
      ensures go ==> executed == old(executed) + r.functors && forall f :: f in handlers ==> f in r.functors
      ensures pc == (if go then Testing else Stopped) && !calling && batch == [] && !owesWakeup
    {
      ghost var s := View();
      go, run := TestLooping();
      r := TurnRecord(false, [], 0, []);
      if go {
        ghost var more;
        r, more := Turn(report, handlers);
        AndThen(width, s, run, more);
        run := run + more;
      }
    }

    /**
     loop(), until it is asked to quit or `reports` has no more outcomes of poll. Each turn reads the
     eventfd if poll reported it, runs the active channels' handlers, and then everything that is pending,
     what the handlers queued included, while other threads push, wake and quit. The run shown starts
     where the machine starts, so nothing is lost, doubled or reordered, and no wakeup is lost if
     wakeup() writes enough.
     */
    method Loop(reports: seq<bool>, handlers: seq<seq<FunctorId>>)
      returns (turns: nat, ghost records: seq<TurnRecord>, ghost run: seq<Event>)
      requires |handlers| == |reports|
      requires View() == STARTED.(looping := false)   // assert(!m_bLooping.load())
      modifies this
      ensures Did(STARTED, run) && executed + pending == pushed
      ensures turns <= |reports| && pc == (if turns < |reports| then Stopped else Testing)
      ensures turns < |reports| ==> !looping
      ensures |records| == turns && Own(run) == LoopSteps(queues, records) + if turns < |reports| then [Test] else []
      ensures executed == AllRun(records)
      ensures forall k :: 0 <= k < turns ==> RecordOk(records, k, reports[k], handlers[k], old(ran))
    {
      looping := true;
      run, records := [], [];
      turns := 0;
      var go := true;
      while go && turns < |reports|
        invariant |records| == turns <= |reports| && (!go ==> turns < |reports|)
        invariant Looped(run, records, reports, handlers, old(ran), go)
        decreases |reports| - turns, go
      {
        go, run, records := LoopFurther(reports, handlers, turns, run, records, old(ran));
        if go {
          turns := turns + 1;
        }
      }
      RunKeepsQueue(width, STARTED, run);
    }

    /** Where loop() is after the recorded turns: about to test its condition again, or stopped. */
    ghost predicate Looped(run: seq<Event>, records: seq<TurnRecord>, reports: seq<bool>, handlers: seq<seq<FunctorId>>, from: nat, go: bool)
      reads this
    {
      && Did(STARTED, run) && !owesWakeup && !calling && batch == []
      && pc == (if go then Testing else Stopped) && (!go ==> !looping)
      && Own(run) == LoopSteps(queues, records) + (if go then [] else [Test])
      && executed == AllRun(records) && ran == from + |executed|
      && |records| <= |reports| == |handlers|
      && forall k :: 0 <= k < |records| ==> RecordOk(records, k, reports[k], handlers[k], from)
    }

    method LoopFurther(reports: seq<bool>, handlers: seq<seq<FunctorId>>, turns: nat, ghost before: seq<Event>, ghost done: seq<TurnRecord>, ghost from: nat)
      returns (go: bool, ghost run: seq<Event>, ghost records: seq<TurnRecord>)
      requires |done| == turns < |reports| && Looped(before, done, reports, handlers, from, true)
      modifies `calling, `pc, `pending, `pushed, `counter, `looping, `threads, `moment, `owesWakeup, `batch, `executed, `ran
      ensures Looped(run, records, reports, handlers, from, go)
      ensures |records| == if go then turns + 1 else turns
    {
      ghost var r, more;
      go, r, more := LoopOnce(reports[turns], handlers[turns]);
      AndThen(width, STARTED, before, more);
      run, records := before + more, done;
      StepsGo(queues, done, r, go);
      if go {
        OneMoreRun(done, r);
        RecordsGo(done, r, reports, handlers, from);
        records := done + [r];
      }
    }
  }

  // -------------------------------------------------------------------------------------------
  // What a turn of the loop is

  /** Whether poll reported the eventfd, what the handlers queued, how many functors had run before, and those that ran. */
  datatype TurnRecord = TurnRecord(reported: bool, handlers: seq<FunctorId>, from: nat, functors: seq<FunctorId>)

  /** The eventfd's handler if it was reported, the others', then the functors with what they queue. */
  function ServeSteps(reported: bool, handlers: seq<FunctorId>, lists: seq<seq<FunctorId>>): seq<Event> {
    ((if reported then [HandleRead] else []) + Announce(false, handlers))
    + ([EndHandlers, Swap] + (BatchSteps(lists) + [EndFunctors]))
  }

  function TurnSteps(queues: (nat, FunctorId) -> seq<FunctorId>, r: TurnRecord): seq<Event> {
    [PollReturn(r.reported)] + ServeSteps(r.reported, r.handlers, Queues(queues, r.from, r.functors))
  }

  function LoopSteps(queues: (nat, FunctorId) -> seq<FunctorId>, records: seq<TurnRecord>): seq<Event> {
    if records == [] then []
    else LoopSteps(queues, records[..|records| - 1]) + ([Test] + TurnSteps(queues, records[|records| - 1]))
  }

  function AllRun(records: seq<TurnRecord>): seq<FunctorId> {
    if records == [] then [] else AllRun(records[..|records| - 1]) + records[|records| - 1].functors
  }

  /** The k-th turn ran what its handlers queued, and counted on from the turns before. */
  ghost predicate RecordOk(records: seq<TurnRecord>, k: nat, report: bool, handlers: seq<FunctorId>, from: nat)
    requires k < |records|
  {
    var r := records[k];
    && r.handlers == handlers && (r.reported ==> report) && r.from == from + |AllRun(records[..k])|
    && forall f :: f in handlers ==> f in r.functors
  }

  lemma StepsGo(queues: (nat, FunctorId) -> seq<FunctorId>, records: seq<TurnRecord>, r: TurnRecord, go: bool)
    ensures (LoopSteps(queues, records) + []) + ([Test] + if go then TurnSteps(queues, r) else []) ==
            if go then LoopSteps(queues, records + [r]) + [] else LoopSteps(queues, records) + [Test]
  {
    var front := LoopSteps(queues, records);
    assert front + [] == front && [Test] + [] == [Test];
    assert (records + [r])[..|records|] == records;
    assert LoopSteps(queues, records + [r]) + [] == LoopSteps(queues, records + [r]);
  }

  lemma OneMoreRun(records: seq<TurnRecord>, r: TurnRecord)
    ensures AllRun(records + [r]) == AllRun(records) + r.functors
  {
    assert (records + [r])[..|records|] == records;
  }

  lemma RecordStays(records: seq<TurnRecord>, r: TurnRecord, k: nat, report: bool, handlers: seq<FunctorId>, from: nat)
    requires k < |records| && RecordOk(records, k, report, handlers, from)
    ensures RecordOk(records + [r], k, report, handlers, from)
  {
    assert (records + [r])[..k] == records[..k];
  }

  lemma RecordIsNew(records: seq<TurnRecord>, r: TurnRecord, report: bool, handlers: seq<FunctorId>, from: nat)
    requires r.handlers == handlers && (r.reported ==> report) && r.from == from + |AllRun(records)|
    requires forall f :: f in handlers ==> f in r.functors
    ensures RecordOk(records + [r], |records|, report, handlers, from)
  {
    assert (records + [r])[..|records|] == records;
  }

  /** The records of the turns so far, with one more. */
  lemma RecordsGo(records: seq<TurnRecord>, r: TurnRecord, reports: seq<bool>, handlers: seq<seq<FunctorId>>, from: nat)
    requires |records| < |reports| == |handlers|
    requires forall k :: 0 <= k < |records| ==> RecordOk(records, k, reports[k], handlers[k], from)
    requires r.handlers == handlers[|records|] && (r.reported ==> reports[|records|]) && r.from == from + |AllRun(records)|
    requires forall f :: f in r.handlers ==> f in r.functors
    ensures forall k :: 0 <= k <= |records| ==> RecordOk(records + [r], k, reports[k], handlers[k], from)
  {
    forall k | 0 <= k < |records|
      ensures RecordOk(records + [r], k, reports[k], handlers[k], from)
    {
      RecordStays(records, r, k, reports[k], handlers[k], from);
    }
    RecordIsNew(records, r, reports[|records|], handlers[|records|], from);
  }

  lemma OneStep(width: nat, s: State, e: Event)
    requires Legal(s, e)
    ensures LegalRun(width, s, [e]) && Exec(width, s, [e]) == Step(width, s, e)
    ensures Own([e]) == OwnOf(e)
  {
    assert [e][1..] == [];
    assert LegalRun(width, Step(width, s, e), []);
  }
}
