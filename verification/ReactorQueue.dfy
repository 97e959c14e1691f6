/**
 The reactor's functor queue is the queue of Wakeup.dfy: every run of the reactor is a run of that
 machine too, so what is proved there of order and wakeups holds of the functors that connections,
 callbacks and other threads queue here.
 */
module ReactorQueue {
  import opened ConnectionSpec
  import opened Reactor
  import opened ReactorInvariant
  import opened ReactorSafety
  import opened ReactorTheorems
  import opened EventLoopObject
  import Wakeup

  function PcFor(phase: Phase): Wakeup.LoopPc {
    match phase
    case Polling => Wakeup.Testing
    case Dispatching => Wakeup.Handling(false)
    case Running => Wakeup.Executing
  }

  /** The functors run so far end with those of the batch. */
  ghost predicate EndsWith(executed: seq<Functor>, done: seq<Functor>) {
    |done| <= |executed| && executed[|executed| - |done|..] == done
  }

  /** The same pending list, batch and functors run in it, at the same point of the loop, every other thread outside. */
  ghost predicate Matches(w: World, s: Wakeup.State) {
    && s.pending == w.pending && s.batch == w.batch && EndsWith(s.executed, w.done)
    && s.looping && !s.owesWakeup && (s.calling <==> w.phase == Running) && s.pc == PcFor(w.phase)
    && (forall t :: t in s.threads ==> s.threads[t] == Wakeup.Outside)
  }

  // -------------------------------------------------------------------------------------------
  // What the reactor's steps do to the queue

  function Added(w: World, w': World): seq<Functor>
    requires |w.pending| <= |w'.pending|
  {
    w'.pending[|w.pending|..]
  }

  /** What another thread does adds one functor at most. */
  lemma ForeignAdds(cfg: Config, w: World, a: Action)
    requires ForeignAction(a)
    ensures OnlyAdds(w, Act(cfg, w, a)) && |Act(cfg, w, a).pending| <= |w.pending| + 1
  {
  }

  // -------------------------------------------------------------------------------------------
  // Those steps as steps of the queue machine

  lemma TwoSteps(width: nat, s: Wakeup.State, a: Wakeup.Event, b: Wakeup.Event)
    requires Wakeup.Legal(s, a) && Wakeup.Legal(Wakeup.Step(width, s, a), b)
    ensures Wakeup.LegalRun(width, s, [a, b])
    ensures Wakeup.Exec(width, s, [a, b]) == Wakeup.Step(width, Wakeup.Step(width, s, a), b)
  {
    OneStep(width, s, a);
    OneStep(width, Wakeup.Step(width, s, a), b);
    Wakeup.AndThen(width, s, [a], [b]);
    assert [a] + [b] == [a, b];
  }

  lemma AnnounceOneRuns(width: nat, s: Wakeup.State, f: Functor)
    requires (s.pc.Handling? || s.pc == Wakeup.Executing) && !s.owesWakeup
    ensures Wakeup.LegalRun(width, s, AnnounceOne(s.calling, f))
    ensures var s' := Wakeup.Exec(width, s, AnnounceOne(s.calling, f));
      s' == s.(pending := s.pending + [f], pushed := s.pushed + [f], counter := s'.counter)
  {
    if s.calling {
      TwoSteps(width, s, Wakeup.LoopQueue(f), Wakeup.LoopWakeup);
    } else {
      OneStep(width, s, Wakeup.LoopQueue(f));
    }
  }

  lemma {:induction false} AnnounceRuns(width: nat, s: Wakeup.State, fs: seq<Functor>)
    requires (s.pc.Handling? || s.pc == Wakeup.Executing) && !s.owesWakeup
    ensures Wakeup.LegalRun(width, s, Announce(s.calling, fs))
    ensures var s' := Wakeup.Exec(width, s, Announce(s.calling, fs));
      s' == s.(pending := s.pending + fs, pushed := s.pushed + fs, counter := s'.counter)
    decreases |fs|
  {
    if fs == [] {
      assert s.pending + [] == s.pending && s.pushed + [] == s.pushed;
    } else {
      var front, f := fs[..|fs| - 1], fs[|fs| - 1];
      AnnounceRuns(width, s, front);
      var s1 := Wakeup.Exec(width, s, Announce(s.calling, front));
      AnnounceOneRuns(width, s1, f);
      Wakeup.AndThen(width, s, Announce(s.calling, front), AnnounceOne(s.calling, f));
      assert fs == front + [f];
      assert s.pending + fs == (s.pending + front) + [f] && s.pushed + fs == (s.pushed + front) + [f];
    }
  }

  /** Every poll of the run that does not report the eventfd finds it unreadable. */
  ghost predicate Attentive(width: nat, s: Wakeup.State, run: seq<Wakeup.Event>)
    requires Wakeup.LegalRun(width, s, run)
    decreases |run|
  {
    run == [] || ((run[0] == Wakeup.PollReturn(false) ==> s.counter == 0) && Attentive(width, Wakeup.Step(width, s, run[0]), run[1..]))
  }

  lemma {:induction false} NeverPolls(width: nat, s: Wakeup.State, run: seq<Wakeup.Event>)
    requires Wakeup.LegalRun(width, s, run) && Wakeup.PollReturn(false) !in run
    ensures Attentive(width, s, run)
    decreases |run|
  {
    if run != [] {
      NeverPolls(width, Wakeup.Step(width, s, run[0]), run[1..]);
    }
  }

  lemma {:induction false} AnnounceNeverPolls(calling: bool, fs: seq<Functor>)
    ensures Wakeup.PollReturn(false) !in Announce(calling, fs)
    decreases |fs|
  {
    if fs != [] {
      AnnounceNeverPolls(calling, fs[..|fs| - 1]);
    }
  }

  lemma {:induction false} AttentiveThen(width: nat, s: Wakeup.State, run: seq<Wakeup.Event>, more: seq<Wakeup.Event>)
    requires Wakeup.LegalRun(width, s, run) && Wakeup.LegalRun(width, Wakeup.Exec(width, s, run), more)
    requires Attentive(width, s, run) && Attentive(width, Wakeup.Exec(width, s, run), more)
    ensures Wakeup.LegalRun(width, s, run + more) && Attentive(width, s, run + more)
    ensures Wakeup.Exec(width, s, run + more) == Wakeup.Exec(width, Wakeup.Exec(width, s, run), more)
    decreases |run|
  {
    if run == [] {
      assert run + more == more;
    } else {
      assert (run + more)[0] == run[0] && (run + more)[1..] == run[1..] + more;
      AttentiveThen(width, Wakeup.Step(width, s, run[0]), run[1..], more);
    }
  }

  /** There is a run of the queue machine from `s` to a state that matches `w`, and its polls are attentive. */
  ghost predicate Follows(width: nat, s: Wakeup.State, w: World) {
    exists run :: Wakeup.LegalRun(width, s, run) && Attentive(width, s, run) && Matches(w, Wakeup.Exec(width, s, run))
  }

  lemma AddsFollows(w: World, w': World, width: nat, s: Wakeup.State)
    requires Matches(w, s) && OnlyAdds(w, w') && w.phase != Polling
    ensures Follows(width, s, w')
  {
    var fs := Added(w, w');
    AnnounceRuns(width, s, fs);
    AnnounceNeverPolls(s.calling, fs);
    NeverPolls(width, s, Announce(s.calling, fs));
    assert w'.pending == w.pending + fs;
    assert Matches(w', Wakeup.Exec(width, s, Announce(s.calling, fs)));
  }

  lemma ForeignFollows(cfg: Config, w: World, a: Action, width: nat, s: Wakeup.State)
    requires Matches(w, s) && ForeignAction(a)
    ensures Follows(width, s, Act(cfg, w, a))
  {
    var w' := Act(cfg, w, a);
    ForeignAdds(cfg, w, a);
    if |w'.pending| > |w.pending| {
      var f := w'.pending[|w.pending|];
      TwoSteps(width, s, Wakeup.Push(0, f), Wakeup.Wake(0));
      NeverPolls(width, s, [Wakeup.Push(0, f), Wakeup.Wake(0)]);
      assert w'.pending == w.pending + [f];
      assert Matches(w', Wakeup.Exec(width, s, [Wakeup.Push(0, f), Wakeup.Wake(0)]));
    } else {
      assert w'.pending == w.pending;
      assert Wakeup.LegalRun(width, s, []) && Matches(w', Wakeup.Exec(width, s, []));
    }
  }

  lemma RunNextFollows(cfg: Config, w: World, io: Io, width: nat, s: Wakeup.State)
    requires Inv(cfg, w, {}) && Legal(w, RunNext(io)) && Matches(w, s)
    ensures Follows(width, s, Step(cfg, w, RunNext(io)))
  {
    var s1, w' := Wakeup.Step(width, s, Wakeup.RunFunctor), Step(cfg, w, RunNext(io));
    OneStep(width, s, Wakeup.RunFunctor);
    NeverPolls(width, s, [Wakeup.RunFunctor]);
    RunNextFrame(cfg, w, io);
    assert Matches(Popped(w), s1);
    AddsFollows(Popped(w), w', width, s1);
    var rest :| Wakeup.LegalRun(width, s1, rest) && Attentive(width, s1, rest) && Matches(w', Wakeup.Exec(width, s1, rest));
    AttentiveThen(width, s, [Wakeup.RunFunctor], rest);
  }

  /** A poll reports the eventfd, and its handler reads it, exactly when it is readable. */
  lemma PollFollows(cfg: Config, w: World, reports: seq<Report>, width: nat, s: Wakeup.State)
    requires Inv(cfg, w, {}) && Legal(w, Poll(reports)) && Matches(w, s)
    ensures Follows(width, s, Step(cfg, w, Poll(reports)))
  {
    var s1 := Wakeup.Step(width, s, Wakeup.Test);
    ReportsAreOpen(cfg, w, reports);
    PollIsExact(cfg, w, reports);
    if s.counter > 0 {
      var run := [Wakeup.Test, Wakeup.PollReturn(true)];
      TwoSteps(width, s, Wakeup.Test, Wakeup.PollReturn(true));
      NeverPolls(width, s, run);
      OneStep(width, Wakeup.Exec(width, s, run), Wakeup.HandleRead);
      NeverPolls(width, Wakeup.Exec(width, s, run), [Wakeup.HandleRead]);
      AttentiveThen(width, s, run, [Wakeup.HandleRead]);
      assert Matches(Step(cfg, w, Poll(reports)), Wakeup.Exec(width, s, run + [Wakeup.HandleRead]));
    } else {
      OneStep(width, s, Wakeup.Test);
      NeverPolls(width, s, [Wakeup.Test]);
      PollsInVain(width, s1);
      AttentiveThen(width, s, [Wakeup.Test], [Wakeup.PollReturn(false)]);
      assert Matches(Step(cfg, w, Poll(reports)), Wakeup.Exec(width, s, [Wakeup.Test] + [Wakeup.PollReturn(false)]));
    }
  }

  lemma PollsInVain(width: nat, s: Wakeup.State)
    requires s.pc == Wakeup.AtPoll && s.counter == 0
    ensures Wakeup.LegalRun(width, s, [Wakeup.PollReturn(false)]) && Attentive(width, s, [Wakeup.PollReturn(false)])
    ensures Wakeup.Exec(width, s, [Wakeup.PollReturn(false)]) == Wakeup.Step(width, s, Wakeup.PollReturn(false))
  {
    OneStep(width, s, Wakeup.PollReturn(false));
    assert [Wakeup.PollReturn(false)][1..] == [];
  }

  lemma SwapFollows(cfg: Config, w: World, width: nat, s: Wakeup.State)
    requires Legal(w, Swap) && Matches(w, s)
    ensures Follows(width, s, Step(cfg, w, Swap))
  {
    TwoSteps(width, s, Wakeup.EndHandlers, Wakeup.Swap);
    NeverPolls(width, s, [Wakeup.EndHandlers, Wakeup.Swap]);
    assert Matches(Step(cfg, w, Swap), Wakeup.Exec(width, s, [Wakeup.EndHandlers, Wakeup.Swap]));
  }

  lemma EndFollows(cfg: Config, w: World, width: nat, s: Wakeup.State)
    requires Legal(w, EndBatch) && Matches(w, s)
    ensures Follows(width, s, Step(cfg, w, EndBatch))
  {
    OneStep(width, s, Wakeup.EndFunctors);
    NeverPolls(width, s, [Wakeup.EndFunctors]);
    assert Matches(Step(cfg, w, EndBatch), Wakeup.Exec(width, s, [Wakeup.EndFunctors]));
  }

  /** Each legal step of the reactor is a legal run of the queue machine. */
  lemma StepFollows(cfg: Config, w: World, e: Event, width: nat, s: Wakeup.State)
    requires Inv(cfg, w, {}) && Legal(w, e) && Matches(w, s)
    ensures Follows(width, s, Step(cfg, w, e))
  {
    match e
    case Poll(reports) => PollFollows(cfg, w, reports, width, s);
    case Dispatch(io) =>
      DispatchKeeps(cfg, w, io);
      AddsFollows(w, Step(cfg, w, e), width, s);
    case Swap => SwapFollows(cfg, w, width, s);
    case RunNext(io) => RunNextFollows(cfg, w, io, width, s);
    case EndBatch => EndFollows(cfg, w, width, s);
    case Foreign(a) => ForeignFollows(cfg, w, a, width, s);
  }

  lemma {:induction false} RunFollows(cfg: Config, w: World, run: seq<Event>, width: nat, s: Wakeup.State)
    requires Inv(cfg, w, {}) && LegalRun(cfg, w, run) && Matches(w, s)
    ensures Follows(width, s, Exec(cfg, w, run))
    decreases |run|
  {
    if run == [] {
      assert Wakeup.LegalRun(width, s, []) && Matches(w, Wakeup.Exec(width, s, []));
    } else {
      var w1 := Step(cfg, w, run[0]);
      StepKeeps(cfg, w, run[0]);
      StepFollows(cfg, w, run[0], width, s);
      var front :| Wakeup.LegalRun(width, s, front) && Attentive(width, s, front) && Matches(w1, Wakeup.Exec(width, s, front));
      var s1 := Wakeup.Exec(width, s, front);
      RunFollows(cfg, w1, run[1..], width, s1);
      var rest :| Wakeup.LegalRun(width, s1, rest) && Attentive(width, s1, rest)
        && Matches(Exec(cfg, w1, run[1..]), Wakeup.Exec(width, s1, rest));
      AttentiveThen(width, s, front, rest);
    }
  }

  /**
   Every run of the reactor is matched by a run of the queue machine whose polls report the eventfd, and
   have it read, whenever it is readable. The functors run, the rest of the batch and the pending
   list are all that were ever queued, in order; and with a wakeup of eight bytes the eventfd is
   readable whenever the reactor polls with functors queued, so such a poll returns at once.
   */
  lemma QueueIsRefined(cfg: Config, base: set<nat>, run: seq<Event>, width: nat)
    requires Runs(cfg, base, run)
    ensures var w := Exec(cfg, Init(base), run);
      exists more :: Wakeup.LegalRun(width, Wakeup.STARTED, more) && Attentive(width, Wakeup.STARTED, more)
        && var s := Wakeup.Exec(width, Wakeup.STARTED, more);
        && Matches(w, s) && s.executed + w.batch + w.pending == s.pushed
        && (width >= Wakeup.EVENTFD_WIDTH && w.phase == Polling && w.pending != [] ==> s.counter > 0)
  {
    InitHolds(cfg, base);
    RunFollows(cfg, Init(base), run, width, Wakeup.STARTED);
    var w := Exec(cfg, Init(base), run);
    var more :| Wakeup.LegalRun(width, Wakeup.STARTED, more) && Attentive(width, Wakeup.STARTED, more)
      && Matches(w, Wakeup.Exec(width, Wakeup.STARTED, more));
    Wakeup.RunKeepsQueue(width, Wakeup.STARTED, more);
    if width >= Wakeup.EVENTFD_WIDTH {
      Wakeup.RunKeepsWakeup(width, Wakeup.STARTED, more);
    }
  }
}
