/** TimerQueue's two indexes over one set of timers. */
module TimerQueueObject {

  /** A Timer object: its address and its constant fields. restart() is a stub and changes nothing. */
  datatype Timer = Timer(address: nat, sequence: int, expiration: int, repeat: bool)

  /** The order of std::pair<time_t, Timer_sPt>. */
  predicate Before(a: Timer, b: Timer) {
    a.expiration < b.expiration || (a.expiration == b.expiration && a.address < b.address)
  }

  ghost predicate Sorted(s: seq<Timer>) {
    forall i, j :: 0 <= i < j < |s| ==> Before(s[i], s[j])
  }

  /** Set semantics of an insertion at the right place. */
  lemma Inserted(s: seq<Timer>, at: nat, timer: Timer)
    requires Sorted(s) && at <= |s|
    requires forall i :: 0 <= i < at ==> Before(s[i], timer)
    requires at < |s| ==> Before(timer, s[at])
    ensures var r := s[..at] + [timer] + s[at..];
      Sorted(r) && forall t :: t in r <==> t in s || t == timer
  {
    assert forall i :: at <= i < |s| ==> Before(timer, s[i]);
    assert s == s[..at] + s[at..];
  }

  /** And of an erasure. */
  lemma Erased(s: seq<Timer>, at: nat)
    requires Sorted(s) && at < |s|
    ensures var r := s[..at] + s[at + 1..];
      Sorted(r) && forall t :: t in r <==> t in s && t != s[at]
  {
    var r := s[..at] + s[at + 1..];
    assert forall i :: 0 <= i < |r| ==> r[i] == s[if i < at then i else i + 1];
    forall t | t in s && t != s[at]
      ensures t in r
    {
      var i :| 0 <= i < |s| && s[i] == t;
      assert r[if i < at then i else i - 1] == t;
    }
  }

  // -------------------------------------------------------------------------------------------
  // What the two indexes stand for: one plain set

  datatype Plain = Plain(timers: set<Timer>, canceling: set<(Timer, int)>, expiring: bool)

  datatype Call =
    | Insert(timer: Timer)
    | Cancel(timer: Timer, sequence: int)
    | Reset(expired: seq<Timer>)

  /** What reset puts back: repeating timers nobody cancelled meanwhile. */
  function Reinserted(expired: seq<Timer>, canceling: set<(Timer, int)>): set<Timer> {
    set t | t in expired && t.repeat && (t, t.sequence) !in canceling
  }

  /** New timers are new objects, and expired ones were taken out of the sets before. */
  predicate Allowed(p: Plain, call: Call) {
    match call
    case Insert(timer) => forall t :: t in p.timers ==> t.address != timer.address
    case Cancel(_, _) => true
    case Reset(expired) =>
      && (forall i, j :: 0 <= i < j < |expired| ==> expired[i].address != expired[j].address)
      && (forall t, e :: t in p.timers && e in expired ==> t.address != e.address)
  }

  function Apply(p: Plain, call: Call): Plain {
    match call
    case Insert(timer) => p.(timers := p.timers + {timer})
    case Cancel(timer, sequence) =>
      if timer in p.timers && sequence == timer.sequence then p.(timers := p.timers - {timer})
      else if p.expiring then p.(canceling := p.canceling + {(timer, sequence)})
      else p
    case Reset(expired) => p.(timers := p.timers + Reinserted(expired, p.canceling))
  }

  ghost predicate AllowedAll(p: Plain, calls: seq<Call>)
    decreases |calls|
  {
    calls == [] || (Allowed(p, calls[0]) && AllowedAll(Apply(p, calls[0]), calls[1..]))
  }

  ghost function ApplyAll(p: Plain, calls: seq<Call>): Plain
    decreases |calls|
  {
    if calls == [] then p else ApplyAll(Apply(p, calls[0]), calls[1..])
  }

  /** What each insert of the sequence must report: whether its timer is strictly before all that are stored. */
  ghost function EarliestChanges(p: Plain, calls: seq<Call>): seq<bool>
    decreases |calls|
  {
    if calls == [] then []
    else
      (if calls[0].Insert? then [forall t :: t in p.timers ==> calls[0].timer.expiration < t.expiration] else [])
      + EarliestChanges(Apply(p, calls[0]), calls[1..])
  }

  // -------------------------------------------------------------------------------------------

  class TimerQueue {
    var timers: seq<Timer>                   // m_timers, in the order of its iterators
    var activeTimers: set<(Timer, int)>
    var cancelingTimers: set<(Timer, int)>
    var callingExpiredTimers: bool

    /** Both indexes hold the same timers, and one address names one of them. */
    ghost predicate Valid()
      reads this
    {
      && Sorted(timers)
      && activeTimers == (set t | t in timers :: (t, t.sequence))
      && (forall t, u :: t in timers && u in timers && t.address == u.address ==> t == u)
    }

    ghost function Stored(): set<Timer>
      reads this
    {
      set t | t in timers
    }

    ghost function View(): Plain
      reads this
    {
      Plain(Stored(), cancelingTimers, callingExpiredTimers)
    }

    constructor ()
      ensures Valid() && Stored() == {} && cancelingTimers == {} && !callingExpiredTimers
    {
      timers, activeTimers, cancelingTimers, callingExpiredTimers := [], {}, {}, false;
    }

    /** std::set::insert keeps the order; the position is the first entry not before the new one. */
    method Insert(timer: Timer) returns (earliestChanged: bool)
      requires Valid() && forall t :: t in timers ==> t.address != timer.address
      modifies `timers, `activeTimers
      ensures Valid() && Stored() == old(Stored()) + {timer}
      ensures earliestChanged <==> forall t :: t in old(timers) ==> timer.expiration < t.expiration
      ensures |timers| == |old(timers)| + 1
    {
      earliestChanged := timers == [] || timer.expiration < timers[0].expiration;
      var at := 0;
      while at < |timers| && Before(timers[at], timer)
        invariant at <= |timers|
        invariant forall i :: 0 <= i < at ==> Before(timers[i], timer)
      {
        at := at + 1;
      }
      Inserted(timers, at, timer);
      timers := timers[..at] + [timer] + timers[at..];
      activeTimers := activeTimers + {(timer, timer.sequence)};
    }

    /** cancelInLoop: erased from both indexes, or remembered if it is expiring right now. */
    method CancelInLoop(timer: Timer, sequence: int)
      requires Valid()
      modifies `timers, `activeTimers, `cancelingTimers
      ensures Valid()
      ensures var known := timer in old(Stored()) && sequence == timer.sequence;
        && Stored() == (if known then old(Stored()) - {timer} else old(Stored()))
        && cancelingTimers == (if !known && callingExpiredTimers then old(cancelingTimers) + {(timer, sequence)} else old(cancelingTimers))
    {
      if (timer, sequence) in activeTimers {
        var at := 0;
        while timers[at] != timer
          invariant at < |timers| && timer in timers[at..]
          decreases |timers| - at
        {
          assert timers[at..] == [timers[at]] + timers[at + 1..];
          at := at + 1;
        }
        Erased(timers, at);
        timers := timers[..at] + timers[at + 1..];
        activeTimers := activeTimers - {(timer, sequence)};
      } else if callingExpiredTimers {
        cancelingTimers := cancelingTimers + {(timer, sequence)};
      }
    }

    method Reset(expired: seq<Timer>)
      requires Valid()
      requires forall i, j :: 0 <= i < j < |expired| ==> expired[i].address != expired[j].address
      requires forall t, e :: t in timers && e in expired ==> t.address != e.address
      modifies `timers, `activeTimers
      ensures Valid() && Stored() == old(Stored()) + Reinserted(expired, cancelingTimers)
    {
      for i := 0 to |expired|
        invariant Valid() && Stored() == old(Stored()) + Reinserted(expired[..i], cancelingTimers)
        invariant forall t, e :: t in timers && e in expired[i..] ==> t.address != e.address
      {
        var timer := expired[i];
        assert timer in expired[i..];
        if timer.repeat && (timer, timer.sequence) !in cancelingTimers {
          var _ := Insert(timer);
          assert timer in Stored();
        }
        assert expired[..i + 1] == expired[..i] + [timer];
        ghost var stored := Stored();
        assert forall t :: t in timers ==> t in stored;
        assert forall e :: e in expired[i + 1..] ==> e in expired[i..] && e.address != timer.address;
      }
      assert expired[..|expired|] == expired;
    }
  }

  /**
   Any sequence of inserts of new timers, cancels and resets: the two indexes keep holding the
   same timers, those of the plain set, and each insert reports correctly whether the earliest changed.
   */
  method Replay(q: TimerQueue, calls: seq<Call>) returns (changes: seq<bool>)
    requires q.Valid() && AllowedAll(q.View(), calls)
    modifies q
    ensures q.Valid() && q.View() == ApplyAll(old(q.View()), calls)
    ensures changes == EarliestChanges(old(q.View()), calls)
    decreases |calls|
  {
    changes := [];
    if calls != [] {
      match calls[0] {
        case Insert(timer) =>
          assert forall t :: t in q.timers ==> t in q.Stored();
          var changed := q.Insert(timer);
          changes := [changed];
        case Cancel(timer, sequence) => q.CancelInLoop(timer, sequence);
        case Reset(expired) =>
          assert forall t :: t in q.timers ==> t in q.Stored();
          q.Reset(expired);
      }
      var rest := Replay(q, calls[1..]);
      changes := changes + rest;
    }
  }
}
