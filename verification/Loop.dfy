/** The event loop of Run: notifications, the reusable debounce timer, and interval ticks
    (internal/reconcile/reconcile.go). Times are nanoseconds. */
module Loop {
  import opened Text

  /** What happens around the loop, in the order it happens. */
  datatype Event =
    | Notified(at: int)          // the loop receives a source notification
    | TimerFires(at: int)        // the runtime moves an armed timer's tick into its channel
    | TickReceived(at: int)      // the loop receives that tick
    | IntervalTick(at: int)      // the loop receives the periodic ticker's tick

  datatype Entry = Received(at: int) | Started(at: int)

  /** The timer (armed deadline, undelivered tick) and the log of notifications received and passes started. */
  datatype State = State(created: bool, armed: Option<int>, tick: bool, log: seq<Entry>)

  const INITIAL := State(false, None, false, [])

  predicate Enabled(s: State, e: Event) {
    match e
    case TimerFires(at) => s.armed.Some? && s.armed.value <= at
    case TickReceived(_) => s.tick
    case Notified(_) => true
    case IntervalTick(_) => true
  }

  function Next(s: State, e: Event, delay: int): State {
    match e
    case TimerFires(_) => s.(armed := None, tick := true)
    case TickReceived(at) => s.(tick := false, log := s.log + [Started(at)])
    case IntervalTick(at) => s.(log := s.log + [Started(at)])
    case Notified(at) =>
      if delay > 0 then State(true, Some(at + delay), false, s.log + [Received(at)])
      else s.(log := s.log + [Received(at), Started(at)])
  }

  /** The loop object; `Notified` shows the stop-drain-reset dance on the one reusable timer. */
  class RunLoop {
    const delay: int
    var created: bool
    var armed: Option<int>
    var tick: bool
    ghost var log: seq<Entry>

    ghost function Now(): State reads this {
      State(created, armed, tick, log)
    }

    ghost predicate Valid() reads this {
      (!created ==> armed.None? && !tick) && (armed.Some? ==> !tick)
    }

    constructor (delay: int)
      ensures this.delay == delay && Now() == INITIAL && Valid()
    {
      this.delay := delay;
      created, armed, tick, log := false, None, false, [];
    }

    /** Timer.Stop, as of Go 1.23: an undelivered tick is discarded, and counts as the timer having been stopped. */
    method Stop() returns (stopped: bool)
      modifies this`armed, this`tick
      ensures armed.None? && !tick && stopped == (old(armed).Some? || old(tick))
    {
      stopped := armed.Some? || tick;
      armed, tick := None, false;
    }

    method OnNotify(now: int)
      requires Valid()
      modifies this
      ensures Valid() && Now() == Next(old(Now()), Notified(now), delay)
      ensures delay > 0 ==> log == old(log) + [Received(now)] && armed == Some(now + delay) && !tick
      ensures delay <= 0 ==> log == old(log) + [Received(now), Started(now)]
    {
      log := log + [Received(now)];
      if delay > 0 {
        if !created {
          created, armed := true, Some(now + delay);
        } else {
          var stopped := Stop();
          if !stopped {
            // the non-blocking drain; since Stop discards the tick, there is nothing to take
            tick := false;
          }
          armed := Some(now + delay);
        }
        return;
      }
      log := log + [Started(now)];
    }

    method OnFire(now: int)
      requires Valid() && Enabled(Now(), TimerFires(now))
      modifies this
      ensures Valid() && Now() == Next(old(Now()), TimerFires(now), delay)
      ensures log == old(log) && armed.None? && tick
    {
      armed, tick := None, true;
    }

    method OnTick(now: int)
      requires Valid() && Enabled(Now(), TickReceived(now))
      modifies this
      ensures Valid() && Now() == Next(old(Now()), TickReceived(now), delay)
      ensures log == old(log) + [Started(now)] && !tick
    {
      tick := false;
      log := log + [Started(now)];
    }

    method OnInterval(now: int)
      requires Valid()
      modifies this
      ensures Valid() && Now() == Next(old(Now()), IntervalTick(now), delay)
      ensures log == old(log) + [Started(now)] && armed == old(armed) && tick == old(tick)
    {
      log := log + [Started(now)];
    }
  }

  // ---- every sequence of events ----

  ghost predicate IsTrace(states: seq<State>, events: seq<Event>, delay: int) {
    && |states| == |events| + 1 && states[0] == INITIAL
    && (forall n :: 0 <= n < |events| ==>
          Enabled(states[n], events[n]) && states[n + 1] == Next(states[n], events[n], delay))
    && (forall m, n :: 0 <= m <= n < |events| ==> events[m].at <= events[n].at)
  }

  function LastReceived(log: seq<Entry>): Option<int> {
    if log == [] then None
    else if log[|log| - 1].Received? then Some(log[|log| - 1].at)
    else LastReceived(log[..|log| - 1])
  }

  predicate StartedAfter(log: seq<Entry>, n: nat) {
    exists m :: n < m < |log| && log[m].Started?
  }

  /** A wake-up is on its way: the timer is armed for exactly the last notification plus the delay, or its
      tick waits. */
  predicate WakeupPending(s: State, delay: int) {
    s.tick || (s.armed.Some? && LastReceived(s.log).Some? && s.armed.value == LastReceived(s.log).value + delay)
  }

  ghost predicate NothingLost(s: State, delay: int) {
    forall n :: 0 <= n < |s.log| && s.log[n].Received? ==> StartedAfter(s.log, n) || WakeupPending(s, delay)
  }

  predicate TimerInv(s: State, delay: int) {
    && (s.armed.Some? ==>
          !s.tick && delay > 0 && LastReceived(s.log).Some? && s.armed.value == LastReceived(s.log).value + delay)
    && (s.tick ==> delay > 0)
  }

  lemma LastReceivedStep(log: seq<Entry>, e: Entry)
    ensures LastReceived(log + [e]) == if e.Received? then Some(e.at) else LastReceived(log)
  {
  }

  lemma TimerInvStep(s: State, e: Event, delay: int)
    requires Enabled(s, e) && TimerInv(s, delay)
    ensures TimerInv(Next(s, e, delay), delay)
  {
  }

  lemma NothingLostStep(s: State, e: Event, delay: int)
    requires Enabled(s, e) && TimerInv(s, delay) && NothingLost(s, delay)
    ensures NothingLost(Next(s, e, delay), delay)
  {
    var s' := Next(s, e, delay);
    TimerInvStep(s, e, delay);
    LastReceivedStep(s.log, Received(e.at));
    forall n | 0 <= n < |s'.log| && s'.log[n].Received? ensures StartedAfter(s'.log, n) || WakeupPending(s', delay) {
      if s'.log != s.log && s'.log[|s'.log| - 1].Started? {
        assert StartedAfter(s'.log, n) by { assert s'.log[|s'.log| - 1].Started? && n < |s'.log| - 1; }
      }
    }
  }

  /** No lost wake-up: at every point, each received notification has had a pass start after it, or a wake-up is on
      its way, no later than the last notification plus the delay. */
  lemma {:induction false} NoLostWakeup(states: seq<State>, events: seq<Event>, delay: int, n: nat)
    requires IsTrace(states, events, delay) && n <= |events|
    ensures TimerInv(states[n], delay) && NothingLost(states[n], delay)
  {
    if n > 0 {
      NoLostWakeup(states, events, delay, n - 1);
      TimerInvStep(states[n - 1], events[n - 1], delay);
      NothingLostStep(states[n - 1], events[n - 1], delay);
    }
  }

  // ---- coalescing: a debounced pass waits for quiet ----

  ghost predicate ReceivedBy(log: seq<Entry>, t: int) {
    forall n :: 0 <= n < |log| && log[n].Received? ==> log[n].at <= t
  }

  /** All notifications so far are at most `t`, the last event's time; and if a tick waits, they are `delay` older. */
  ghost predicate QuietInv(s: State, delay: int, t: int) {
    && ReceivedBy(s.log, t)
    && (s.tick ==> ReceivedBy(s.log, t - delay))
    && (s.armed.Some? ==> ReceivedBy(s.log, s.armed.value - delay))
  }

  lemma QuietStep(s: State, e: Event, delay: int, t: int)
    requires Enabled(s, e) && TimerInv(s, delay) && QuietInv(s, delay, t) && t <= e.at
    ensures QuietInv(Next(s, e, delay), delay, e.at)
  {
  }

  lemma {:induction false} QuietOverTraces(states: seq<State>, events: seq<Event>, delay: int, n: nat, t: int)
    requires IsTrace(states, events, delay) && n <= |events|
    requires n > 0 ==> t == events[n - 1].at
    ensures QuietInv(states[n], delay, t)
  {
    if n > 0 {
      var t0 := if n > 1 then events[n - 2].at else events[0].at;
      QuietOverTraces(states, events, delay, n - 1, t0);
      NoLostWakeup(states, events, delay, n - 1);
      QuietStep(states[n - 1], events[n - 1], delay, t0);
    }
  }

  /** A pass started by the debounce timer comes at least the delay after every notification received before it:
      no stale tick starts one early. */
  lemma DebouncedPassesWait(states: seq<State>, events: seq<Event>, delay: int, n: nat)
    requires IsTrace(states, events, delay) && n < |events| && events[n].TickReceived?
    ensures ReceivedBy(states[n].log, events[n].at - delay)
  {
    var t := if n > 0 then events[n - 1].at else events[n].at;
    QuietOverTraces(states, events, delay, n, t);
  }

  // ---- no extra passes ----

  function CountTicks(events: seq<Event>): nat {
    if events == [] then 0
    else CountTicks(events[..|events| - 1]) + if events[|events| - 1].TickReceived? then 1 else 0
  }

  function CountNotified(events: seq<Event>): nat {
    if events == [] then 0
    else CountNotified(events[..|events| - 1]) + if events[|events| - 1].Notified? then 1 else 0
  }

  /** Debounced passes, counting the one a wake-up on its way will start, never outnumber notifications. */
  lemma {:induction false} NoExtraPasses(states: seq<State>, events: seq<Event>, delay: int, n: nat)
    requires IsTrace(states, events, delay) && n <= |events|
    ensures CountTicks(events[..n])
        + (if states[n].tick || states[n].armed.Some? then 1 else 0) <= CountNotified(events[..n])
  {
    if n > 0 {
      NoExtraPasses(states, events, delay, n - 1);
      NoLostWakeup(states, events, delay, n - 1);
      assert events[..n][..n - 1] == events[..n - 1];
    }
  }

  // ---- every pass has its event, and every event its pass ----

  function CountIntervals(events: seq<Event>): nat {
    if events == [] then 0
    else CountIntervals(events[..|events| - 1]) + if events[|events| - 1].IntervalTick? then 1 else 0
  }

  function CountStarted(log: seq<Entry>): nat {
    if log == [] then 0 else CountStarted(log[..|log| - 1]) + if log[|log| - 1].Started? then 1 else 0
  }

  function CountReceived(log: seq<Entry>): nat {
    if log == [] then 0 else CountReceived(log[..|log| - 1]) + if log[|log| - 1].Received? then 1 else 0
  }

  lemma {:induction false} CountsAppend(log: seq<Entry>, more: seq<Entry>)
    ensures CountStarted(log + more) == CountStarted(log) + CountStarted(more)
    ensures CountReceived(log + more) == CountReceived(log) + CountReceived(more)
    decreases |more|
  {
    if more == [] {
      assert log + more == log;
    } else {
      CountsAppend(log, more[..|more| - 1]);
      assert (log + more)[..|log + more| - 1] == log + more[..|more| - 1];
    }
  }

  lemma CountOfOne(e: Entry)
    ensures CountStarted([e]) == (if e.Started? then 1 else 0) && CountReceived([e]) == if e.Received? then 1 else 0
  {
    assert [e][..0] == [];
  }

  /** One event starts a pass at its own time if it is an interval tick, a debounce tick received, or, without a delay,
      a notification; any other event starts none. */
  lemma EventStartsPass(s: State, e: Event, delay: int)
    requires Enabled(s, e)
    ensures var log := Next(s, e, delay).log;
            && s.log <= log
            && ((e.IntervalTick? || e.TickReceived?) ==> log == s.log + [Started(e.at)])
            && (e.Notified? && delay <= 0 ==> log == s.log + [Received(e.at), Started(e.at)])
            && (e.Notified? && delay > 0 ==> log == s.log + [Received(e.at)])
            && (e.TimerFires? ==> log == s.log)
  {
  }

  lemma EventCounts(s: State, e: Event, delay: int)
    requires Enabled(s, e)
    ensures CountStarted(Next(s, e, delay).log) == CountStarted(s.log) +
              if e.IntervalTick? || e.TickReceived? || (e.Notified? && delay <= 0) then 1 else 0
    ensures CountReceived(Next(s, e, delay).log) == CountReceived(s.log) + if e.Notified? then 1 else 0
  {
    var log := Next(s, e, delay).log;
    EventStartsPass(s, e, delay);
    CountsAppend(s.log, log[|s.log|..]);
    CountOfOne(Received(e.at));
    CountOfOne(Started(e.at));
    CountsAppend([Received(e.at)], [Started(e.at)]);
    assert [Received(e.at)] + [Started(e.at)] == [Received(e.at), Started(e.at)];
    assert CountStarted([]) == 0 && CountReceived([]) == 0;
    assert s.log + log[|s.log|..] == log;
  }

  /** Over every event sequence, the passes started are as many as the interval ticks, the debounce ticks received and,
      without a delay, the notifications; and every notification was taken in. */
  lemma {:induction false} PassesAreCounted(states: seq<State>, events: seq<Event>, delay: int, n: nat)
    requires IsTrace(states, events, delay) && n <= |events|
    ensures CountStarted(states[n].log) == CountIntervals(events[..n]) + CountTicks(events[..n]) +
              if delay <= 0 then CountNotified(events[..n]) else 0
    ensures CountReceived(states[n].log) == CountNotified(events[..n])
  {
    if n > 0 {
      PassesAreCounted(states, events, delay, n - 1);
      EventCounts(states[n - 1], events[n - 1], delay);
      assert events[..n][..n - 1] == events[..n - 1];
    }
  }
}
