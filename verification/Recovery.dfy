/** The restart policy of a replaceable service: back-off after failures, forgiveness after stability. */
module Recovery {
  import opened Wrappers

  type Id = nat
  type Time = nat

  const STABLE_MS: nat := 30_000
  const STARTUP_MS: nat := 60_000
  const RETRY_MS: nat := 2_000
  const MAX_DELAY_MS: nat := 60_000
  const MAX_FAILURES: nat := 0xffff_ffff

  datatype Phase = Exited | Unknown | Stopping | Ready | Starting | Running

  // The parts of an inspection that the policy looks at; `reason` is the recorded reason, if any.
  datatype Observation = Observation(
    alive: bool,
    guarded: bool,
    phase: Phase,
    readinessPending: bool,
    createdAt: Option<Time>,
    reason: Option<string>)

  datatype Action = Nothing | Start | StopUnready

  datatype Policy = Policy(
    observed: Option<Id>,
    failed: Option<Id>,
    failures: nat,
    nextAttemptAt: Time,
    stableSince: Option<Time>,
    lastFailureAt: Option<Time>,
    reason: Option<string>)

  const DEFAULT_POLICY := Policy(None, None, 0, 0, None, None, None)

  function Elapsed(now: Time, since: Time): nat {
    if now >= since then now - since else 0
  }

  function Shifted(exponent: nat): nat {
    if exponent == 0 then 1000 else 2 * Shifted(exponent - 1)
  }

  function Delay(failures: nat): nat {
    var doubled := Shifted(if failures < 6 then failures else 6);
    if doubled < MAX_DELAY_MS then doubled else MAX_DELAY_MS
  }

  /** The service is up and supervised. */
  predicate Healthy(state: Observation) {
    state.alive && state.guarded && (state.phase == Ready || state.phase == Running)
  }

  predicate Overdue(state: Observation, now: Time) {
    state.phase == Starting && state.readinessPending
    && state.createdAt.Some? && state.createdAt.value > 0 && Elapsed(now, state.createdAt.value) >= STARTUP_MS
  }

  function Noticed(s: Policy, id: Option<Id>): Policy {
    if s.observed != id then s.(observed := id, stableSince := None) else s
  }

  function WhileAlive(s: Policy, now: Time, state: Observation): Policy {
    if Healthy(state) then
      var since := s.stableSince.GetOr(now);
      var settled := s.(stableSince := Some(since));
      if Elapsed(now, since) >= STABLE_MS then settled.(failures := 0, nextAttemptAt := 0) else settled
    else s.(stableSince := None)
  }

  /** This tick finds a death that has not been counted yet. */
  predicate NewFailure(s: Policy, id: Option<Id>, state: Observation) {
    !state.alive && id.Some? && s.failed != id
  }

  function Counted(s: Policy, now: Time, id: Option<Id>, state: Observation): Policy {
    var failures := if s.failures < MAX_FAILURES then s.failures + 1 else MAX_FAILURES;
    s.(failed := id, failures := failures, nextAttemptAt := now + Delay(failures), lastFailureAt := Some(now),
       reason := Some(state.reason.GetOr("host_exited")))
  }

  /** What one tick of the policy makes of its state, and what it asks for. */
  function Advanced(s: Policy, now: Time, id: Option<Id>, state: Observation): (Policy, Action) {
    var s := Noticed(s, id);
    if state.alive then (WhileAlive(s, now, state), if Overdue(state, now) then StopUnready else Nothing)
    else
      var s := s.(stableSince := None);
      var s := if NewFailure(s, id, state) then Counted(s, now, id, state) else s;
      if now >= s.nextAttemptAt then (s.(nextAttemptAt := now + RETRY_MS), Start) else (s, Nothing)
  }

  class Recovery {
    var observed: Option<Id>
    var failed: Option<Id>
    var failures: nat
    var nextAttemptAt: Time
    var stableSince: Option<Time>
    var lastFailureAt: Option<Time>
    var reason: Option<string>

    function Value(): Policy
      reads this
    {
      Policy(observed, failed, failures, nextAttemptAt, stableSince, lastFailureAt, reason)
    }

    constructor ()
      ensures Value() == DEFAULT_POLICY
    {
      observed, failed, failures, nextAttemptAt, stableSince, lastFailureAt, reason := None, None, 0, 0, None, None,
        None;
    }

    method Advance(now: Time, id: Option<Id>, state: Observation) returns (action: Action)
      modifies this
      ensures (Value(), action) == Advanced(old(Value()), now, id, state)
    {
      if observed != id {
        observed := id;
        stableSince := None;
      }
      if state.alive {
        if state.guarded && (state.phase == Ready || state.phase == Running) {
          if stableSince.None? {
            stableSince := Some(now);
          }
          if Elapsed(now, stableSince.value) >= STABLE_MS {
            failures := 0;
            nextAttemptAt := 0;
          }
        } else {
          stableSince := None;
        }
        if state.phase == Starting && state.readinessPending && state.createdAt.Some?
           && state.createdAt.value > 0 && Elapsed(now, state.createdAt.value) >= STARTUP_MS {
          return StopUnready;
        }
        return Nothing;
      }
      stableSince := None;
      if id.Some? && failed != id {
        failed := id;
        failures := if failures < MAX_FAILURES then failures + 1 else MAX_FAILURES;
        nextAttemptAt := now + Delay(failures);
        lastFailureAt := Some(now);
        reason := Some(state.reason.GetOr("host_exited"));
      }
      if now >= nextAttemptAt {
        nextAttemptAt := now + RETRY_MS;
        return Start;
      }
      return Nothing;
    }
  }
}

/**
 What the restart policy guarantees over whole runs, with a clock that does not go back: runs in which writes of the
 state fail and the supervisor starts again from the last state written.
 */
module RestartPacing {
  import opened Wrappers
  import opened Recovery

  datatype Tick = Tick(now: Time, id: Option<Id>, state: Observation)

  // A write may fail before the file is replaced, or after: then the file is new, but the tick still acts on nothing.
  datatype Write = Done | Lost | Unconfirmed

  datatype Event = Ticked(tick: Tick, write: Write) | Restarted

  datatype Journal = Journal(memory: Policy, durable: Policy)

  const START := Journal(DEFAULT_POLICY, DEFAULT_POLICY)

  /** The policy's state changes before it is written, and is written only if it changed. A restart reads the file. */
  function Happens(j: Journal, e: Event): (Journal, Action) {
    match e
    case Restarted => (Journal(j.durable, j.durable), Nothing)
    case Ticked(tick, write) =>
      var (next, action) := Advanced(j.memory, tick.now, tick.id, tick.state);
      if next == j.memory then (j, action)
      else match write
        case Done => (Journal(next, next), action)
        case Lost => (Journal(next, j.durable), Nothing)
        case Unconfirmed => (Journal(next, next), Nothing)
  }

  function Recorded(j: Journal, events: seq<Event>): Journal
    decreases |events|
  {
    if events == [] then j else Recorded(Happens(j, events[0]).0, events[1..])
  }

  function TimeAfter(t: Time, e: Event): Time {
    if e.Ticked? then e.tick.now else t
  }

  function LastTime(t: Time, events: seq<Event>): Time
    decreases |events|
  {
    if events == [] then t else LastTime(TimeAfter(t, events[0]), events[1..])
  }

  predicate MonotoneFrom(t: Time, events: seq<Event>)
    decreases |events|
  {
    events == [] || (t <= TimeAfter(t, events[0]) && MonotoneFrom(TimeAfter(t, events[0]), events[1..]))
  }

  /** Whatever starts in a run, starts at this time or later. */
  predicate StartsFrom(j: Journal, events: seq<Event>, time: Time)
    decreases |events|
  {
    events == [] ||
    var (next, action) := Happens(j, events[0]);
    (action == Start ==> events[0].Ticked? && events[0].tick.now >= time) && StartsFrom(next, events[1..], time)
  }

  /** The delay after the k-th failure in a row. */
  lemma DelayTable(k: nat)
    ensures Delay(1) == 2_000 && Delay(2) == 4_000 && Delay(3) == 8_000 && Delay(4) == 16_000 && Delay(5) == 32_000
    ensures k >= 6 ==> Delay(k) == 60_000
  {
    assert Shifted(1) == 2000 && Shifted(2) == 4000 && Shifted(3) == 8000;
    assert Shifted(4) == 16000 && Shifted(5) == 32000 && Shifted(6) == 64000;
  }

  lemma DelayBounds(k: nat)
    requires k >= 1
    ensures 2_000 <= Delay(k) <= 60_000
    ensures k >= 6 ==> Delay(k) == 60_000
    ensures Delay(k) <= Delay(k + 1)
  {
    assert Shifted(1) == 2000 && Shifted(2) == 4000 && Shifted(3) == 8000;
    assert Shifted(4) == 16000 && Shifted(5) == 32000 && Shifted(6) == 64000;
  }

  lemma {:induction false} DelayMonotone(k: nat, l: nat)
    requires 1 <= k <= l
    ensures Delay(k) <= Delay(l)
    decreases l - k
  {
    if k < l {
      DelayBounds(k);
      DelayMonotone(k + 1, l);
    }
  }

  lemma {:induction false} LaterStarts(j: Journal, events: seq<Event>, t: Time, time: Time)
    requires MonotoneFrom(t, events) && time <= t
    ensures StartsFrom(j, events, time)
    decreases |events|
  {
    hide Advanced;
    if events != [] {
      LaterStarts(Happens(j, events[0]).0, events[1..], TimeAfter(t, events[0]), time);
    }
  }

  // Starts are paced.

  /** After a Start at `start`, nothing can start before its retry time is over. */
  predicate Held(s: Policy, start: Time) {
    s.nextAttemptAt >= start + 2_000 && (s.stableSince.Some? ==> s.stableSince.value >= start)
  }

  lemma TickKeepsHeld(s: Policy, start: Time, tick: Tick)
    requires Held(s, start) && start <= tick.now < start + 2_000
    ensures Held(Advanced(s, tick.now, tick.id, tick.state).0, start)
    ensures Advanced(s, tick.now, tick.id, tick.state).1 != Start
  {
    if NewFailure(Noticed(s, tick.id), tick.id, tick.state) {
      DelayBounds(Counted(Noticed(s, tick.id), tick.now, tick.id, tick.state).failures);
    }
  }

  lemma {:induction false} HeldNeverStarts(j: Journal, start: Time, events: seq<Event>, t: Time)
    requires Held(j.memory, start) && Held(j.durable, start) && start <= t && MonotoneFrom(t, events)
    ensures StartsFrom(j, events, start + 2_000)
    decreases |events|
  {
    hide Advanced, Held;
    if events != [] {
      var e := events[0];
      var t' := TimeAfter(t, e);
      if t' >= start + 2_000 {
        LaterStarts(Happens(j, e).0, events[1..], t', start + 2_000);
        assert Happens(j, e).1 == Start ==> e.Ticked?;
      } else {
        if e.Ticked? {
          TickKeepsHeld(j.memory, start, e.tick);
        }
        HeldNeverStarts(Happens(j, e).0, start, events[1..], t');
      }
    }
  }

  /** Any two Start actions of a run are at least the retry time apart, restarts and lost writes included. */
  lemma StartsAreApart(j: Journal, first: Event, more: seq<Event>)
    requires first.Ticked? && Happens(j, first).1 == Start && MonotoneFrom(first.tick.now, more)
    ensures StartsFrom(Happens(j, first).0, more, first.tick.now + 2_000)
  {
    HeldNeverStarts(Happens(j, first).0, first.tick.now, more, first.tick.now);
  }

  // What holds of both copies at any time.

  predicate Known(s: Policy, t: Time) {
    s.failures <= MAX_FAILURES && (s.stableSince.Some? ==> s.stableSince.value <= t)
  }

  lemma KnownNext(j: Journal, e: Event, t: Time)
    requires Known(j.memory, t) && Known(j.durable, t) && t <= TimeAfter(t, e)
    ensures var j', t' := Happens(j, e).0, TimeAfter(t, e); Known(j'.memory, t') && Known(j'.durable, t')
  {
  }

  lemma {:induction false} AlwaysKnown(j: Journal, events: seq<Event>, t: Time)
    requires Known(j.memory, t) && Known(j.durable, t) && MonotoneFrom(t, events)
    ensures var j', t' := Recorded(j, events), LastTime(t, events); Known(j'.memory, t') && Known(j'.durable, t')
    decreases |events|
  {
    hide Happens, Known;
    if events != [] {
      KnownNext(j, events[0], t);
      AlwaysKnown(Happens(j, events[0]).0, events[1..], TimeAfter(t, events[0]));
    }
  }

  // Back-off.

  /** This tick forgives all failures. */
  predicate Forgives(s: Policy, tick: Tick) {
    Healthy(tick.state) && Elapsed(tick.now, Noticed(s, tick.id).stableSince.GetOr(tick.now)) >= 30_000
  }

  predicate Counts(s: Policy, tick: Tick) {
    NewFailure(Noticed(s, tick.id), tick.id, tick.state)
  }

  /** No tick of the run forgives. */
  predicate Unforgiven(j: Journal, events: seq<Event>)
    decreases |events|
  {
    events == [] ||
    ((events[0].Ticked? ==> !Forgives(j.memory, events[0].tick)) && Unforgiven(Happens(j, events[0]).0, events[1..]))
  }

  function Next(failures: nat): nat {
    if failures < MAX_FAILURES then failures + 1 else MAX_FAILURES
  }

  /** From this state on nothing can start before the deadline, at whatever time from t a death is counted. */
  predicate HoldsOff(s: Policy, t: Time, deadline: Time) {
    s.nextAttemptAt >= deadline && t + Delay(Next(s.failures)) >= deadline
  }

  lemma TickHoldsOff(s: Policy, t: Time, deadline: Time, tick: Tick)
    requires s.failures <= MAX_FAILURES && HoldsOff(s, t, deadline) && t <= tick.now && !Forgives(s, tick)
    ensures var (s', action) := Advanced(s, tick.now, tick.id, tick.state);
            && s'.failures <= MAX_FAILURES
            && (action == Start ==> tick.now >= deadline)
            && (tick.now < deadline ==> HoldsOff(s', t, deadline))
  {
    DelayMonotone(Next(s.failures), Next(Next(s.failures)));
    DelayBounds(Next(s.failures));
  }

  lemma {:induction false} BackOffLasts(j: Journal, t: Time, deadline: Time, events: seq<Event>, now: Time)
    requires j.memory.failures <= MAX_FAILURES && j.durable.failures <= MAX_FAILURES && t <= now
    requires HoldsOff(j.memory, t, deadline) && HoldsOff(j.durable, t, deadline)
    requires MonotoneFrom(now, events) && Unforgiven(j, events)
    ensures StartsFrom(j, events, deadline)
    decreases |events|
  {
    hide Advanced, HoldsOff, Forgives;
    if events != [] {
      var e := events[0];
      var now' := TimeAfter(now, e);
      if e.Ticked? {
        TickHoldsOff(j.memory, t, deadline, e.tick);
      }
      if now' >= deadline {
        LaterStarts(Happens(j, e).0, events[1..], now', deadline);
        assert Happens(j, e).1 == Start ==> e.Ticked?;
      } else {
        BackOffLasts(Happens(j, e).0, t, deadline, events[1..], now');
      }
    }
  }

  /** Without forgiveness nothing starts before the deadline, however the run goes on. */
  ghost predicate BacksOff(j: Journal, t: Time, deadline: Time) {
    forall more | MonotoneFrom(t, more) && Unforgiven(j, more) :: StartsFrom(j, more, deadline)
  }

  const DEAD := Observation(false, false, Unknown, false, None, None)
  const HEALTHY := Observation(true, true, Running, false, None, None)

  /** A tick whose write succeeds. */
  function Kept(now: Time, id: Option<Id>, state: Observation): Event {
    Ticked(Tick(now, id, state), Done)
  }

  /** An identity that the state has not counted. */
  function Another(s: Policy): Option<Id> {
    if s.failed == Some(0) then Some(1) else Some(0)
  }

  /** A file that does not hold off lets a restarted supervisor start too early. */
  lemma RestartStartsEarly(j: Journal, t: Time, deadline: Time)
    requires t < deadline && !HoldsOff(j.durable, t, deadline)
    ensures !BacksOff(j, t, deadline)
  {
    var s := j.durable;
    if s.nextAttemptAt < deadline {
      EarlyByNothing(j, if s.nextAttemptAt < t then t else s.nextAttemptAt, t, deadline);
    } else {
      EarlyByDeath(j, t, deadline);
    }
  }

  lemma EarlyByNothing(j: Journal, now: Time, t: Time, deadline: Time)
    requires t <= now < deadline && j.durable.nextAttemptAt <= now
    ensures !BacksOff(j, t, deadline)
  {
    var restarted, start := Journal(j.durable, j.durable), Kept(now, None, DEAD);
    var more := [Restarted, start];
    assert more[1..] == [start] && [start][1..] == [];
    assert Happens(restarted, start).1 == Start;
    assert !Forgives(restarted.memory, start.tick);
    hide Advanced, Forgives;
    assert MonotoneFrom(t, [start]) && Unforgiven(restarted, [start]);
    assert MonotoneFrom(t, more) && Unforgiven(j, more);
    assert !StartsFrom(restarted, [start], deadline);
    assert !StartsFrom(j, more, deadline);
  }

  lemma EarlyByDeath(j: Journal, t: Time, deadline: Time)
    requires t + Delay(Next(j.durable.failures)) < deadline
    ensures !BacksOff(j, t, deadline)
  {
    var restarted, id, delay := Journal(j.durable, j.durable), Another(j.durable), Delay(Next(j.durable.failures));
    DelayBounds(Next(j.durable.failures));
    var death, start := Kept(t, id, DEAD), Kept(t + delay, id, DEAD);
    var counted := Happens(restarted, death).0;
    var more := [Restarted, death, start];
    assert more[1..] == [death, start] && [death, start][1..] == [start] && [start][1..] == [];
    assert counted.memory.nextAttemptAt == t + delay && counted.memory.failed == id
           && Happens(restarted, death).1 == Nothing;
    assert Happens(counted, start).1 == Start;
    assert !Forgives(restarted.memory, death.tick) && !Forgives(counted.memory, start.tick);
    hide Advanced, Forgives, Delay;
    assert MonotoneFrom(t, [start]) && Unforgiven(counted, [start]);
    assert MonotoneFrom(t, [death, start]) && Unforgiven(restarted, [death, start]);
    assert MonotoneFrom(t, more) && Unforgiven(j, more);
    assert !StartsFrom(counted, [start], deadline);
    assert !StartsFrom(restarted, [death, start], deadline);
    assert !StartsFrom(j, more, deadline);
  }

  /** Counting sets the deadline, and starts nothing. */
  lemma CountingBacksOff(s: Policy, tick: Tick)
    requires s.failures <= MAX_FAILURES && Counts(s, tick)
    ensures var (next, action) := Advanced(s, tick.now, tick.id, tick.state);
            && next.failures == Next(s.failures) && next != s && action == Nothing
            && HoldsOff(next, tick.now, tick.now + Delay(next.failures)) && Delay(next.failures) > 0
  {
    DelayBounds(Next(s.failures));
    DelayMonotone(Next(s.failures), Next(Next(s.failures)));
  }

  /**
   In any run, with lost writes and restarts before and after: once the k-th failure in a row is counted, nothing
   starts for min(1000 * 2^min(k, 6), 60000) ms unless a tick forgives, if and only if the tick's write was not lost or
   the file that it left holds off just as long.
   */
  lemma FailuresBackOff(before: seq<Event>, e: Event)
    requires MonotoneFrom(0, before) && e.Ticked? && LastTime(0, before) <= e.tick.now
    requires Counts(Recorded(START, before).memory, e.tick)
    ensures var j := Recorded(START, before);
            var deadline := e.tick.now + Delay(Next(j.memory.failures));
            BacksOff(Happens(j, e).0, e.tick.now, deadline)
            <==> e.write != Lost || HoldsOff(j.durable, e.tick.now, deadline)
  {
    AlwaysKnown(START, before, 0);
    var j := Recorded(START, before);
    CountingBacksOff(j.memory, e.tick);
    hide Advanced, HoldsOff, Counts, Delay, Recorded, MonotoneFrom;
    var j', t := Happens(j, e).0, e.tick.now;
    var deadline := t + Delay(Next(j.memory.failures));
    if HoldsOff(j'.durable, t, deadline) {
      forall more | MonotoneFrom(t, more) && Unforgiven(j', more) ensures StartsFrom(j', more, deadline) {
        BackOffLasts(j', t, deadline, more, t);
      }
    } else {
      RestartStartsEarly(j', t, deadline);
    }
  }

  // Deaths.

  /** No tick of the run counts a death. */
  predicate CountsNothing(j: Journal, events: seq<Event>)
    decreases |events|
  {
    events == [] ||
    ((events[0].Ticked? ==> !Counts(j.memory, events[0].tick)) && CountsNothing(Happens(j, events[0]).0, events[1..]))
  }

  /** However the run goes on, the next death to be counted is not that of this identity. */
  ghost predicate CountedForGood(j: Journal, id: Option<Id>) {
    forall more, tick: Tick | CountsNothing(j, more) && tick.id == id :: !Counts(Recorded(j, more).memory, tick)
  }

  lemma {:induction false} FailedStands(j: Journal, id: Option<Id>, events: seq<Event>)
    requires j.memory.failed == id && j.durable.failed == id && CountsNothing(j, events)
    ensures Recorded(j, events).memory.failed == id
    decreases |events|
  {
    if events != [] {
      FailedStands(Happens(j, events[0]).0, id, events[1..]);
    }
  }

  /**
   In any run: once the death of an identity is counted, it is counted again only after the death of another one was,
   if and only if the tick's write was not lost or the file names this identity already.
   */
  lemma DeathCountedOnce(before: seq<Event>, e: Event)
    requires e.Ticked? && Counts(Recorded(START, before).memory, e.tick)
    ensures var j := Recorded(START, before);
            CountedForGood(Happens(j, e).0, e.tick.id) <==> e.write != Lost || j.durable.failed == e.tick.id
  {
    var j := Recorded(START, before);
    hide Recorded;
    var j', id := Happens(j, e).0, e.tick.id;
    assert j'.memory.failed == id && (j'.durable == if e.write == Lost then j.durable else j'.memory);
    if j'.durable.failed == id {
      forall more, tick: Tick | CountsNothing(j', more) && tick.id == id
        ensures !Counts(Recorded(j', more).memory, tick)
      {
        FailedStands(j', id, more);
      }
    } else {
      assert CountsNothing(j', [Restarted]) && Counts(Recorded(j', [Restarted]).memory, e.tick) by {
        OneRestart(j');
      }
    }
  }

  lemma OneRestart(j: Journal)
    ensures Recorded(j, [Restarted]) == Journal(j.durable, j.durable) && CountsNothing(j, [Restarted])
  {
    assert [Restarted][1..] == [];
  }

  // Forgiveness.

  /**
   What an observer of all ticks sees: whose they are, and since when that identity has been healthy without a break.
   */
  datatype Watch = Watch(id: Option<Id>, since: Option<Time>)

  const UNWATCHED := Watch(None, None)

  function Seen(w: Watch, e: Event): Watch {
    match e
    case Restarted => w
    case Ticked(tick, _) =>
      if !Healthy(tick.state) then Watch(tick.id, None)
      else if w.id == tick.id && w.since.Some? then w else Watch(tick.id, Some(tick.now))
  }

  function Watched(w: Watch, events: seq<Event>): Watch
    decreases |events|
  {
    if events == [] then w else Watched(Seen(w, events[0]), events[1..])
  }

  predicate Clears(j: Journal, e: Event) {
    e.Ticked? && j.memory.failures > 0 && Happens(j, e).0.memory.failures == 0
  }

  /** Failures are cleared only at the end of at least 30 s in which every tick saw the same identity healthy. */
  predicate ClearsEarned(j: Journal, w: Watch, events: seq<Event>)
    decreases |events|
  {
    events == [] ||
    var e := events[0];
    var w' := Seen(w, e);
    (Clears(j, e) ==> w'.since.Some? && w'.since.value + 30_000 <= e.tick.now)
    && ClearsEarned(Happens(j, e).0, w', events[1..])
  }

  /**
   The stability that a state claims, if it has failures to forgive, is no more than what was seen, or already enough.
   */
  predicate Honest(s: Policy, w: Watch, t: Time) {
    s.failures > 0 && s.stableSince.Some? ==>
      && w.since.Some? && s.observed == w.id
      && (w.since.value <= s.stableSince.value || w.since.value + 30_000 <= t)
  }

  /** No lost write leaves a file behind that claims more than was seen. */
  predicate HonestLosses(j: Journal, w: Watch, events: seq<Event>)
    decreases |events|
  {
    events == [] ||
    var e := events[0];
    (e.Ticked? && e.write == Lost ==> Honest(j.durable, Seen(w, e), e.tick.now))
    && HonestLosses(Happens(j, e).0, Seen(w, e), events[1..])
  }

  /** The policy's state agrees with what was seen, or is that of the file. */
  predicate InStep(j: Journal, w: Watch, t: Time) {
    && (w.since.Some? ==> w.since.value <= t)
    && (j.memory == j.durable || (j.memory.observed == w.id && (j.memory.stableSince.Some? <==> w.since.Some?)))
  }

  /** What is cleared at the end of a tick was seen to be stable. */
  predicate Earned(s: Policy, s': Policy, w: Watch, now: Time) {
    s.failures > 0 && s'.failures == 0 ==> w.since.Some? && w.since.value + 30_000 <= now
  }

  lemma TickHonest(s: Policy, w: Watch, t: Time, tick: Tick, write: Write)
    requires Honest(s, w, t) && t <= tick.now && (w.since.Some? ==> w.since.value <= t)
    ensures var s', w' := Advanced(s, tick.now, tick.id, tick.state).0, Seen(w, Ticked(tick, write));
            Honest(s', w', tick.now) && Earned(s, s', w', tick.now)
  {
  }

  /** A tick that changes nothing has seen nothing new. */
  lemma QuietTick(j: Journal, w: Watch, t: Time, tick: Tick, write: Write)
    requires InStep(j, w, t) && Honest(j.memory, w, t) && Honest(j.durable, w, t) && t <= tick.now
    requires Advanced(j.memory, tick.now, tick.id, tick.state).0 == j.memory
    ensures Honest(j.durable, Seen(w, Ticked(tick, write)), tick.now)
  {
    if j.memory != j.durable {
      assert Seen(w, Ticked(tick, write)) == w;
    } else {
      TickHonest(j.memory, w, t, tick, write);
    }
  }

  lemma HonestNext(j: Journal, w: Watch, t: Time, e: Event)
    requires InStep(j, w, t) && Honest(j.memory, w, t) && Honest(j.durable, w, t) && t <= TimeAfter(t, e)
    requires e.Ticked? && e.write == Lost ==> Honest(j.durable, Seen(w, e), e.tick.now)
    ensures var j', w', t' := Happens(j, e).0, Seen(w, e), TimeAfter(t, e);
            && Honest(j'.memory, w', t') && Honest(j'.durable, w', t')
            && (Clears(j, e) ==> w'.since.Some? && w'.since.value + 30_000 <= e.tick.now)
  {
    if e.Ticked? {
      TickHonest(j.memory, w, t, e.tick, e.write);
      if Advanced(j.memory, e.tick.now, e.tick.id, e.tick.state).0 == j.memory {
        QuietTick(j, w, t, e.tick, e.write);
      }
    }
    hide Advanced, Honest, Seen;
  }

  lemma {:induction false} HonestRuns(j: Journal, w: Watch, t: Time, events: seq<Event>)
    requires InStep(j, w, t) && Honest(j.memory, w, t) && Honest(j.durable, w, t)
    requires MonotoneFrom(t, events) && HonestLosses(j, w, events)
    ensures ClearsEarned(j, w, events)
    decreases |events|
  {
    hide Happens, Honest, InStep, Seen, Clears;
    if events != [] {
      HonestNext(j, w, t, events[0]);
      InStepNext(j, w, t, events[0]);
      HonestRuns(Happens(j, events[0]).0, Seen(w, events[0]), TimeAfter(t, events[0]), events[1..]);
    }
  }

  lemma InStepNext(j: Journal, w: Watch, t: Time, e: Event)
    requires InStep(j, w, t) && t <= TimeAfter(t, e)
    ensures InStep(Happens(j, e).0, Seen(w, e), TimeAfter(t, e))
  {
  }

  lemma {:induction false} AlwaysInStep(j: Journal, w: Watch, t: Time, events: seq<Event>)
    requires InStep(j, w, t) && MonotoneFrom(t, events)
    ensures InStep(Recorded(j, events), Watched(w, events), LastTime(t, events))
    decreases |events|
  {
    hide Happens, Seen, InStep;
    if events != [] {
      InStepNext(j, w, t, events[0]);
      AlwaysInStep(Happens(j, events[0]).0, Seen(w, events[0]), TimeAfter(t, events[0]), events[1..]);
    }
  }

  /** However the run goes on, as long as no further loss is dishonest, forgiveness is earned. */
  ghost predicate EarnedFromNow(j: Journal, w: Watch, t: Time) {
    forall more | MonotoneFrom(t, more) && HonestLosses(j, w, more) :: ClearsEarned(j, w, more)
  }

  /** One healthy tick that lets a dishonest state forgive. */
  function Unearned(s: Policy, t: Time): Event
    requires s.stableSince.Some?
  {
    Kept(if t < s.stableSince.value + 30_000 then s.stableSince.value + 30_000 else t, s.observed, HEALTHY)
  }

  lemma DishonestClears(j: Journal, w: Watch, t: Time)
    requires !Honest(j.memory, w, t)
    ensures var e := Unearned(j.memory, t);
            MonotoneFrom(t, [e]) && HonestLosses(j, w, [e]) && !ClearsEarned(j, w, [e])
  {
    var e := Unearned(j.memory, t);
    assert [e][1..] == [];
    assert Clears(j, e);
  }

  lemma DishonestFileClears(j: Journal, w: Watch, t: Time)
    requires !Honest(j.durable, w, t)
    ensures var more := [Restarted, Unearned(j.durable, t)];
            MonotoneFrom(t, more) && HonestLosses(j, w, more) && !ClearsEarned(j, w, more)
  {
    var e := Unearned(j.durable, t);
    assert [Restarted, e][1..] == [e];
    DishonestClears(Journal(j.durable, j.durable), w, t);
    hide Honest, Advanced;
  }

  /**
   In any run: failures are forgiven only after at least 30 s in which every tick saw the same identity up and
   supervised, if and only if neither the state nor the file claims more stability than was seen. Only a lost write
   makes the file do so, and only a restart the state.
   */
  lemma ForgivenOnlyAfterStability(before: seq<Event>)
    requires MonotoneFrom(0, before)
    ensures var j, w, t := Recorded(START, before), Watched(UNWATCHED, before), LastTime(0, before);
            EarnedFromNow(j, w, t) <==> Honest(j.memory, w, t) && Honest(j.durable, w, t)
  {
    var j, w, t := Recorded(START, before), Watched(UNWATCHED, before), LastTime(0, before);
    AlwaysInStep(START, UNWATCHED, 0, before);
    hide Recorded, Watched, LastTime, Honest, InStep, MonotoneFrom, HonestLosses, ClearsEarned;
    if !Honest(j.memory, w, t) {
      DishonestClears(j, w, t);
    } else if !Honest(j.durable, w, t) {
      DishonestFileClears(j, w, t);
    } else {
      forall more | MonotoneFrom(t, more) && HonestLosses(j, w, more) ensures ClearsEarned(j, w, more) {
        HonestRuns(j, w, t, more);
      }
    }
  }

  /** A run whose losses are honest is so from its beginning. */
  lemma HonestFromStart(events: seq<Event>)
    requires MonotoneFrom(0, events) && HonestLosses(START, UNWATCHED, events)
    ensures ClearsEarned(START, UNWATCHED, events)
  {
    HonestRuns(START, UNWATCHED, 0, events);
  }

  /**
   A lost write of a tick that saw the identity down, over a file with failures and a stable stretch, is dishonest.
   */
  lemma LostBreakIsDishonest(before: seq<Event>, e: Event)
    requires MonotoneFrom(0, before + [e]) && e.Ticked? && e.write == Lost && !Healthy(e.tick.state)
    requires var s := Recorded(START, before).durable; s.failures > 0 && s.stableSince.Some?
    ensures var run := before + [e];
            !EarnedFromNow(Recorded(START, run), Watched(UNWATCHED, run), LastTime(0, run))
  {
    var run := before + [e];
    OneMore(START, UNWATCHED, 0, before, e);
    hide Recorded, Watched, LastTime, MonotoneFrom, EarnedFromNow, Advanced;
    ForgivenOnlyAfterStability(run);
  }

  lemma {:induction false} OneMore(j: Journal, w: Watch, t: Time, before: seq<Event>, e: Event)
    ensures Recorded(j, before + [e]) == Happens(Recorded(j, before), e).0
    ensures Watched(w, before + [e]) == Seen(Watched(w, before), e)
    ensures LastTime(t, before + [e]) == TimeAfter(LastTime(t, before), e)
    decreases |before|
  {
    hide Happens, Seen;
    if before == [] {
      assert (before + [e])[1..] == [];
    } else {
      assert (before + [e])[1..] == before[1..] + [e];
      OneMore(Happens(j, before[0]).0, Seen(w, before[0]), TimeAfter(t, before[0]), before[1..], e);
    }
  }

  // Stability.

  predicate Clear(s: Policy) {
    s.failures == 0 && s.nextAttemptAt == 0
  }

  predicate Stable(s: Policy, t: Time, id: Option<Id>) {
    s.observed == id && s.stableSince.Some? && s.stableSince.value <= t
  }

  /** Every tick of the run sees this identity healthy. */
  predicate HealthyRun(events: seq<Event>, id: Option<Id>) {
    forall e <- events | e.Ticked? :: e.tick.id == id && Healthy(e.tick.state)
  }

  /** Each tick at this time or later leaves no failure and lets the next start come at once. */
  predicate ClearFrom(j: Journal, events: seq<Event>, time: Time)
    decreases |events|
  {
    events == [] ||
    var j' := Happens(j, events[0]).0;
    (events[0].Ticked? && events[0].tick.now >= time ==> Clear(j'.memory)) && ClearFrom(j', events[1..], time)
  }

  lemma HealthyTick(s: Policy, t: Time, tick: Tick)
    requires Healthy(tick.state) && (Stable(s, t, tick.id) || Clear(s)) && t <= tick.now
    ensures var s' := Advanced(s, tick.now, tick.id, tick.state).0;
            && (Stable(s', t, tick.id) || Clear(s'))
            && (tick.now >= t + 30_000 ==> Clear(s'))
  {
  }

  lemma {:induction false} StableRuns(j: Journal, t: Time, id: Option<Id>, events: seq<Event>, now: Time)
    requires (Stable(j.memory, t, id) || Clear(j.memory)) && (Stable(j.durable, t, id) || Clear(j.durable))
    requires t <= now && MonotoneFrom(now, events) && HealthyRun(events, id)
    ensures ClearFrom(j, events, t + 30_000)
    decreases |events|
  {
    hide Advanced, Stable, Clear, Healthy;
    if events != [] {
      var e := events[0];
      assert e in events && forall x <- events[1..] :: x in events;
      if e.Ticked? {
        HealthyTick(j.memory, t, e.tick);
      }
      StableRuns(Happens(j, e).0, t, id, events[1..], TimeAfter(now, e));
    }
  }

  /** As long as this identity stays healthy, failures are forgiven 30 s from this time on. */
  ghost predicate ForgivenAfter(j: Journal, t: Time, id: Option<Id>) {
    forall more | MonotoneFrom(t, more) && HealthyRun(more, id) :: ClearFrom(j, more, t + 30_000)
  }

  lemma RestartForgets(j: Journal, t: Time, id: Option<Id>)
    requires !Stable(j.durable, t, id) && !Clear(j.durable)
    ensures !ForgivenAfter(j, t, id)
  {
    var restarted, e := Journal(j.durable, j.durable), Kept(t + 30_000, id, HEALTHY);
    var more := [Restarted, e];
    assert more[1..] == [e] && [e][1..] == [];
    assert !Clear(Happens(restarted, e).0.memory);
    hide Advanced, Clear;
    assert MonotoneFrom(t, [e]) && MonotoneFrom(t, more) && HealthyRun(more, id);
    assert !ClearFrom(restarted, [e], t + 30_000);
    assert !ClearFrom(j, more, t + 30_000);
  }

  /**
   In any run: from a tick that sees an identity healthy, 30 s of nothing but such ticks always forgive all failures and
   allow the next start at once, if and only if the file that the tick leaves remembers this stretch or has nothing to
   forgive.
   */
  lemma StabilityForgives(before: seq<Event>, e: Event)
    requires MonotoneFrom(0, before) && e.Ticked? && LastTime(0, before) <= e.tick.now && Healthy(e.tick.state)
    ensures var j', t := Happens(Recorded(START, before), e).0, e.tick.now;
            ForgivenAfter(j', t, e.tick.id) <==> Stable(j'.durable, t, e.tick.id) || Clear(j'.durable)
  {
    AlwaysKnown(START, before, 0);
    var j := Recorded(START, before);
    var j', t, id := Happens(j, e).0, e.tick.now, e.tick.id;
    assert Stable(j'.memory, t, id);
    hide Recorded, Advanced, Stable, Clear, MonotoneFrom, Healthy, Happens;
    if Stable(j'.durable, t, id) || Clear(j'.durable) {
      forall more | MonotoneFrom(t, more) && HealthyRun(more, id) ensures ClearFrom(j', more, t + 30_000) {
        StableRuns(j', t, id, more, t);
      }
    } else {
      RestartForgets(j', t, id);
    }
  }

  /**
   In any run: a tick that finds an identity dead which the state does not know as failed counts one failure, up to the
   bound, notes when and why, and starts nothing; any other tick counts none.
   */
  lemma DeathIsNoted(before: seq<Event>, e: Event)
    requires MonotoneFrom(0, before) && e.Ticked?
    ensures var s, next := Recorded(START, before).memory, Happens(Recorded(START, before), e).0.memory;
            if !e.tick.state.alive && e.tick.id.Some? && s.failed != e.tick.id then
              && next.failed == e.tick.id && next.lastFailureAt == Some(e.tick.now)
              && next.reason == Some(e.tick.state.reason.GetOr("host_exited"))
              && next.failures == (if s.failures < 0xffff_ffff then s.failures + 1 else s.failures)
              && Happens(Recorded(START, before), e).1 == Nothing
            else
              && next.failed == s.failed && next.lastFailureAt == s.lastFailureAt && next.reason == s.reason
              && (next.failures == s.failures || next.failures == 0)
  {
    AlwaysKnown(START, before, 0);
    var j := Recorded(START, before);
    assert Known(j.memory, LastTime(0, before));
    hide Recorded, MonotoneFrom, LastTime;
    if Counts(j.memory, e.tick) {
      CountingBacksOff(j.memory, e.tick);
    }
  }

  // Starts that hang.

  /** The identity has been starting for 60 s, with its readiness still to come. */
  predicate Hung(tick: Tick) {
    && tick.state.alive && tick.state.phase == Starting && tick.state.readinessPending
    && tick.state.createdAt.Some? && tick.state.createdAt.value > 0 && tick.now >= tick.state.createdAt.value + 60_000
  }

  /** If the tick changed the policy's state, writing that succeeded. */
  predicate Settles(j: Journal, e: Event)
    requires e.Ticked?
  {
    Happens(j, e).0.memory != j.memory ==> e.write == Done
  }

  /**
   In any run, with lost writes and restarts: a tick asks for an unready stop if and only if it sees a hung start and
   its write succeeds where it makes one. So no service that is ready, running or younger is ever asked to stop.
   */
  lemma StopsHungStarts(before: seq<Event>, e: Event)
    requires e.Ticked?
    ensures var j := Recorded(START, before); Happens(j, e).1 == StopUnready <==> Hung(e.tick) && Settles(j, e)
  {
  }

  /** What is seen of one identity, created then, that stays in its start. */
  predicate StillStarting(tick: Tick, id: Option<Id>, created: Time) {
    && tick.id == id && tick.state.alive && tick.state.phase == Starting && tick.state.readinessPending
    && tick.state.createdAt == Some(created)
  }

  ghost predicate HangingRun(events: seq<Event>, id: Option<Id>, created: Time) {
    forall e <- events | e.Ticked? :: StillStarting(e.tick, id, created)
  }

  /** Every tick of the run asks for an unready stop, but those whose write fails. */
  predicate AllStop(j: Journal, events: seq<Event>)
    decreases |events|
  {
    events == [] ||
    ((events[0].Ticked? ==> (Happens(j, events[0]).1 == StopUnready <==> Settles(j, events[0])))
     && AllStop(Happens(j, events[0]).0, events[1..]))
  }

  /** Every tick of the run asks for an unready stop, whatever happens to its write. */
  predicate AllStopAnyway(j: Journal, events: seq<Event>)
    decreases |events|
  {
    events == [] || (Happens(j, events[0]).1 == StopUnready && AllStopAnyway(Happens(j, events[0]).0, events[1..]))
  }

  lemma {:induction false} HangingStops(j: Journal, id: Option<Id>, created: Time, events: seq<Event>, now: Time)
    requires 0 < created && created + 60_000 <= now && MonotoneFrom(now, events) && HangingRun(events, id, created)
    ensures AllStop(j, events)
    decreases |events|
  {
    if events != [] {
      var e := events[0];
      assert e in events && forall x <- events[1..] :: x in events;
      HangingStops(Happens(j, e).0, id, created, events[1..], TimeAfter(now, e));
    }
  }

  /** The state that a tick which sees a start leaves is not changed by the next one. */
  predicate Noted(s: Policy, id: Option<Id>) {
    s.observed == id && s.stableSince.None?
  }

  lemma NotedStops(j: Journal, id: Option<Id>, created: Time, e: Event)
    requires e.Ticked? && StillStarting(e.tick, id, created) && 0 < created && created + 60_000 <= e.tick.now
    ensures Noted(Happens(j, e).0.memory, id)
    ensures Noted(j.memory, id) ==> Happens(j, e) == (j, StopUnready)
  {
  }

  lemma {:induction false} NotedStopsAnyway(j: Journal, id: Option<Id>, created: Time, events: seq<Event>, now: Time)
    requires 0 < created && created + 60_000 <= now && MonotoneFrom(now, events) && HangingRun(events, id, created)
    requires Noted(j.memory, id) && Restarted !in events
    ensures AllStopAnyway(j, events)
    decreases |events|
  {
    if events != [] {
      var e := events[0];
      assert e in events && forall x <- events[1..] :: x in events;
      NotedStops(j, id, created, e);
      hide Happens, Noted;
      NotedStopsAnyway(j, id, created, events[1..], TimeAfter(now, e));
    }
  }

  /**
   In any run: a service that stays in its start is asked to stop at every tick from 60 s after its creation on, but
   those whose write fails; and until a restart only the first of them makes one.
   */
  lemma HungStartIsStopped(before: seq<Event>, e: Event, id: Option<Id>, created: Time, more: seq<Event>)
    requires 0 < created && e.Ticked? && created + 60_000 <= e.tick.now && MonotoneFrom(e.tick.now, more)
    requires HangingRun([e] + more, id, created)
    ensures AllStop(Recorded(START, before), [e] + more)
    ensures Restarted !in more ==> AllStopAnyway(Happens(Recorded(START, before), e).0, more)
  {
    var j := Recorded(START, before);
    assert ([e] + more)[1..] == more && forall x <- more :: x in [e] + more;
    assert e in [e] + more;
    HangingStops(j, id, created, [e] + more, e.tick.now);
    NotedStops(j, id, created, e);
    if Restarted !in more {
      NotedStopsAnyway(Happens(j, e).0, id, created, more, e.tick.now);
    }
  }

  // Services that are down.

  /** A run whose ticks find the service down, under one identity, and whose writes succeed. */
  ghost predicate DownRun(events: seq<Event>, id: Option<Id>) {
    forall e <- events :: e.Ticked? && e.write == Done && !e.tick.state.alive && e.tick.id == id
  }

  predicate SomeStart(j: Journal, events: seq<Event>)
    decreases |events|
  {
    events != [] && (Happens(j, events[0]).1 == Start || SomeStart(Happens(j, events[0]).0, events[1..]))
  }

  /** The next start is due within the longest delay. */
  predicate Due(s: Policy, t: Time) {
    s.failures <= MAX_FAILURES && s.nextAttemptAt <= t + 60_000
  }

  lemma DueNext(j: Journal, e: Event, t: Time)
    requires Due(j.memory, t) && Due(j.durable, t) && t <= TimeAfter(t, e)
    ensures var j', t' := Happens(j, e).0, TimeAfter(t, e); Due(j'.memory, t') && Due(j'.durable, t')
  {
    if e.Ticked? && Counts(j.memory, e.tick) {
      DelayBounds(Next(j.memory.failures));
    }
  }

  lemma {:induction false} AlwaysDue(j: Journal, events: seq<Event>, t: Time)
    requires Due(j.memory, t) && Due(j.durable, t) && MonotoneFrom(t, events)
    ensures Due(Recorded(j, events).memory, LastTime(t, events))
    decreases |events|
  {
    hide Happens, Due;
    if events != [] {
      DueNext(j, events[0], t);
      AlwaysDue(Happens(j, events[0]).0, events[1..], TimeAfter(t, events[0]));
    }
  }

  lemma DownTick(j: Journal, e: Event, id: Option<Id>, due: Time)
    requires e.Ticked? && e.write == Done && !e.tick.state.alive && e.tick.id == id
    requires (id.Some? ==> j.memory.failed == id) && j.memory.nextAttemptAt <= due
    ensures var (j', action) := Happens(j, e);
            if action == Start then true
            else e.tick.now < due && j'.memory.nextAttemptAt <= due && (id.Some? ==> j'.memory.failed == id)
  {
  }

  lemma {:induction false} DownIsStarted(j: Journal, id: Option<Id>, due: Time, events: seq<Event>, now: Time)
    requires (id.Some? ==> j.memory.failed == id) && j.memory.nextAttemptAt <= due
    requires MonotoneFrom(now, events) && DownRun(events, id) && LastTime(now, events) >= due && events != []
    ensures SomeStart(j, events)
    decreases |events|
  {
    var e := events[0];
    assert e in events && forall x <- events[1..] :: x in events;
    DownTick(j, e, id, due);
    hide Happens;
    if Happens(j, e).1 != Start {
      DownIsStarted(Happens(j, e).0, id, due, events[1..], e.tick.now);
    }
  }

  lemma FirstDown(j: Journal, e: Event, id: Option<Id>)
    requires e.Ticked? && e.write == Done && !e.tick.state.alive && e.tick.id == id && Due(j.memory, e.tick.now)
    ensures var (j', action) := Happens(j, e);
            action == Start || ((id.Some? ==> j'.memory.failed == id) && j'.memory.nextAttemptAt <= e.tick.now + 60_000)
  {
    if Counts(j.memory, e.tick) {
      DelayBounds(Next(j.memory.failures));
    }
  }

  /**
   In any run: a service that is down is started within 60 s of the first tick that finds it so, however many failures
   there were, as long as ticks go on and their writes succeed.
   */
  lemma DownServiceIsStarted(before: seq<Event>, e: Event, id: Option<Id>, more: seq<Event>)
    requires MonotoneFrom(0, before) && e.Ticked? && LastTime(0, before) <= e.tick.now
    requires MonotoneFrom(e.tick.now, more) && DownRun([e] + more, id)
    requires LastTime(e.tick.now, more) >= e.tick.now + 60_000
    ensures SomeStart(Recorded(START, before), [e] + more)
  {
    var j := Recorded(START, before);
    AlwaysDue(START, before, 0);
    assert e in [e] + more && ([e] + more)[1..] == more && forall x <- more :: x in [e] + more;
    FirstDown(j, e, id);
    hide Happens;
    if Happens(j, e).1 != Start {
      DownIsStarted(Happens(j, e).0, id, e.tick.now + 60_000, more, e.tick.now);
    }
  }

  // The runs that lost writes spoil, in one instance each.

  /** A break whose write is lost: failures are forgiven although the identity was down 29 s before. */
  lemma ForgivenTooEarly()
    ensures var run := [Kept(0, Some(1), DEAD), Kept(3000, Some(2), HEALTHY),
            Ticked(Tick(4000, Some(2), DEAD.(alive := true)), Lost),
                        Restarted, Kept(33000, Some(2), HEALTHY)];
            MonotoneFrom(0, run) && !ClearsEarned(START, UNWATCHED, run)
  {
    var a, b, c, d := Kept(0, Some(1), DEAD), Kept(3000, Some(2), HEALTHY),
      Ticked(Tick(4000, Some(2), DEAD.(alive := true)), Lost),
                      Kept(33000, Some(2), HEALTHY);
    var run := [a, b, c, Restarted, d];
    assert run[1..] == [b, c, Restarted, d] && [b, c, Restarted, d][1..] == [c, Restarted, d];
    assert [c, Restarted, d][1..] == [Restarted, d] && [Restarted, d][1..] == [d] && [d][1..] == [];
    var j1 := Happens(START, a).0;
    assert j1.durable.failures == 1 && j1.memory == j1.durable;
    var j2 := Happens(j1, b).0;
    assert j2.durable.failures == 1 && j2.durable.stableSince == Some(3000) && j2.durable.observed == Some(2);
    var j3 := Happens(j2, c).0;
    assert j3.durable == j2.durable;
    hide Advanced;
    var w3 := Seen(Seen(Seen(UNWATCHED, a), b), c);
    assert w3.since == None;
    assert MonotoneFrom(33000, [d][1..]) && MonotoneFrom(4000, [d]) && MonotoneFrom(4000, [Restarted, d]);
    assert MonotoneFrom(3000, [c, Restarted, d]) && MonotoneFrom(0, [b, c, Restarted, d]) && MonotoneFrom(0, run);
    DishonestFileClears(j3, w3, 4000);
    assert Unearned(j3.durable, 4000) == d;
    assert !ClearsEarned(j2, Seen(Seen(UNWATCHED, a), b), [c, Restarted, d]);
    assert !ClearsEarned(j1, Seen(UNWATCHED, a), [b, c, Restarted, d]);
  }
}
