/** Intervals: modular deadline arithmetic with three ways to catch up and a grace window. */
module Intervals {
  import opened Wrappers
  import opened TimerSpec
  import opened TimerDrivers
  import opened Sleeps

  // Durations and instants are in nanoseconds.
  const GRACE: nat := 5_000_000

  datatype MissedTickBehavior = Burst | Skip | Delay

  function NextDeadline(b: MissedTickBehavior, deadline: int, now: int, period: nat): int
    requires period > 0
  {
    match b
    case Burst => deadline + period
    case Delay => now + period
    case Skip => now + (period - Max(0, now - deadline) % period)
  }

  // The deadline after a tick at `deadline` that is returned at time `now`.
  function Scheduled(b: MissedTickBehavior, deadline: int, now: int, period: nat): int
    requires period > 0
  {
    if Max(0, now - deadline) > GRACE then NextDeadline(b, deadline, now, period) else deadline + period
  }

  // What may follow a tick that was due at `t` and is returned at time `n`. Up to five
  // milliseconds late is in time, whatever the behaviour.
  ghost predicate MayFollow(b: MissedTickBehavior, t: int, n: int, period: nat, next: int) {
    if n - t <= 5_000_000 then next == t + period
    else
      match b
      case Burst => next == t + period
      case Delay => next == n + period
      case Skip => n < next <= n + period && exists k: nat :: next == t + k * period
  }

  // Subtracting the remainder never underflows, and the next tick lies at least a period on.
  lemma ScheduledAhead(b: MissedTickBehavior, deadline: int, now: int, period: nat)
    requires period > 0 && now >= deadline
    ensures MayFollow(b, deadline, now, period, Scheduled(b, deadline, now, period))
    ensures Max(0, now - deadline) % period <= period
    ensures Scheduled(b, deadline, now, period) >= deadline + period
    ensures !b.Burst? && now - deadline > GRACE ==> now < Scheduled(b, deadline, now, period) <= now + period
  {
    SkipStep(now - deadline, period);
    if b.Skip? && now - deadline > GRACE {
      assert Scheduled(b, deadline, now, period) == deadline + ((now - deadline) / period + 1) * period;
    }
  }

  // Skipping lands on the first multiple of the period after now.
  lemma SkipStep(elapsed: nat, period: nat)
    requires period > 0
    ensures elapsed + (period - elapsed % period) == (elapsed / period + 1) * period
    ensures elapsed + (period - elapsed % period) >= period
  {
    assert elapsed == elapsed / period * period + elapsed % period;
    assert elapsed / period * period >= 0;
  }

  class Interval {
    const sleep: Sleep
    const period: nat
    var behavior: MissedTickBehavior

    ghost predicate Valid()
      reads this, sleep, sleep.timer, sleep.timer.clock
    {
      period > 0 && sleep.Valid()
    }

    // A zero period is rejected with a panic.
    constructor (sleep: Sleep, period: nat, behavior: MissedTickBehavior)
      requires period > 0 && sleep.Valid()
      ensures Valid() && this.sleep == sleep && this.period == period && this.behavior == behavior
    {
      this.sleep := sleep;
      this.period := period;
      this.behavior := behavior;
    }

    method PollTick(waker: nat) returns (tick: Option<int>, exhausted: bool)
      requires Valid()
      modifies sleep, sleep.timer
      ensures !exhausted ==> Valid()
      ensures tick == if old(sleep.IsElapsed()) then Some(old(sleep.deadline)) else None
      ensures tick.Some? ==> !exhausted && sleep.registration == None
      ensures sleep.deadline == if tick.Some?
          then Scheduled(behavior, old(sleep.deadline), sleep.timer.clock.Now(), period) else old(sleep.deadline)
      ensures tick.Some? ==> MayFollow(behavior, tick.value, sleep.timer.clock.Now(), period, sleep.deadline)
      ensures tick.None? && !exhausted ==>
        sleep.registration ==
          if old(sleep.registration).Some? then old(sleep.registration) else Some(old(sleep.timer.nextId))
      ensures tick.None? && !exhausted ==>
        sleep.timer.registrations ==
          old(sleep.timer.registrations)[sleep.registration.value := Registration(sleep.deadline, waker)]
      ensures sleep.timer.nextId == if tick.None? && old(sleep.registration).None?
          then WrappingSucc(old(sleep.timer.nextId)) else old(sleep.timer.nextId)
      ensures tick.Some? ==>
        sleep.timer.registrations == if old(sleep.registration).Some?
            then old(sleep.timer.registrations) - {old(sleep.registration).value} else old(sleep.timer.registrations)
      // one step of the runs below
      ensures forall ts: seq<int>, at: seq<Poll> ::
        Polled(Run(old(sleep.deadline), ts, at), Poll(sleep.timer.clock.Now(), behavior), period)
          == Run(sleep.deadline, ts + (if tick.Some? then [tick.value] else []),
                 at + if tick.Some? then [Poll(sleep.timer.clock.Now(), behavior)] else [])
    {
      var ready;
      ready, exhausted := sleep.Poll(waker);
      if !ready {
        return None, exhausted;
      }
      var deadline := sleep.deadline;
      var now := sleep.timer.clock.Now();
      var next := if Max(0, now - deadline) > GRACE then NextDeadline(behavior, deadline, now, period)
          else deadline + period;
      sleep.Reset(next);
      ScheduledAhead(behavior, deadline, now, period);
      return Some(deadline), false;
    }

    // The next tick is due at `deadline`; whoever waits for it waits on.
    twostate predicate MovedTo(deadline: int)
      reads sleep, sleep.timer
    {
      && sleep.deadline == deadline && sleep.timer.nextId == old(sleep.timer.nextId)
      && sleep.registration ==
         (if old(sleep.registration).Some? && old(sleep.registration).value in old(sleep.timer.registrations)
          then old(sleep.registration) else None)
      && sleep.timer.registrations ==
         if sleep.registration.Some? && sleep.registration.value in old(sleep.timer.registrations)
         then old(sleep.timer.registrations)[sleep.registration.value :=
                Registration(deadline, old(sleep.timer.registrations)[sleep.registration.value].waker)]
         else old(sleep.timer.registrations)
    }

    method ResetAt(deadline: int)
      requires Valid()
      modifies sleep, sleep.timer
      ensures Valid() && MovedTo(deadline)
    {
      sleep.Reset(deadline);
    }

    method ResetAfter(after: nat)
      requires Valid()
      modifies sleep, sleep.timer
      ensures Valid() && MovedTo(sleep.timer.clock.Now() + after)
    {
      ResetAt(sleep.timer.clock.Now() + after);
    }

    method Reset()
      requires Valid()
      modifies sleep, sleep.timer
      ensures Valid() && MovedTo(sleep.timer.clock.Now() + period)
    {
      ResetAt(sleep.timer.clock.Now() + period);
    }

    method ResetImmediately()
      requires Valid()
      modifies sleep, sleep.timer
      ensures Valid() && MovedTo(sleep.timer.clock.Now())
    {
      ResetAt(sleep.timer.clock.Now());
    }

    method SetMissedTickBehavior(b: MissedTickBehavior)
      modifies this
      ensures behavior == b
    {
      behavior := b;
    }
  }

  /* ---- Runs without resets ---- */

  // A poll at time `now` under behaviour `b`.
  datatype Poll = Poll(now: int, b: MissedTickBehavior)

  // The next tick, the ticks returned so far, and the polls that have returned them.
  datatype Run = Run(deadline: int, ticks: seq<int>, at: seq<Poll>)

  function Polled(r: Run, p: Poll, period: nat): Run
    requires period > 0
  {
    if p.now >= r.deadline
    then Run(Scheduled(p.b, r.deadline, p.now, period), r.ticks + [r.deadline], r.at + [p])
    else r
  }

  function Runs(start: int, period: nat, polls: seq<Poll>): Run
    requires period > 0
    decreases |polls|
  {
    if polls == [] then Run(start, [], [])
        else Polled(Runs(start, period, polls[..|polls| - 1]), polls[|polls| - 1], period)
  }

  ghost predicate Spaced(ticks: seq<int>, period: nat) {
    forall i | 0 < i < |ticks| :: ticks[i] >= ticks[i - 1] + period
  }

  // Over any run, even when the behaviour changes on the way and time jumps about: the first
  // tick is the start, ticks are at least a period apart, none is returned early, and the
  // next deadline is a period after the last tick.
  lemma {:induction false} TicksAreSpaced(start: int, period: nat, polls: seq<Poll>)
    requires period > 0
    ensures var r := Runs(start, period, polls);
      && Spaced(r.ticks, period)
      && (r.ticks == [] ==> r.deadline == start)
      && (r.ticks != [] ==> r.ticks[0] == start && r.deadline >= r.ticks[|r.ticks| - 1] + period)
      && r.deadline >= start + |r.ticks| * period
      && forall t | t in r.ticks :: exists i :: 0 <= i < |polls| && t <= polls[i].now
    decreases |polls|
  {
    if polls != [] {
      var init, p := polls[..|polls| - 1], polls[|polls| - 1];
      TicksAreSpaced(start, period, init);
      var r, r1 := Runs(start, period, init), Runs(start, period, polls);
      forall t | t in r1.ticks ensures exists i :: 0 <= i < |polls| && t <= polls[i].now {
        if t in r.ticks {
          var i :| 0 <= i < |init| && t <= init[i].now;
          assert polls[i] == init[i];
        } else {
          assert t <= polls[|polls| - 1].now;
        }
      }
      if p.now >= r.deadline {
        ScheduledAhead(p.b, r.deadline, p.now, period);
        assert (|r.ticks| + 1) * period == |r.ticks| * period + period;
      }
    }
  }

  ghost predicate FollowsAt(r: Run, i: nat, period: nat)
    requires i < |r.ticks| && i < |r.at|
  {
    && r.ticks[i] <= r.at[i].now
    && MayFollow(r.at[i].b, r.ticks[i], r.at[i].now, period, if i + 1 < |r.ticks| then r.ticks[i + 1] else r.deadline)
  }

  // Over any run: what follows each tick is determined by when the tick was returned and under
  // which behaviour, and the polls in between that returned nothing do not matter.
  lemma {:induction false} TicksFollow(start: int, period: nat, polls: seq<Poll>)
    requires period > 0
    ensures var r := Runs(start, period, polls);
      && |r.at| == |r.ticks|
      && forall i | 0 <= i < |r.ticks| :: r.at[i] in polls && FollowsAt(r, i, period)
    decreases |polls|
  {
    hide Scheduled, FollowsAt;
    if polls != [] {
      var init, p := polls[..|polls| - 1], polls[|polls| - 1];
      TicksFollow(start, period, init);
      var r, r1 := Runs(start, period, init), Runs(start, period, polls);
      forall i | 0 <= i < |r1.ticks| ensures r1.at[i] in polls && FollowsAt(r1, i, period) {
        if i < |r.ticks| { assert r.at[i] in init && FollowsAt(r, i, period); }
        TickFollows(r, p, period, i);
      }
    }
  }

  lemma TickFollows(r: Run, p: Poll, period: nat, i: nat)
    requires period > 0 && |r.at| == |r.ticks| && i < |Polled(r, p, period).ticks|
    requires i < |r.ticks| ==> FollowsAt(r, i, period)
    ensures FollowsAt(Polled(r, p, period), i, period)
  {
    hide Scheduled, MayFollow;
    if i >= |r.ticks| { ScheduledAhead(p.b, r.deadline, p.now, period); }
  }

  // Hence the rate: by time T at most floor((T - start) / period) + 1 ticks.
  lemma TickRateIsBounded(start: int, period: nat, polls: seq<Poll>, T: int)
    requires period > 0 && T >= start && forall i | 0 <= i < |polls| :: polls[i].now <= T
    ensures |Runs(start, period, polls).ticks| <= (T - start) / period + 1
  {
    TicksAreSpaced(start, period, polls);
    var ticks := Runs(start, period, polls).ticks;
    if ticks != [] {
      SpacedSpan(ticks, period, |ticks| - 1);
      var last := ticks[|ticks| - 1];
      assert last in ticks && last <= T;
      DivAtLeast(T - start, period, |ticks| - 1);
    }
  }

  lemma {:induction false} SpacedSpan(ticks: seq<int>, period: nat, k: nat)
    requires Spaced(ticks, period) && k < |ticks|
    ensures ticks[k] >= ticks[0] + k * period
  {
    if k > 0 {
      SpacedSpan(ticks, period, k - 1);
      assert k * period == (k - 1) * period + period;
    }
  }

  lemma DivAtLeast(a: nat, d: nat, q: nat)
    requires d > 0 && q * d <= a
    ensures q <= a / d
  {
    assert a == a / d * d + a % d;
    MultiplesInOrder(a / d, q, d);
  }

  lemma MultiplesInOrder(p: nat, q: nat, d: nat)
    ensures p < q ==> (p + 1) * d <= q * d
  {
    if p < q {
      assert q * d == (p + 1) * d + (q - p - 1) * d;
    }
  }

  // With only Burst and Skip every tick keeps the phase of the start.
  lemma {:induction false} PhaseIsKept(start: int, period: nat, polls: seq<Poll>)
    requires period > 0 && forall i | 0 <= i < |polls| :: !polls[i].b.Delay?
    ensures var r := Runs(start, period, polls);
      && (exists k: nat :: r.deadline == start + k * period)
      && forall t | t in r.ticks :: exists k: nat :: t == start + k * period
    decreases |polls|
  {
    if polls == [] {
      assert start == start + 0 * period;
    } else {
      var init, p := polls[..|polls| - 1], polls[|polls| - 1];
      PhaseIsKept(start, period, init);
      var r := Runs(start, period, init);
      if p.now >= r.deadline {
        var k: nat :| r.deadline == start + k * period;
        var m := if p.b.Skip? && p.now - r.deadline > GRACE then (p.now - r.deadline) / period + 1 else 1;
        SkipStep(p.now - r.deadline, period);
        assert Scheduled(p.b, r.deadline, p.now, period) == r.deadline + m * period;
        assert k * period + m * period == (k + m) * period;
        assert Scheduled(p.b, r.deadline, p.now, period) == start + (k + m) * period;
      }
    }
  }

  // With only Burst no tick is ever left out.
  lemma {:induction false} BurstMissesNothing(start: int, period: nat, polls: seq<Poll>)
    requires period > 0 && forall i | 0 <= i < |polls| :: polls[i].b.Burst?
    ensures var r := Runs(start, period, polls);
      && r.deadline == start + |r.ticks| * period
      && forall i | 0 <= i < |r.ticks| :: r.ticks[i] == start + i * period
    decreases |polls|
  {
    if polls != [] {
      BurstMissesNothing(start, period, polls[..|polls| - 1]);
      var r := Runs(start, period, polls[..|polls| - 1]);
      assert (|r.ticks| + 1) * period == |r.ticks| * period + period;
    }
  }

  /* ---- Catching up at one instant ---- */

  // How many polls in a row return a tick while the clock stands still.
  function ReadyInARow(b: MissedTickBehavior, deadline: int, now: int, period: nat): nat
    requires period > 0
    decreases Max(0, now - deadline + 1)
  {
    if now < deadline then 0
    else
      ScheduledAhead(b, deadline, now, period);
      1 + ReadyInARow(b, Scheduled(b, deadline, now, period), now, period)
  }

  // `n` polls at one instant.
  function Still(now: int, b: MissedTickBehavior, n: nat): seq<Poll> {
    seq(n, i => Poll(now, b))
  }

  lemma {:induction false} StillRun(b: MissedTickBehavior, start: int, now: int, period: nat, n: nat)
    requires period > 0
    ensures var r := Runs(start, period, Still(now, b, n));
      && |r.ticks| == (if n < ReadyInARow(b, start, now, period) then n else ReadyInARow(b, start, now, period))
      && ReadyInARow(b, r.deadline, now, period) == ReadyInARow(b, start, now, period) - |r.ticks|
    decreases n
  {
    if n > 0 {
      StillRun(b, start, now, period, n - 1);
      assert Still(now, b, n)[..n - 1] == Still(now, b, n - 1);
    }
  }

  // Burst, and any behaviour within the grace window, catches up tick by tick; Skip and Delay
  // beyond it give one tick and then wait.
  lemma {:induction false} CatchUpIsExact(b: MissedTickBehavior, deadline: int, now: int, period: nat)
    requires period > 0 && now >= deadline
    ensures ReadyInARow(b, deadline, now, period) ==
      if b.Burst? || now - deadline <= GRACE then (now - deadline) / period + 1 else 1
    decreases now - deadline
  {
    ReadyOnce(b, deadline, now, period);
    var next := Scheduled(b, deadline, now, period);
    if (b.Burst? || now - deadline <= GRACE) && now >= next {
      CatchUpIsExact(b, next, now, period);
      DivStep(now - deadline, period);
    }
  }

  lemma ReadyOnce(b: MissedTickBehavior, deadline: int, now: int, period: nat)
    requires period > 0 && now >= deadline
    ensures var next := Scheduled(b, deadline, now, period);
      && next > deadline
      && ReadyInARow(b, deadline, now, period) == 1 + (if now < next then 0 else ReadyInARow(b, next, now, period))
      && if b.Burst? || now - deadline <= GRACE
         then next == deadline + period && (now < next ==> (now - deadline) / period == 0)
         else now < next
  {
    ScheduledAhead(b, deadline, now, period);
    if now - deadline < period {
      DivUnique(now - deadline, period, 0, now - deadline);
    }
  }

  lemma DivStep(a: nat, d: nat)
    requires d > 0 && a >= d
    ensures a / d == (a - d) / d + 1
  {
    assert a - d == (a - d) / d * d + (a - d) % d;
    assert a == ((a - d) / d + 1) * d + (a - d) % d;
    DivUnique(a, d, (a - d) / d + 1, (a - d) % d);
  }

  lemma DivUnique(a: nat, d: nat, q: nat, r: nat)
    requires d > 0 && a == q * d + r && r < d
    ensures a / d == q
  {
    DivAtLeast(a, d, q);
    assert a == a / d * d + a % d;
    MultiplesInOrder(q, a / d, d);
  }
}
