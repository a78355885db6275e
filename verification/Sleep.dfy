/** The sleep future and the timeout built on it, each against the shared driver. */
module Sleeps {
  import opened Wrappers
  import opened TimerSpec
  import opened Clocks
  import opened TimerDrivers
  import S = SleepSystem

  class Sleep {
    var deadline: int
    var registration: Option<nat>
    const timer: TimerDriver

    // A held id is either a live registration at the sleep's own deadline or a leftover of an
    // expiry, in which case the deadline has passed.
    ghost predicate Valid()
      reads this, timer, timer.clock
    {
      && timer.Valid()
      && (registration.Some? ==>
            if registration.value in timer.registrations
            then timer.registrations[registration.value].deadline == deadline
            else deadline <= timer.clock.Now())
    }

    constructor (timer: TimerDriver, deadline: int)
      requires timer.Valid()
      ensures Valid() && this.timer == timer && this.deadline == deadline && registration == None
    {
      this.timer := timer;
      this.deadline := deadline;
      registration := None;
    }

    predicate IsElapsed()
      reads this, timer, timer.clock
    {
      timer.clock.Now() >= deadline
    }

    // This sleep and its driver as a system of one; `w` is the waker of the last Pending poll.
    ghost function Alone(w: nat): S.Sys
      reads this, timer, timer.clock
    {
      S.Sys(map[0 := S.SleepState(deadline, registration, w)], timer.registrations, timer.nextId, timer.clock.Now(),
          false)
    }

    // A stale id is forgotten as soon as the deadline is moved, so the clause above survives.
    method Reset(newDeadline: int)
      requires Valid()
      modifies this, timer
      ensures Valid() && deadline == newDeadline && timer.nextId == old(timer.nextId)
      ensures registration == if old(registration).Some? && old(registration).value in old(timer.registrations)
          then old(registration) else None
      ensures timer.registrations ==
        if registration.Some?
        then old(timer.registrations)[registration.value := Registration(newDeadline,
            old(timer.registrations)[registration.value].waker)]
        else old(timer.registrations)
      ensures forall w: nat :: S.Step(old(Alone(w)), S.Reset(0, newDeadline)) == Alone(w)
    {
      deadline := newDeadline;
      if registration.Some? {
        var found := timer.Reschedule(registration.value, newDeadline);
        if !found {
          registration := None;
        }
      }
    }

    // Ready leaves no registration behind; Pending leaves exactly one, at the current deadline
    // and with the latest waker. `exhausted` is the panic of the id counter.
    method Poll(waker: nat) returns (ready: bool, exhausted: bool)
      requires Valid()
      modifies this, timer
      ensures !exhausted ==> Valid()
      ensures deadline == old(deadline) && ready == old(IsElapsed())
      ensures exhausted <==> !ready && old(registration).None? && old(timer.nextId) in old(timer.registrations)
      ensures timer.nextId ==
        if ready || old(registration).Some? then old(timer.nextId) else WrappingSucc(old(timer.nextId))
      ensures ready ==> registration == None
      ensures ready ==>
        timer.registrations ==
          if old(registration).Some? then old(timer.registrations) - {old(registration).value}
          else old(timer.registrations)
      ensures !ready && !exhausted ==>
          registration == Some(if old(registration).Some? then old(registration).value else old(timer.nextId))
      ensures !ready && !exhausted ==>
          timer.registrations == old(timer.registrations)[registration.value := Registration(deadline, waker)]
      ensures forall w: nat ::
        S.Step(old(Alone(w)), S.Poll(0, waker)) == Alone(if ready || exhausted then w else waker).(fault := exhausted)
    {
      exhausted := false;
      ready := timer.clock.Now() >= deadline;
      if ready {
        if registration.Some? {
          timer.Cancel(registration.value);
          registration := None;
        }
        return;
      }
      if registration.Some? {
        timer.UpdateWaker(registration.value, waker);
      } else {
        var id := timer.Register(deadline, waker);
        exhausted := id.None?;
        registration := id;
      }
    }

    method Drop()
      requires Valid()
      modifies this, timer
      ensures Valid() && registration == None && timer.nextId == old(timer.nextId)
      ensures timer.registrations == if old(registration).Some?
          then old(timer.registrations) - {old(registration).value} else old(timer.registrations)
      ensures forall w: nat :: S.Step(old(Alone(w)), S.Drop(0)) == Alone(w).(sleeps := map[])
    {
      if registration.Some? {
        timer.Cancel(registration.value);
        registration := None;
      }
    }
  }

  datatype TimeoutResult = Pending | Completed(v: int) | Elapsed | Exhausted

  // The inner future is abstract: `us` is what polling it does to the driver this time, where it
  // may hold timers of its own but does not know the timeout's, and `inner` is what it returns.
  class Timeout {
    var future: bool          // still owned
    var sleep: Sleep?
    const timer: TimerDriver

    ghost predicate Valid()
      reads this, timer, timer.clock, sleep
    {
      && timer.Valid()
      && (future <==> sleep != null)
      && (sleep != null ==> sleep.timer == timer && sleep.Valid())
    }

    // What is registered for the timeout.
    ghost function Standing(): Option<Registration>
      reads this, sleep, timer
    {
      if sleep != null && sleep.registration.Some? && sleep.registration.value in timer.registrations
      then Some(timer.registrations[sleep.registration.value]) else None
    }

    constructor (sleep: Sleep)
      requires sleep.Valid()
      ensures Valid() && this.sleep == sleep && this.timer == sleep.timer && future
    {
      this.sleep := sleep;
      this.timer := sleep.timer;
      future := true;
    }

    // The inner future goes first and wins ties; in both ready cases the future and the sleep
    // are gone and the sleep's registration with them. Polling again would be a panic.
    method Poll(us: seq<Use>, inner: Option<int>, waker: nat) returns (r: TimeoutResult)
      requires Valid() && future
      requires sleep.registration.Some? ==> Spares(timer.registrations, timer.nextId, us, sleep.registration.value)
      modifies this, sleep, timer
      ensures var (m, next) := UsedAll(old(timer.registrations), old(timer.nextId), us);
        && r == (if inner.Some? then Completed(inner.value)
                 else if old(sleep.IsElapsed()) then Elapsed
                 else if old(sleep.registration).None? && next in m then Exhausted
                 else Pending)
        && (r.Completed? || r.Elapsed? ==>
              timer.registrations == if old(sleep.registration).Some? then m - {old(sleep.registration).value} else m)
        && (r.Pending? ==>
              && sleep == old(sleep) && sleep.deadline == old(sleep.deadline)
              && sleep.registration ==
                 (if old(sleep.registration).Some? then old(sleep.registration) else Some(next))
              && timer.registrations == m[sleep.registration.value := Registration(old(sleep.deadline), waker)])
        && timer.nextId == if !future || old(sleep.registration).Some? then next else WrappingSucc(next)
      ensures r.Completed? || r.Elapsed? ==> Valid() && !future && sleep == null
      ensures r.Pending? ==> Valid() && future
      // one step of the runs below
      ensures !r.Exhausted? ==> forall rs: seq<TimeoutResult>, left: seq<Option<Registration>> ::
        Asked(Life(old(sleep.deadline), false, rs, left), Ask(timer.clock.Now(), inner, waker))
          == Life(old(sleep.deadline), !future, rs + [r], left + [Standing()])
    {
      timer.PerformAll(us);
      if sleep.registration.Some? {
        SparedStays(old(timer.registrations), old(timer.nextId), us, sleep.registration.value);
      }
      if inner.Some? {
        future := false;
        sleep.Drop();
        sleep := null;
        return Completed(inner.value);
      }
      var ready, exhausted := sleep.Poll(waker);
      if ready {
        future := false;
        sleep.Drop();
        sleep := null;
        return Elapsed;
      }
      return if exhausted then Exhausted else Pending;
    }

    method Drop()
      requires Valid()
      modifies this, sleep, timer
      ensures Valid() && !future && sleep == null && timer.nextId == old(timer.nextId)
      ensures timer.registrations ==
        if old(future) && old(sleep.registration).Some? then old(timer.registrations) - {old(sleep.registration).value}
            else old(timer.registrations)
    {
      future := false;
      if sleep != null {
        sleep.Drop();
        sleep := null;
      }
    }
  }

  /* ---- Runs of a timeout ---- */

  // A poll: when it is made, what the inner future returns in it, and who is to be woken.
  datatype Ask = Ask(now: int, inner: Option<int>, waker: nat)

  // The deadline, whether the timeout is over, what it has answered, and what was registered for
  // it after each answer.
  datatype Life = Life(deadline: int, over: bool, answers: seq<TimeoutResult>, left: seq<Option<Registration>>)

  function Asked(x: Life, a: Ask): Life {
    if x.over then x
    else if a.inner.Some? then Life(x.deadline, true, x.answers + [Completed(a.inner.value)], x.left + [None])
    else if a.now >= x.deadline then Life(x.deadline, true, x.answers + [Elapsed], x.left + [None])
    else x.(answers := x.answers + [Pending], left := x.left + [Some(Registration(x.deadline, a.waker))])
  }

  function Lives(deadline: int, asks: seq<Ask>): Life
    decreases |asks|
  {
    if asks == [] then Life(deadline, false, [], [])
    else Asked(Lives(deadline, asks[..|asks| - 1]), asks[|asks| - 1])
  }

  // `n` polls find the inner future pending and the deadline ahead, and the next one, if there is
  // one, does not.
  ghost predicate EndsAt(deadline: int, asks: seq<Ask>, n: nat) {
    && n <= |asks| && (n < |asks| ==> asks[n].inner.Some? || asks[n].now >= deadline)
    && forall i | 0 <= i < n :: asks[i].inner.None? && asks[i].now < deadline
  }

  // Over any run of polls the deadline stays the one the timeout was created with. As long as the
  // inner future is pending and the deadline lies ahead, the answer is Pending and one
  // registration stands at that deadline, for the latest waker. The first poll that finds the
  // inner future done, be it after the deadline, answers with its value; one that finds it pending
  // at or after the deadline answers Elapsed; nothing is registered then, and that is the end.
  lemma {:induction false} TimeoutEndsOnce(deadline: int, asks: seq<Ask>, n: nat)
    requires EndsAt(deadline, asks, n)
    ensures var x := Lives(deadline, asks);
      && x.deadline == deadline && x.over == (n < |asks|)
      && |x.answers| == |x.left| == (if n < |asks| then n + 1 else n)
      && (forall i | 0 <= i < n ::
            x.answers[i] == Pending && x.left[i] == Some(Registration(deadline, asks[i].waker)))
      && (n < |asks| ==> x.left[n] == None)
      && (n < |asks| ==>
            x.answers[n] == if asks[n].inner.Some? then Completed(asks[n].inner.value) else Elapsed)
    decreases |asks|
  {
    if asks != [] {
      var init := asks[..|asks| - 1];
      TimeoutEndsOnce(deadline, init, if n < |asks| then n else |init|);
    }
  }

  // Hence, with an inner future that stays pending: Elapsed exactly at the first poll at or after
  // the deadline.
  lemma ElapsesOnTime(deadline: int, asks: seq<Ask>, n: nat)
    requires forall i | 0 <= i < |asks| :: asks[i].inner.None?
    requires n < |asks|
    ensures var x := Lives(deadline, asks);
      (n < |x.answers| && x.answers[n] == Elapsed) <==>
        (asks[n].now >= deadline && forall i | 0 <= i < n :: asks[i].now < deadline)
  {
    var m := FirstEnd(deadline, asks);
    TimeoutEndsOnce(deadline, asks, m);
  }

  lemma {:induction false} FirstEnd(deadline: int, asks: seq<Ask>) returns (m: nat)
    ensures EndsAt(deadline, asks, m)
    decreases |asks|
  {
    m := 0;
    if asks != [] {
      var last := asks[|asks| - 1];
      m := FirstEnd(deadline, asks[..|asks| - 1]);
      if m == |asks| - 1 && last.inner.None? && last.now < deadline { m := |asks|; }
    }
  }
}
