/** The executor itself: `block_on` and the loops below it, on the mutable state they share. */
module Executors {
  import opened Wrappers
  import opened TimerSpec
  import opened Clocks
  import opened TimerDrivers
  import opened ScheduleState
  import opened JoinSpec
  import opened Programs
  import opened TaskIdSpec
  import opened ExecutorSpec
  import opened Invariant
  import opened PollInvariant
  import opened TurnInvariant
  import opened WaitInvariant
  import opened VirtualTime
  import opened RunProperties
  import opened Shutdowns

  lemma DueExactly(m: Registrations, now: int)
    ensures !NoneDue(m, now) <==> m != map[] && NextDeadline(m).value <= now
  {}

  class Executor {
    var tasks: map<nat, LocalTask>
    var pendingSpawns: seq<LocalTask>
    var ready: seq<nat>
    var nextId: nat
    var closed: bool
    // the schedules and join cells that wakers and handles share with the tasks
    var schedules: seq<Schedule>
    var joins: Cells
    // the sends that other threads have decided on and not performed yet
    var unsent: multiset<nat>
    // an `expect`, `assert!` or `unreachable!` has fired
    var fault: bool
    // what each cell's task was spawned with; how many wakes in flight the clock has overtaken
    ghost var origins: seq<Origin>
    ghost var overtaken: nat
    const clock: Clock
    const driver: TimerDriver

    ghost predicate Valid()
      reads this, driver, clock
    {
      driver.clock == clock && driver.Valid()
    }

    ghost function W(): World
      reads this, driver, clock
    {
      World(clock.mode.Paused?, clock.Now(), ready, unsent, pendingSpawns, tasks, schedules, joins, origins,
            driver.registrations, driver.nextId, nextId, closed, overtaken, fault)
    }

    constructor WithClock(clock: Clock)
      requires clock.Valid()
      ensures Valid() && this.clock == clock && W() == NewWorld(clock.mode.Paused?, clock.Now())
      ensures fresh(driver)
    {
      this.clock := clock;
      driver := new TimerDriver(clock);
      tasks, pendingSpawns, ready := map[], [], [];
      nextId, closed := 1, false;
      schedules, joins, unsent, fault := [], [], multiset{}, false;
      origins, overtaken := [], 0;
    }

    /* ---- Waking ---- */

    method RequestSchedule(s: nat)
      requires Valid()
      modifies this`schedules, this`ready
      ensures Valid() && W() == WakeSchedule(old(W()), s)
    {
      if s < |schedules| {
        var x := schedules[s];
        schedules := schedules[s := x.(state := Woken(x.state))];
        if WakeEnqueues(x.state) {
          ready := ready + [x.id];
        }
      }
    }

    method CallWakers(wakers: seq<nat>)
      requires Valid()
      modifies this`schedules, this`ready
      ensures Valid() && W() == WakeAll(old(W()), wakers)
    {
      var i := 0;
      while i < |wakers|
        invariant 0 <= i <= |wakers| && Valid()
        invariant WakeAll(W(), wakers[i..]) == WakeAll(old(W()), wakers)
      {
        assert wakers[i..][0] == wakers[i] && wakers[i..][1..] == wakers[i + 1..];
        RequestSchedule(wakers[i]);
        i := i + 1;
      }
    }

    /* ---- Other threads ---- */

    // The critical section of a wake, or the send it has decided on.
    method Act(a: ExecutorSpec.Act)
      requires Valid()
      modifies this`schedules, this`ready, this`unsent
      ensures Valid() && W() == Acted(old(W()), a)
    {
      if a.s < |schedules| {
        var x := schedules[a.s];
        match a
        case Lock(s) =>
          schedules := schedules[s := x.(state := Woken(x.state))];
          if WakeEnqueues(x.state) {
            unsent := unsent + multiset{x.id};
          }
        case Send(s) =>
          if x.state.Queued? && x.id in unsent {
            unsent := unsent - multiset{x.id};
            ready := ready + [x.id];
          }
      }
    }

    // The outside acts: real time passes, other threads take locks and send.
    method Observe(e: Event)
      requires Valid()
      modifies this`schedules, this`ready, this`unsent, clock
      ensures Valid() && W() == Outside(old(W()), e)
    {
      hide Acted;
      clock.Elapse(e.elapse);
      ghost var w := W();
      var i := 0;
      while i < |e.acts|
        invariant 0 <= i <= |e.acts| && Valid()
        invariant ActAll(W(), e.acts[i..]) == ActAll(w, e.acts)
      {
        assert e.acts[i..][0] == e.acts[i] && e.acts[i..][1..] == e.acts[i + 1..];
        Act(e.acts[i]);
        i := i + 1;
      }
    }

    /* ---- Join cells ---- */

    method Publish(c: nat, result: Result<int, JoinError>)
      requires Valid()
      modifies this`joins, this`schedules, this`ready, this`fault
      ensures Valid() && W() == ExecutorSpec.Publish(old(W()), c, result)
    {
      if c < |joins| && joins[c].Pending? {
        var waiter := joins[c].waker;
        joins := joins[c := Ready(result)];
        match waiter
        case None =>
        case Some(s) => RequestSchedule(s);
      } else {
        fault := true;
      }
    }

    // An unresolved cell forgets its waiter when its handle goes.
    method DropHandle(h: Option<nat>)
      requires Valid()
      modifies this`joins
      ensures Valid() && W() == old(W()).(joins := joins)
      ensures joins == if h.Some? && h.value < |old(joins)| && old(joins)[h.value].Pending?
          then old(joins)[h.value := JoinState.Pending(None)] else old(joins)
    {
      if h.Some? && h.value < |joins| && joins[h.value].Pending? {
        joins := joins[h.value := JoinState.Pending(None)];
      }
    }

    // Drops the handles a future still holds, one by one.
    method DropHandles(hs: seq<Option<nat>>)
      requires Valid()
      modifies this`joins
      ensures Valid() && W() == old(W()).(joins := Detached(old(joins), hs))
    {
      hide Detached;
      var i := 0;
      DetachNone(joins, hs[..0]);
      while i < |hs|
        invariant 0 <= i <= |hs| && Valid()
        invariant joins == Detached(old(joins), hs[..i])
        invariant W() == old(W()).(joins := joins)
      {
        DetachOne(old(joins), hs[..i], hs[i]);
        assert hs[..i] + [hs[i]] == hs[..i + 1];
        DropHandle(hs[i]);
        i := i + 1;
      }
      assert hs[..i] == hs;
    }

    /* ---- Spawning ---- */

    // Zero is the root's id and is skipped when the counter comes around to it.
    method NextTaskId() returns (id: nat)
      requires Valid()
      modifies this`nextId
      ensures Valid() && id != ROOT && (id, nextId) == Issue(old(nextId))
    {
      while true
        invariant nextId == old(nextId) || (old(nextId) == 0 && nextId == 1)
        decreases if nextId == 0 then 1 else 0
      {
        var n := nextId;
        nextId := WrappingSucc(nextId);
        if n != 0 {
          return n;
        }
      }
    }

    method Spawn(p: Program) returns (cell: nat)
      requires Valid()
      modifies this
      ensures Valid() && (W(), cell) == Spawned(old(W()), p)
    {
      cell := |joins|;
      if closed {
        joins := joins + [Ready(Err(Cancelled))];
        origins := origins + [Origin(p, clock.Now())];
        return;
      }
      joins := joins + [JoinState.Pending(None)];
      origins := origins + [Origin(p, clock.Now())];
      var id := NextTaskId();
      var s := |schedules|;
      schedules := schedules + [Schedule(id, Idle)];
      pendingSpawns := pendingSpawns + [LocalTask(id, s, Some(cell), Future(Run(p), 0, []))];
      RequestSchedule(s);
    }

    /* ---- Polling ---- */

    // One instruction of a future. `None` means that the poll goes on.
    method StepFuture(me: nat, f: Future) returns (f1: Future, res: Option<Polled>)
      requires Valid()
      modifies this, driver, clock
      ensures Valid()
      ensures res.None? ==> Poll(W(), me, f1) == Poll(old(W()), me, f)
      ensures res.None? ==>
        StageWork(f1.stage) < StageWork(f.stage)
        || (StageWork(f1.stage) == StageWork(f.stage) && f1.stage.Run? && !f.stage.Run?)
      ensures res.Some? ==> PollResult(W(), f1, res.value) == Poll(old(W()), me, f)
    {
      f1, res := f, None;
      match f.stage
      case Sleeping(deadline, reg, next) => f1, res := StepSleeping(me, f);
      case Yielded(next) => f1 := f.(stage := Run(next));
      case Parked(next) => f1 := f.(stage := Run(next));
      case Run(p) =>
        match p
        case Return(v) => res := Some(Resolved(Value(f.acc + v)));
        case Panic => res := Some(Resolved(Panicked));
        case Sleep(d, next) => f1, res := StepSleep(me, f);
        case Spawn(child, next) =>
          var cell := Spawn(child);
          f1 := f.(stage := Run(next), handles := f.handles + [Some(cell)]);
        case Join(_, _, _) => f1, res := StepJoin(me, f);
        case Yield(next) =>
          RequestSchedule(me);
          f1, res := f.(stage := Yielded(next)), Some(Suspended);
        case Wake(target, next) =>
          RequestSchedule(target);
          f1 := f.(stage := Run(next));
        case Busy(d, next) =>
          clock.Elapse(d);
          f1 := f.(stage := Run(next));
        case Park(next) =>
          f1, res := f.(stage := Parked(next)), Some(Suspended);
    }

    method StepSleeping(me: nat, f: Future) returns (f1: Future, res: Option<Polled>)
      requires Valid() && f.stage.Sleeping?
      modifies this`fault, driver
      ensures Valid()
      ensures res.None? ==> Poll(W(), me, f1) == Poll(old(W()), me, f)
      ensures res.None? ==> StageWork(f1.stage) < StageWork(f.stage)
      ensures res.Some? ==> PollResult(W(), f1, res.value) == Poll(old(W()), me, f)
    {
      f1, res := f, None;
      if clock.Now() >= f.stage.deadline {
        driver.Cancel(f.stage.reg);
        f1 := f.(stage := Run(f.stage.next));
      } else if f.stage.reg in driver.registrations {
        driver.UpdateWaker(f.stage.reg, me);
        res := Some(Suspended);
      } else {
        fault := true;
        res := Some(Resolved(Panicked));
      }
    }

    method StepSleep(me: nat, f: Future) returns (f1: Future, res: Option<Polled>)
      requires Valid() && f.stage.Run? && f.stage.p.Sleep?
      modifies this`fault, driver
      ensures Valid()
      ensures res.None? ==> Poll(W(), me, f1) == Poll(old(W()), me, f)
      ensures res.None? ==> StageWork(f1.stage) < StageWork(f.stage)
      ensures res.Some? ==> PollResult(W(), f1, res.value) == Poll(old(W()), me, f)
    {
      f1, res := f, None;
      var deadline := clock.Now() + f.stage.p.d;
      if clock.Now() >= deadline {
        f1 := f.(stage := Run(f.stage.p.next));
        return;
      }
      var id := driver.Register(deadline, me);
      match id
      case Some(reg) => f1, res := f.(stage := Sleeping(deadline, reg, f.stage.p.next)), Some(Suspended);
      case None =>
        fault := true;
        res := Some(Resolved(Panicked));
    }

    method StepJoin(me: nat, f: Future) returns (f1: Future, res: Option<Polled>)
      requires Valid() && f.stage.Run? && f.stage.p.Join?
      modifies this`fault, this`joins
      ensures Valid()
      ensures res.None? ==> Poll(W(), me, f1) == Poll(old(W()), me, f)
      ensures res.None? ==> StageWork(f1.stage) < StageWork(f.stage)
      ensures res.Some? ==> PollResult(W(), f1, res.value) == Poll(old(W()), me, f)
    {
      f1, res := f, None;
      var k := f.stage.p.k;
      if !(k < |f.handles| && f.handles[k].Some? && f.handles[k].value < |joins|) {
        res := Some(Resolved(Panicked));
        return;
      }
      var c := f.handles[k].value;
      match joins[c]
      case Pending(_) =>
        joins := joins[c := JoinState.Pending(Some(me))];
        res := Some(Suspended);
      case Ready(result) =>
        joins := joins[c := Consumed];
        var hs := f.handles[k := None];
        f1 := match result
              case Ok(v) => f.(stage := Run(f.stage.p.ok), acc := f.acc + v, handles := hs)
              case Err(_) => f.(stage := Run(f.stage.p.err), handles := hs);
      case Consumed =>
        fault := true;
        res := Some(Resolved(Panicked));
    }

    method PollFuture(me: nat, f: Future) returns (f1: Future, res: Polled)
      requires Valid()
      modifies this, driver, clock
      ensures Valid()
      ensures PollResult(W(), f1, res) == Poll(old(W()), me, f)
    {
      hide Poll;
      f1 := f;
      while true
        invariant Valid()
        invariant Poll(W(), me, f1) == Poll(old(W()), me, f)
        decreases StageWork(f1.stage), if f1.stage.Run? then 0 else 1
      {
        var outcome;
        f1, outcome := StepFuture(me, f1);
        if outcome.Some? {
          return f1, outcome.value;
        }
      }
    }

    method BeginPoll(s: nat)
      requires Valid()
      modifies this`schedules, this`fault
      ensures Valid() && W() == ExecutorSpec.BeginPoll(old(W()), s)
    {
      if s < |schedules| && schedules[s].state.Queued? {
        schedules := schedules[s := schedules[s].(state := Running(false))];
      } else {
        fault := true;
      }
    }

    method FinishPoll(s: nat, resolved: bool)
      requires Valid()
      modifies this`schedules, this`ready, this`fault
      ensures Valid() && W() == ExecutorSpec.FinishPoll(old(W()), s, resolved)
    {
      if s < |schedules| && schedules[s].state.Running? {
        var x := schedules[s];
        schedules := schedules[s := x.(state := Finished(x.state, resolved))];
        if FinishEnqueues(x.state, resolved) {
          ready := ready + [x.id];
        }
      } else {
        fault := true;
      }
    }

    // A resolved future drops its locals, then its result is published.
    method ResolveFuture(t: LocalTask, f: Future, o: Outcome)
      requires Valid()
      modifies this`joins, this`schedules, this`ready, this`fault
      ensures Valid() && W() == Resolve(old(W()), t, f, o)
    {
      DropHandles(f.handles);
      if t.out.Some? {
        Publish(t.out.value, ResultOf(o));
      }
    }

    // `e` is what happens outside while the future runs.
    method RunFuture(s: nat, f: Future, e: Event) returns (f1: Future, res: Polled)
      requires Valid()
      modifies this, driver, clock
      ensures Valid()
      ensures PollResult(W(), f1, res) == Poll(Outside(ExecutorSpec.BeginPoll(old(W()), s), e), s, f)
    {
      hide Poll, Outside;
      BeginPoll(s);
      Observe(e);
      f1, res := PollFuture(s, f);
    }

    method PollTask(id: nat, e: Event)
      requires Valid()
      modifies this, driver, clock
      ensures Valid() && W() == ExecutorSpec.PollTask(old(W()), id, e)
    {
      hide Poll, Resolve, Outside;
      if id !in tasks {
        fault := true;
        return;
      }
      var t := tasks[id];
      var f1, res := RunFuture(t.sched, t.future, e);
      match res
      case Suspended =>
        tasks := tasks[id := t.(future := f1)];
        FinishPoll(t.sched, false);
      case Resolved(o) =>
        ResolveFuture(t, f1, o);
        FinishPoll(t.sched, true);
        tasks := tasks - {id};
    }

    /* ---- Waiting ---- */

    method DrainPendingSpawns()
      requires Valid()
      modifies this`tasks, this`pendingSpawns
      ensures Valid() && W() == Drain(old(W()))
    {
      while pendingSpawns != []
        invariant Valid()
        invariant Admitted(tasks, pendingSpawns) == Admitted(old(tasks), old(pendingSpawns))
        decreases |pendingSpawns|
      {
        tasks := tasks[pendingSpawns[0].id := pendingSpawns[0]];
        pendingSpawns := pendingSpawns[1..];
      }
    }

    method ProcessExpired()
      requires Valid()
      modifies this`schedules, this`ready, driver
      ensures Valid() && W() == Expire(old(W()))
    {
      hide Due;
      var wakers := driver.ProcessExpired();
      CallWakers(wakers);
    }

    // Receiving takes the head of the channel.
    method TryRecv() returns (id: Option<nat>)
      requires Valid()
      modifies this`ready
      ensures Valid()
      ensures id.None? ==> W() == old(W()) && ready == []
      ensures id.Some? ==> old(ready) != [] && forall env :: Receive(old(W()), env, 0) == Received(W(), env, id.value)
    {
      if ready == [] {
        return None;
      }
      id := Some(ready[0]);
      assert Without(ready, 0) == ready[1..];
      ready := ready[1..];
    }

    // One event while blocked: a message arrives, the timeout runs out, or neither.
    method Blocked(deadline: Option<int>, env: seq<Event>) returns (id: Option<nat>, timedOut: bool)
      requires Valid() && InOrder(env) && env != []
      requires NoneDue(driver.registrations, clock.Now()) && ready == []
          && deadline == NextDeadline(driver.registrations)
      modifies this`schedules, this`ready, this`unsent, clock
      ensures Valid() && clock.mode.Paused? == old(clock.mode.Paused?)
          && driver.registrations == old(driver.registrations)
      ensures !(id.Some? && timedOut)
      ensures id.None? ==> ready == [] && timedOut == !NoneDue(driver.registrations, clock.Now())
      ensures Wait(old(W()), env) ==
        if id.Some? then Received(W(), env[1..], id.value)
        else if timedOut then NextReady(W(), env[1..])
        else Wait(W(), env[1..])
    {
      hide NextReady, Due, ActAll;
      assert env[0].pick == 0;
      ActAllFrame(Elapse(W(), env[0].elapse), env[0].acts);
      Observe(env[0]);
      id := TryRecv();
      DueExactly(driver.registrations, clock.Now());
      timedOut := id.None? && deadline.Some? && clock.Now() >= deadline.value;
    }

    // `recv` and `recv_timeout`: blocks until a message arrives or the timeout runs out. When
    // neither can happen any more, both results are negative.
    method Recv(timeout: Option<nat>, env: seq<Event>) returns (id: Option<nat>, timedOut: bool, rest: seq<Event>)
      requires Valid() && InOrder(env)
      requires NoneDue(driver.registrations, clock.Now()) && ready == []
      requires timeout == match NextDeadline(driver.registrations) case None => None case Some(d) => Some(Max(0,
          d - clock.Now()))
      requires clock.mode.Paused? ==> driver.registrations == map[]
      modifies this`schedules, this`ready, this`unsent, clock
      ensures Valid() && InOrder(rest)
      ensures !(id.Some? && timedOut)
      ensures id.Some? ==> Wait(old(W()), env) == Received(W(), rest, id.value)
      ensures id.None? && !timedOut ==> Wait(old(W()), env) == ExecutorSpec.Blocked(W())
      ensures timedOut ==> Wait(old(W()), env) == NextReady(W(), rest)
      ensures timedOut ==>
        |rest| < |env|
        || (|rest| == |env| && |Remaining(W().timers, W().now)| < |Remaining(old(W()).timers, old(W()).now)|)
    {
      hide NextReady, Due, Wait, NextDeadline;
      rest, id, timedOut := env, None, false;
      AdvanceShrinks(W());
      var deadline := if timeout.Some? then Some(clock.Now() + timeout.value) else None;
      assert deadline == NextDeadline(driver.registrations) by { AdvanceShrinks(W()); DeadlineAhead(W()); }
      while rest != []
        invariant Valid() && InOrder(rest) && |rest| <= |env| && id.None? && !timedOut
        invariant driver.registrations == old(driver.registrations)
        invariant NoneDue(driver.registrations, clock.Now()) && ready == []
        invariant clock.mode.Paused? == old(clock.mode.Paused?)
        invariant rest == env ==> W() == old(W())
        invariant Wait(W(), rest) == Wait(old(W()), env)
        decreases |rest|
      {
        id, timedOut := Blocked(deadline, rest);
        rest := rest[1..];
        if id.Some? || timedOut {
          return;
        }
      }
      WaitAtEnd(W());
      DeadlineAhead(W());
      if deadline.Some? {
        AdvanceShrinks(W());
        clock.Elapse(deadline.value - clock.Now());
        timedOut := true;
      }
    }

    // The wait loop. `None` means that the executor would block for good.
    method NextReadyId(env: seq<Event>) returns (id: Option<nat>, rest: seq<Event>)
      requires Valid() && InOrder(env)
      modifies this, driver, clock
      ensures Valid() && InOrder(rest)
      ensures match id
        case Some(i) => NextReady(old(W()), env) == Received(W(), rest, i)
        case None => NextReady(old(W()), env) == ExecutorSpec.Blocked(W())
    {
      hide NextReady, Wait, Outside, Expire, Drain, Due, WakeAll, Remaining, InOrder, NextDeadline, Stalled;
      rest := env;
      while true
        invariant Valid() && InOrder(rest)
        invariant NextReady(W(), rest) == NextReady(old(W()), env)
        decreases |rest|, |Remaining(W().timers, W().now)|
      {
        ghost var before := W();
        TidyTimers(before, rest);
        TidyFrame(before, Head(rest));
        NextReadyCases(before, rest);
        TailInOrder(rest);
        Tidy(Head(rest));
        rest := Tail(rest);
        id := TryRecv();
        if id.Some? {
          return;
        }
        ghost var tidy := W();
        AdvanceShrinks(tidy);
        var moved := driver.AdvanceToNextDeadlineIfPaused();
        if moved {
          overtaken := overtaken + if Stalled(tidy) then 1 else 0;
          assert W() == Jumped(tidy);
        } else {
          var timeout := driver.TimeUntilNextDeadline();
          var timedOut;
          id, timedOut, rest := Recv(timeout, rest);
          if !timedOut {
            return;
          }
        }
      }
    }

    // Whatever happened outside, then new tasks are admitted, then expired timers wake theirs.
    method Tidy(e: Event)
      requires Valid()
      modifies this, driver, clock
      ensures Valid() && W() == Expire(Drain(Outside(old(W()), e)))
    {
      hide Expire, Drain, Outside;
      Observe(e);
      DrainPendingSpawns();
      ProcessExpired();
    }

    /* ---- block_on ---- */

    // One poll of the root; the outcome ends `block_on`. A panic unwinds past `finish_poll`.
    method PollRootTask(root: LocalTask, env: seq<Event>) returns (root1: LocalTask, out: Option<Outcome>)
      requires Valid()
      modifies this, driver, clock
      ensures Valid()
      ensures PollRoot(old(W()), env, root) == match out
        case Some(o) => Exit(W(), o, Tail(env))
        case None => Continue(Conf(W(), root1), Tail(env))
    {
      hide Poll, Resolve, Outside;
      root1 := root;
      var f1, res := RunFuture(root.sched, root.future, Head(env));
      match res
      case Suspended =>
        FinishPoll(root.sched, false);
        return root.(future := f1), None;
      case Resolved(o) =>
        ResolveFuture(root, f1, o);
        if o.Value? {
          FinishPoll(root.sched, true);
        }
        return root, Some(o);
    }

    /* ---- Shutdown ---- */

    method DropTask(t: LocalTask)
      requires Valid()
      modifies this`joins, this`schedules, this`ready, this`fault, driver
      ensures Valid() && W() == Shutdowns.DropTask(old(W()), t)
    {
      if t.future.stage.Sleeping? {
        driver.Cancel(t.future.stage.reg);
      }
      DropHandles(t.future.handles);
      if t.out.Some? {
        Publish(t.out.value, Err(Cancelled));
      }
    }

    // No new spawns, then the queued ones go, then the admitted ones in no particular order.
    method Drop(ghost g: Ghost)
      requires Valid() && Quiet(W(), g)
      modifies this, driver
      ensures Valid() && closed && tasks == map[] && pendingSpawns == [] && !fault
      ensures joins == CancelledCells(old(joins)) && driver.registrations == map[]
    {
      hide Inv, Dropping, CancelledCells;
      ghost var w, all := W(), Admitted(tasks, pendingSpawns);
      closed := true;
      DropStart(w, g, W());
      DropPendingSpawns(w, all, g);
      DropTasks(w, all, g);
      assert tasks.Keys == {};
      DropDone(w, all, g, W());
    }

    // `w` is the world at shutdown and `all` its population.
    method DropPendingSpawns(ghost w: World, ghost all: Population, ghost g: Ghost)
      requires Valid() && closed && Inv(w, all, NOBODY, g, {}) && ROOT !in all
      requires Admitted(tasks, pendingSpawns) == all && Distinct(tasks, pendingSpawns)
      requires Dropping(w, g, W(), all.Keys)
      modifies this`pendingSpawns, this`joins, this`schedules, this`ready, this`fault, driver
      ensures Valid() && pendingSpawns == []
      ensures tasks.Keys <= all.Keys && forall id | id in tasks :: tasks[id] == all[id]
      ensures Dropping(w, g, W(), tasks.Keys)
    {
      hide Inv, Dropping, Shutdowns.DropTask, Distinct;
      while pendingSpawns != []
        invariant Valid()
        invariant Admitted(tasks, pendingSpawns).Keys <= all.Keys
        invariant forall id | id in Admitted(tasks, pendingSpawns) :: Admitted(tasks, pendingSpawns)[id] == all[id]
        invariant Distinct(tasks, pendingSpawns)
        invariant Dropping(w, g, W(), Admitted(tasks, pendingSpawns).Keys)
        decreases |pendingSpawns|
      {
        var t := pendingSpawns[0];
        ghost var before := Admitted(tasks, pendingSpawns);
        PopFront(tasks, pendingSpawns, before);
        TaskIdOf(w, all, g, t.id);
        DropOne(w, all, g, W(), before.Keys, t);
        DropTask(t);
        DroppingFrame(w, g, W(), W().(pending := pendingSpawns[1..]), before.Keys - {t.id});
        pendingSpawns := pendingSpawns[1..];
        assert Admitted(tasks, pendingSpawns).Keys == before.Keys - {t.id};
      }
    }

    method DropTasks(ghost w: World, ghost all: Population, ghost g: Ghost)
      requires Valid() && closed && Inv(w, all, NOBODY, g, {}) && ROOT !in all
      requires tasks.Keys <= all.Keys && forall id | id in tasks :: tasks[id] == all[id]
      requires Dropping(w, g, W(), tasks.Keys)
      modifies this`tasks, this`joins, this`schedules, this`ready, this`fault, driver
      ensures Valid() && tasks == map[]
      ensures Dropping(w, g, W(), {})
    {
      hide Inv, Dropping, Shutdowns.DropTask;
      while tasks != map[]
        invariant Valid()
        invariant tasks.Keys <= all.Keys
        invariant forall id | id in tasks :: tasks[id] == all[id]
        invariant Dropping(w, g, W(), tasks.Keys)
        decreases |tasks|
      {
        var id :| id in tasks;
        TaskIdOf(w, all, g, id);
        DropOne(w, all, g, W(), tasks.Keys, tasks[id]);
        DropTask(tasks[id]);
        assert (tasks - {id}).Keys == tasks.Keys - {id};
        DroppingFrame(w, g, W(), W().(tasks := tasks - {id}), tasks.Keys - {id});
        tasks := tasks - {id};
      }
      assert tasks.Keys == {};
    }

    /* ---- block_on, from start to end ---- */

    // One round of the loop. `stuck` means that the wait would never end.
    method Round(root: LocalTask, env: seq<Event>)
        returns (root1: LocalTask, rest: seq<Event>, stuck: bool, out: Option<Outcome>)
      requires Valid() && InOrder(env)
      modifies this, driver, clock
      ensures Valid() && InOrder(rest)
      ensures stuck ==> out == None
      ensures Turn(Conf(old(W()), root), env) ==
        if stuck then Stuck(Conf(W(), root1))
        else match out
             case Some(o) => Exit(W(), o, rest)
             case None => Continue(Conf(W(), root1), rest)
    {
      hide NextReady, ExecutorSpec.PollTask, PollRoot, InOrder;
      root1, stuck, out := root, false, None;
      var id;
      id, rest := NextReadyId(env);
      match id
      case None => stuck := true;
      case Some(i) =>
        if i == ROOT {
          root1, out := PollRootTask(root, rest);
        } else {
          PollTask(i, Head(rest));
        }
        TailInOrder(rest);
        rest := Tail(rest);
    }

    // Queues the root; the wait loop takes it from there.
    method Start(job: Job) returns (root: LocalTask)
      requires Valid()
      modifies this`schedules, this`ready
      ensures Valid() && Conf(W(), root) == Started(old(W()), job)
    {
      var s := |schedules|;
      schedules := schedules + [Schedule(ROOT, Idle)];
      root := LocalTask(ROOT, s, None, Future(Run(job.p), 0, job.handles));
      RequestSchedule(s);
    }

    // Returns the outcome of the root, or `None` if no task can ever run again. The ghost `g`
    // carries what the invariant is relative to.
    method BlockOn(job: Job, env: seq<Event>, ghost g: Ghost)
        returns (out: Option<Outcome>, rest: seq<Event>, ghost g1: Ghost)
      requires Valid() && InOrder(env) && CanStart(W(), job, g)
      modifies this, driver, clock
      ensures Valid()
      ensures match VirtualTime.BlockOn(old(W()), job, env)
        case Continue(_, _) => false
        case Exit(v, o, unused) => W() == v && out == Some(o) && rest == unused
        case Stuck(c) => W() == c.w && out == None
      ensures InOrder(rest) && (out.Some? ==> Quiet(W(), g1))
      ensures g1 == Launched(old(W()), job, g).(hist := g1.hist, open := g1.open)
    {
      ghost var w0, g0 := W(), Launched(W(), job, g);
      hide Inv, Quiet, CanStart, Good, Turn, Potential, Finish, EnvWeight, Whole, Meaning, Adopted, InOrder, Started,
          Surrendered, Launched, Drive, Effort, Rounds, Admitted;
      g1 := g0;
      LaunchIsGood(w0, job, env, g);
      ghost var n := Rounds(w0, job, env);
      var root := Start(job);
      rest := env;
      while true
        invariant Valid() && InOrder(rest) && Good(Conf(W(), root), g1)
        invariant g1 == g0.(hist := g1.hist, open := g1.open)
        invariant Drive(Conf(W(), root), rest, n) == VirtualTime.BlockOn(w0, job, env)
        invariant Effort(Conf(W(), root), rest) < n
        decreases n
      {
        ghost var g2 := TurnStep(Conf(W(), root), rest, g1, n);
        var stuck;
        root, rest, stuck, out := Round(root, rest);
        if stuck || out.Some? {
          return out, rest, g2;
        }
        g1, n := g2, n - 1;
      }
    }
  }

  lemma LaunchIsGood(w: World, job: Job, env: seq<Event>, g: Ghost)
    requires CanStart(w, job, g)
    ensures Good(Started(w, job), Launched(w, job, g))
    ensures Effort(Started(w, job), env) < Rounds(w, job, env)
    ensures VirtualTime.BlockOn(w, job, env) == Drive(Started(w, job), env, Rounds(w, job, env))
  {
    hide CanStart, Good, Started, Launched, Drive, Potential, Whole, Admitted, EnvWeight, Turn;
    StartKeeps(w, job, g);
  }

  lemma TurnStep(c: Conf, env: seq<Event>, g: Ghost, n: nat) returns (g1: Ghost)
    requires Good(c, g) && Effort(c, env) < n
    ensures g1 == g.(hist := g1.hist, open := g1.open)
    ensures match Turn(c, env)
      case Continue(c1, rest) => Good(c1, g1) && Effort(c1, rest) < n - 1 && Drive(c, env, n) == Drive(c1, rest, n - 1)
      case Exit(w, o, rest) => Quiet(w, g1) && Drive(c, env, n) == Exit(w, o, rest)
      case Stuck(c1) => Drive(c, env, n) == Stuck(c1)
  {
    hide Inv, Good, Quiet, Turn, Spent, Effort;
    g1 := TurnKeeps(c, env, g);
  }

  lemma TaskIdOf(w: World, all: Population, g: Ghost, id: nat)
    requires Inv(w, all, NOBODY, g, {}) && id in all
    ensures all[id].id == id
  {}

  lemma DroppingFrame(w: World, g: Ghost, v: World, u: World, left: set<nat>)
    requires Dropping(w, g, v, left) && u.fault == v.fault && u.joins == v.joins && u.timers == v.timers
    ensures Dropping(w, g, u, left)
  {}

  lemma PopFront(tasks: map<nat, LocalTask>, pending: seq<LocalTask>, all: Population)
    requires pending != [] && Distinct(tasks, pending) && all == Admitted(tasks, pending)
    ensures pending[0].id in all && all[pending[0].id] == pending[0]
    ensures Distinct(tasks, pending[1..])
    ensures Admitted(tasks, pending[1..]) == all - {pending[0].id}
    decreases |pending|
  {
    var p := pending[0];
    assert forall i | 0 <= i < |pending| - 1 :: pending[1..][i] == pending[i + 1];
    AdmittedUpdate(tasks, pending[1..], p.id, p);
    AdmittedKeys(tasks, pending[1..]);
  }

  lemma NextReadyCases(w: World, env: seq<Event>)
    ensures NoneDue(Expire(Drain(Outside(w, Head(env)))).timers, Expire(Drain(Outside(w, Head(env)))).now)
    ensures var w1 := Expire(Drain(Outside(w, Head(env))));
      NextReady(w, env) ==
        if w1.ready != [] then Receive(w1, Tail(env), Head(env).pick)
        else if w1.paused && w1.timers != map[] then NextReady(Jumped(w1), Tail(env))
        else Wait(w1, Tail(env))
  {
    TidyFrame(w, Head(env));
  }

  lemma DeadlineAhead(w: World)
    requires NoneDue(w.timers, w.now)
    ensures NextDeadline(w.timers).Some? <==> w.timers != map[]
    ensures w.timers != map[] ==> w.now < NextDeadline(w.timers).value
  {}

  lemma WaitAtEnd(w: World)
    requires NoneDue(w.timers, w.now)
    ensures Wait(w, []) ==
      if w.timers == map[] then Blocked(w) else NextReady(w.(now := NextDeadline(w.timers).value), [])
  {}

  lemma AdvanceShrinks(w: World)
    requires NoneDue(w.timers, w.now)
    ensures w.timers != map[] ==> NextDeadline(w.timers).Some? && w.now <= NextDeadline(w.timers).value
    ensures w.timers != map[] ==> |Remaining(w.timers, NextDeadline(w.timers).value)| < |Remaining(w.timers, w.now)|
  {
    if w.timers != map[] {
      EarliestLeaves(w.timers, w.now, NextDeadline(w.timers).value);
    }
  }

  lemma DetachNone(js: Cells, hs: seq<Option<nat>>)
    requires hs == []
    ensures Detached(js, hs) == js
  {}

  lemma DetachOne(js: Cells, hs: seq<Option<nat>>, h: Option<nat>)
    ensures Detached(js, hs + [h]) ==
      if h.Some? && h.value < |js| && js[h.value].Pending? then Detached(js, hs)[h.value := JoinState.Pending(None)]
          else Detached(js, hs)
  {}
}
