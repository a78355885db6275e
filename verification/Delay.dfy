/** What a delayed send costs. A wake changes the schedule under its lock and sends the id after
    releasing it. While a thread is between the two, the executor finds its channel empty and a
    paused clock moves on; the task the thread has woken is polled only when the send lands. */
module Delays {
  import opened Wrappers
  import opened TimerSpec
  import opened ScheduleState
  import opened JoinSpec
  import opened Programs
  import opened ExecutorSpec
  import opened Invariant
  import opened PollInvariant
  import opened TurnInvariant
  import opened WaitInvariant
  import opened VirtualTime

  // The root sleeps for `a`, a detached child for `b`.
  function Sleepers(a: nat, b: nat): Program {
    Program.Spawn(Program.Sleep(b, Return(0)), Program.Sleep(a, Return(0)))
  }

  // `m` rounds of the loop go by first.
  function Later(m: nat, p: Program): Program {
    if m == 0 then p else Yield(Later(m - 1, p))
  }

  function Quiets(n: nat): seq<Event> {
    seq(n, i => QUIET)
  }

  const LOCK := Event(0, [Lock(0)], 0)
  const SEND := Event(0, [Act.Send(0)], 0)

  // Once both are asleep and the clock has just been moved to the root's deadline, a thread wakes
  // the root, and is held up over a single step of the wait loop before it sends.
  function HeldUp(m: nat): seq<Event> {
    Quiets(2 * m) + [QUIET, QUIET, QUIET, QUIET, QUIET, LOCK, SEND]
  }

  // The same with a thread that sends at once.
  function Swift(m: nat): seq<Event> {
    Quiets(2 * m) + [QUIET, QUIET, QUIET, QUIET, QUIET, Event(0, [Lock(0), Act.Send(0)], 0)]
  }

  /* ---- The worlds on the way ---- */

  function RootAt(stage: Stage, handles: seq<Option<nat>>): LocalTask {
    LocalTask(ROOT, 0, None, Future(stage, 0, handles))
  }

  function ChildAt(stage: Stage): LocalTask {
    LocalTask(1, 1, Some(0), Future(stage, 0, []))
  }

  function Asleep(t: int, a: nat): LocalTask {
    RootAt(Sleeping(t + a, 0, Return(0)), [Some(0)])
  }

  // Only the root is there, and it is queued.
  function Alone(t: int): World {
    NewWorld(true, t).(ready := [0], schedules := [Schedule(0, Queued)])
  }

  // The root has been polled.
  function Polled1(t: int, a: nat, b: nat): World {
    World(true, t, [1], multiset{}, [ChildAt(Run(Program.Sleep(b, Return(0))))], map[],
        [Schedule(0, Idle), Schedule(1, Queued)],
          [JoinState.Pending(None)], [Origin(Program.Sleep(b, Return(0)), t)], map[0 := Registration(t + a, 0)], 1, 2,
              false, 0, false)
  }

  // Both are asleep.
  function Polled2(t: int, a: nat, b: nat): World {
    Polled1(t, a, b).(ready := [], pending := [], tasks := map[1 := ChildAt(Sleeping(t + b, 1, Return(0)))],
                      schedules := [Schedule(0, Idle), Schedule(1, Idle)],
                      timers := map[0 := Registration(t + a, 0), 1 := Registration(t + b, 1)], nextTimer := 2)
  }

  // The root has been woken, its own timer has fired in vain, and nothing has been sent.
  function Fired(t: int, a: nat, b: nat): World {
    Polled2(t, a, b).(now := t + a, schedules := [Schedule(0, Queued), Schedule(1, Idle)], unsent := multiset{0},
                      timers := map[1 := Registration(t + b, 1)])
  }

  // The clock has moved past the root, to the child's deadline.
  function Overtaken(t: int, a: nat, b: nat): World {
    Fired(t, a, b).(now := t + b, overtaken := 1)
  }

  // The send has landed, and the root is received.
  function Landed(t: int, a: nat, b: nat): World {
    Overtaken(t, a, b).(ready := [1], schedules := [Schedule(0, Queued), Schedule(1, Queued)], unsent := multiset{},
        timers := map[])
  }

  function Ended(t: int, a: nat, b: nat): World {
    Landed(t, a, b).(schedules := [Schedule(0, Complete), Schedule(1, Queued)])
  }

  /* ---- Expiry on small maps ---- */

  lemma NoneExpire(w: World)
    requires NoneDue(w.timers, w.now)
    ensures Expire(w) == w
  {
    EverythingRemains(w.timers, w.now);
  }

  lemma EverythingRemains(m: Registrations, now: int)
    requires NoneDue(m, now)
    ensures Remaining(m, now) == m && Due(m, now) == []
  {}

  lemma OneExpires(w: World, id: nat)
    requires id in w.timers && w.timers[id].deadline <= w.now
    requires forall j | j in w.timers && j != id :: w.timers[j].deadline > w.now
    ensures Expire(w) == WakeSchedule(w.(timers := w.timers - {id}), w.timers[id].waker)
  {
    DueIsExact(w.timers, w.now);
    ExpiryOrderIsUnique(w.timers, Due(w.timers, w.now), [id]);
    assert Remaining(w.timers, w.now) == w.timers - {id};
    assert Wakers(w.timers, [id]) == [w.timers[id].waker];
    var v := w.(timers := w.timers - {id});
    assert WakeAll(v, [w.timers[id].waker]) == WakeAll(WakeSchedule(v, w.timers[id].waker), []);
  }

  lemma Next(m: Registrations, id: nat)
    requires IsEarliest(m, id)
    ensures m != map[] && NextDeadline(m) == Some(m[id].deadline)
  {
    EarliestIsUnique(m, Earliest(m), id);
  }

  lemma NothingOutside(w: World)
    requires w.paused
    ensures Outside(w, QUIET) == w
  {}

  /* ---- Round by round ---- */

  lemma TwoQuiets(rest: seq<Event>)
    ensures Head([QUIET, QUIET] + rest) == QUIET && Tail([QUIET, QUIET] + rest) == [QUIET] + rest
    ensures Head([QUIET] + rest) == QUIET && Tail([QUIET] + rest) == rest
  {}

  lemma FirstWait(t: int, rest: seq<Event>)
    ensures NextReady(Alone(t), [QUIET, QUIET] + rest) == Received(Alone(t).(ready := []), [QUIET] + rest, 0)
  {
    TwoQuiets(rest);
    NothingOutside(Alone(t));
    NoneExpire(Alone(t));
    assert Without([0], 0) == [];
  }

  // The stage of the root before its first poll and between two yields.
  function StageOf(unpolled: bool, p: Program): Stage {
    if unpolled then Run(p) else Yielded(p)
  }

  lemma YieldRound(t: int, unpolled: bool, next: Program, rest: seq<Event>)
    ensures Turn(Conf(Alone(t), RootAt(StageOf(unpolled, Yield(next)), [])), [QUIET, QUIET] + rest)
         == Continue(Conf(Alone(t), RootAt(Yielded(next), [])), rest)
  {
    hide NextReady, Outside;
    FirstWait(t, rest);
    TwoQuiets(rest);
    var begun := Alone(t).(ready := [], schedules := [Schedule(0, Running(false))]);
    assert BeginPoll(Alone(t).(ready := []), 0) == begun;
    NothingOutside(begun);
    var f := Future(StageOf(unpolled, Yield(next)), 0, []);
    assert Poll(begun, 0, f) == Poll(begun, 0, f.(stage := Run(Yield(next))));
    assert WakeSchedule(begun, 0) == begun.(schedules := [Schedule(0, Running(true))]);
    assert Poll(begun, 0, f) == PollResult(WakeSchedule(begun, 0), f.(stage := Yielded(next)), Suspended);
  }

  lemma {:induction false} YieldRounds(t: int, m: nat, unpolled: bool, p: Program, rest: seq<Event>, n: nat)
    ensures Drive(Conf(Alone(t), RootAt(StageOf(unpolled, Later(m, p)), [])), Quiets(2 * m) + rest, m + n)
         == Drive(Conf(Alone(t), RootAt(StageOf(unpolled && m == 0, p), [])), rest, n)
    decreases m
  {
    hide Turn;
    if m == 0 {
      assert Quiets(0) + rest == rest;
    } else {
      assert Quiets(2 * m) + rest == [QUIET, QUIET] + (Quiets(2 * (m - 1)) + rest);
      YieldRound(t, unpolled, Later(m - 1, p), Quiets(2 * (m - 1)) + rest);
      YieldRounds(t, m - 1, false, p, rest, n);
    }
  }

  lemma FirstRound(t: int, a: nat, b: nat, unpolled: bool, rest: seq<Event>)
    requires 0 < a < b
    ensures Turn(Conf(Alone(t), RootAt(StageOf(unpolled, Sleepers(a, b)), [])), [QUIET, QUIET] + rest)
         == Continue(Conf(Polled1(t, a, b), Asleep(t, a)), rest)
  {
    hide NextReady, Poll, Outside;
    FirstWait(t, rest);
    TwoQuiets(rest);
    var begun := Alone(t).(ready := [], schedules := [Schedule(0, Running(false))]);
    assert BeginPoll(Alone(t).(ready := []), 0) == begun;
    NothingOutside(begun);
    SameFromYield(begun, unpolled, Sleepers(a, b));
    FirstPoll(t, a, b);
  }

  lemma SameFromYield(w: World, unpolled: bool, p: Program)
    ensures Poll(w, 0, Future(StageOf(unpolled, p), 0, [])) == Poll(w, 0, Future(Run(p), 0, []))
  {}

  lemma FirstPoll(t: int, a: nat, b: nat)
    requires 0 < a < b
    ensures var w := NewWorld(true, t).(schedules := [Schedule(0, Running(false))]);
      Poll(w, 0, Future(Run(Sleepers(a, b)), 0, [])) ==
        PollResult(Polled1(t, a, b).(schedules := [Schedule(0, Running(false)), Schedule(1, Queued)]),
            Asleep(t, a).future, Suspended)
  {
    var w := NewWorld(true, t).(schedules := [Schedule(0, Running(false))]);
    var (w1, cell) := Spawned(w, Program.Sleep(b, Return(0)));
    assert cell == 0;
    assert w1 == Polled1(t, a, b).(schedules := [Schedule(0, Running(false)), Schedule(1, Queued)], timers := map[],
        nextTimer := 0);
    var f := Future(Run(Program.Sleep(a, Return(0))), 0, [Some(0)]);
    assert Poll(w, 0, Future(Run(Sleepers(a, b)), 0, [])) == Poll(w1, 0, f);
  }

  lemma SecondWait(t: int, a: nat, b: nat, rest: seq<Event>)
    requires 0 < a < b
    ensures var w := Polled1(t, a, b);
      NextReady(w, [QUIET, QUIET] + rest) ==
        Received(w.(ready := [], pending := [], tasks := map[1 := ChildAt(Run(Program.Sleep(b, Return(0))))]),
            [QUIET] + rest, 1)
  {
    var w := Polled1(t, a, b);
    var child := ChildAt(Run(Program.Sleep(b, Return(0))));
    TwoQuiets(rest);
    NothingOutside(w);
    var v := w.(pending := [], tasks := map[1 := child]);
    assert Drain(w) == v by { assert Admitted(map[], [child]) == Admitted(map[1 := child], []); }
    NoneExpire(v);
    assert Without([1], 0) == [];
  }

  lemma SecondPoll(t: int, a: nat, b: nat)
    requires 0 < a < b
    ensures PollTask(Polled1(t, a, b).(ready := [], pending := [],
        tasks := map[1 := ChildAt(Run(Program.Sleep(b, Return(0))))]), 1, QUIET)
         == Polled2(t, a, b)
  {
    hide Outside;
    var child := ChildAt(Run(Program.Sleep(b, Return(0))));
    var v := Polled1(t, a, b).(ready := [], pending := [], tasks := map[1 := child]);
    var begun := v.(schedules := [Schedule(0, Idle), Schedule(1, Running(false))]);
    assert BeginPoll(v, 1) == begun;
    NothingOutside(begun);
    assert Poll(begun, 1, child.future) ==
      PollResult(begun.(timers := map[0 := Registration(t + a, 0), 1 := Registration(t + b, 1)], nextTimer := 2),
                 ChildAt(Sleeping(t + b, 1, Return(0))).future, Suspended);
  }

  lemma SecondRound(t: int, a: nat, b: nat, rest: seq<Event>)
    requires 0 < a < b
    ensures Turn(Conf(Polled1(t, a, b), Asleep(t, a)), [QUIET, QUIET] + rest)
        == Continue(Conf(Polled2(t, a, b), Asleep(t, a)), rest)
  {
    hide NextReady, PollTask;
    SecondWait(t, a, b, rest);
    SecondPoll(t, a, b);
    TwoQuiets(rest);
  }

  // The wait of the third round: jump, lock, expiry in vain, jump past the root, send.
  lemma LongWait(t: int, a: nat, b: nat)
    requires 0 < a < b
    ensures NextReady(Polled2(t, a, b), [QUIET, LOCK, SEND]) == Received(Landed(t, a, b), [], 0)
  {
    hide NextReady;
    FirstJump(t, a, b);
    LockStep(t, a, b);
    SendStep(t, a, b);
  }

  lemma FirstJump(t: int, a: nat, b: nat)
    requires 0 < a < b
    ensures NextReady(Polled2(t, a, b), [QUIET, LOCK, SEND]) == NextReady(Polled2(t, a, b).(now := t + a), [LOCK, SEND])
  {
    var w := Polled2(t, a, b);
    assert [QUIET, LOCK, SEND][1..] == [LOCK, SEND];
    NothingOutside(w);
    NoneExpire(w);
    Next(w.timers, 0);
    assert Jumped(w) == w.(now := t + a);
  }

  lemma LockOutside(t: int, a: nat, b: nat)
    ensures var w := Polled2(t, a, b).(now := t + a);
      Outside(w, LOCK) == w.(schedules := [Schedule(0, Queued), Schedule(1, Idle)], unsent := multiset{0})
  {
    var w := Polled2(t, a, b).(now := t + a);
    var v := w.(schedules := [Schedule(0, Queued), Schedule(1, Idle)], unsent := multiset{0});
    assert Acted(w, Lock(0)) == v;
    assert ActAll(w, [Lock(0)]) == ActAll(v, []);
  }

  lemma LockStep(t: int, a: nat, b: nat)
    requires 0 < a < b
    ensures NextReady(Polled2(t, a, b).(now := t + a), [LOCK, SEND]) == NextReady(Overtaken(t, a, b), [SEND])
  {
    hide Outside, Expire;
    var w, v := Polled2(t, a, b).(now := t + a), Fired(t, a, b);
    assert [LOCK, SEND][1..] == [SEND];
    LockOutside(t, a, b);
    FireInVain(t, a, b);
    Next(v.timers, 1);
    assert StalledTask(v, 0);
    assert Jumped(v) == Overtaken(t, a, b);
  }

  lemma FireInVain(t: int, a: nat, b: nat)
    requires 0 < a < b
    ensures Expire(Drain(Outside(Polled2(t, a, b).(now := t + a), LOCK))) == Fired(t, a, b)
  {
    hide Expire;
    LockOutside(t, a, b);
    var w := Polled2(t, a, b).(now := t + a, schedules := [Schedule(0, Queued), Schedule(1, Idle)],
        unsent := multiset{0});
    OneExpires(w, 0);
    assert w.timers - {0} == Fired(t, a, b).timers;
    assert w.schedules[0 := Schedule(0, Queued)] == w.schedules;
  }

  lemma SendStep(t: int, a: nat, b: nat)
    requires 0 < a < b
    ensures NextReady(Overtaken(t, a, b), [SEND]) == Received(Landed(t, a, b), [], 0)
  {
    hide Expire;
    var w := Overtaken(t, a, b);
    var v := w.(unsent := multiset{}, ready := [0]);
    assert [SEND][1..] == [];
    assert Outside(w, SEND) == v by {
      assert Acted(w, Act.Send(0)) == v;
      assert ActAll(w, [Act.Send(0)]) == ActAll(v, []);
    }
    OneExpires(v, 1);
    assert v.timers - {1} == map[];
    assert v.schedules[1 := Schedule(1, Queued)] == [Schedule(0, Queued), Schedule(1, Queued)];
    assert Without([0, 1], 0) == [1];
  }

  lemma ThirdRound(t: int, a: nat, b: nat)
    requires 0 < a < b
    ensures Turn(Conf(Polled2(t, a, b), Asleep(t, a)), [QUIET, LOCK, SEND]) == Exit(Ended(t, a, b), Value(0), [])
  {
    hide NextReady, PollRoot;
    LongWait(t, a, b);
    LastPoll(t, a, b);
  }

  lemma LastPoll(t: int, a: nat, b: nat)
    requires 0 < a < b
    ensures PollRoot(Landed(t, a, b), [], Asleep(t, a)) == Exit(Ended(t, a, b), Value(0), [])
  {
    hide Poll, Outside;
    var w := Landed(t, a, b);
    var begun := w.(schedules := [Schedule(0, Running(false)), Schedule(1, Queued)]);
    assert BeginPoll(w, 0) == begun;
    NothingOutside(begun);
    LastStep(t, a, b, begun);
    assert Detached(begun.joins, Asleep(t, a).future.handles) == begun.joins;
  }

  lemma LastStep(t: int, a: nat, b: nat, w: World)
    requires w.now == t + b && a < b && w.timers == map[]
    ensures Poll(w, 0, Asleep(t, a).future)
        == PollResult(w, Asleep(t, a).future.(stage := Run(Return(0))), Resolved(Value(0)))
  {
    assert w.timers - {0} == w.timers;
    assert Poll(w, 0, Asleep(t, a).future) == Poll(w, 0, Asleep(t, a).future.(stage := Run(Return(0))));
  }

  /* ---- The result ---- */

  lemma HeldUpParts(m: nat)
    ensures HeldUp(m) == Quiets(2 * m) + ([QUIET, QUIET] + ([QUIET, QUIET] + [QUIET, LOCK, SEND]))
  {}

  lemma AllRounds(t: int, a: nat, b: nat, m: nat)
    requires 0 < a < b
    ensures Drive(Started(NewWorld(true, t), Job(Later(m, Sleepers(a, b)), [])), HeldUp(m), m + 3)
        == Exit(Ended(t, a, b), Value(0), [])
  {
    hide Turn, Later, Sleepers;
    var p := Sleepers(a, b);
    assert Started(NewWorld(true, t), Job(Later(m, p), [])) == Conf(Alone(t), RootAt(StageOf(true, Later(m, p)), []));
    HeldUpParts(m);
    var wait := [QUIET, LOCK, SEND];
    YieldRounds(t, m, true, p, [QUIET, QUIET] + ([QUIET, QUIET] + wait), 3);
    var c0 := Conf(Alone(t), RootAt(StageOf(m == 0, p), []));
    var c1, c2 := Conf(Polled1(t, a, b), Asleep(t, a)), Conf(Polled2(t, a, b), Asleep(t, a));
    FirstRound(t, a, b, m == 0, [QUIET, QUIET] + wait);
    SecondRound(t, a, b, wait);
    ThirdRound(t, a, b);
    assert Drive(c2, wait, 1) == Exit(Ended(t, a, b), Value(0), []);
    assert Drive(c1, [QUIET, QUIET] + wait, 2) == Drive(c2, wait, 1);
    assert Drive(c0, [QUIET, QUIET] + ([QUIET, QUIET] + wait), 3) == Drive(c1, [QUIET, QUIET] + wait, 2);
  }

  // The same program, waking the root at the same time: a thread that sends at once does no
  // harm, and one that is held up over a single step of the wait loop makes the root return at the
  // child's deadline instead of its own, however small the one and however large the other, and
  // however late in the run. Both threads do perform their sends.
  lemma DelayedSendIsLate(t: int, a: nat, b: nat, m: nat)
    requires 0 < a < b
    ensures var p := Later(m, Sleepers(a, b));
      && Finish(p, t, 0, []) == Done(t + a, Value(0))
      && (var r := BlockOn(NewWorld(true, t), Job(p, []), HeldUp(m));
          r.Exit? && r.out == Value(0) && r.w.now == t + b && r.w.overtaken == 1)
      && (m + 8 < U64 ==>
            var r := BlockOn(NewWorld(true, t), Job(p, []), Swift(m));
            r.Exit? && r.out == Value(0) && r.w.now == t + a)
    ensures OpenAfter({}, HeldUp(m)) == {} && !Prompt(HeldUp(m)) && Prompt(Swift(m))
  {
    hide Drive, Finish, Started;
    var p := Later(m, Sleepers(a, b));
    var job := Job(p, []);
    MeaningOfSleepers(t, a, b);
    LaterMeans(m, Sleepers(a, b), t);
    AllRounds(t, a, b, m);
    EnoughRounds(t, p, HeldUp(m));
    DriveMore(Started(NewWorld(true, t), job), HeldUp(m), m + 3, Rounds(NewWorld(true, t), job, HeldUp(m)));
    OpenForAWhile(m);
    SwiftIsPrompt(m);
    if m + 8 < U64 {
      SwiftIsOnTime(t, a, b, m);
    }
  }

  lemma MeaningOfSleepers(t: int, a: nat, b: nat)
    ensures Finish(Sleepers(a, b), t, 0, []) == Done(t + a, Value(0))
    ensures NoPark(Sleepers(a, b)) && Work(Sleepers(a, b)) == 7
  {
    var hs := [Some(Finish(Program.Sleep(b, Return(0)), t, 0, []))];
    assert [] + hs == hs;
    assert Finish(Sleepers(a, b), t, 0, []) == Finish(Program.Sleep(a, Return(0)), t, 0, hs);
    assert Finish(Program.Sleep(a, Return(0)), t, 0, hs) == Finish(Return(0), t + a, 0, hs);
    assert NoPark(Return(0)) && Work(Return(0)) == 1;
    assert NoPark(Program.Sleep(b, Return(0))) && Work(Program.Sleep(b, Return(0))) == 3;
    assert NoPark(Program.Sleep(a, Return(0))) && Work(Program.Sleep(a, Return(0))) == 3;
  }

  lemma {:induction false} LaterMeans(m: nat, p: Program, t: int)
    ensures Finish(Later(m, p), t, 0, []) == Finish(p, t, 0, [])
    ensures NoPark(Later(m, p)) == NoPark(p) && Work(Later(m, p)) == m + Work(p)
  {
    if m > 0 {
      LaterMeans(m - 1, p, t);
    }
  }

  lemma EnoughRounds(t: int, p: Program, env: seq<Event>)
    ensures Rounds(NewWorld(true, t), Job(p, []), env) >= 4 * Work(p)
  {}

  lemma {:induction false} QuietsSpend(o: set<nat>, n: nat, env: seq<Event>)
    ensures OpenAfter(o, Quiets(n) + env) == OpenAfter(o, env)
  {
    if n == 0 {
      assert Quiets(0) + env == env;
    } else {
      QuietsSpend(o, n - 1, env);
      assert (Quiets(n) + env)[0] == QUIET && (Quiets(n) + env)[1..] == Quiets(n - 1) + env;
    }
  }

  lemma LockThenSend()
    ensures OpenAfter({}, [LOCK, SEND]) == {}
  {
    assert [LOCK, SEND][1..] == [SEND] && [SEND][1..] == [];
    assert Opened({}, [Lock(0)]) == Opened({} + {0}, []) == {0};
    assert Opened({0}, [Act.Send(0)]) == Opened({0} - {0}, []) == {};
    assert OpenAfter({0}, [SEND]) == OpenAfter({}, []);
  }

  lemma OpenForAWhile(m: nat)
    ensures OpenAfter({}, HeldUp(m)) == {} && !Prompt(HeldUp(m))
  {
    assert HeldUp(m) == Quiets(2 * m + 5) + [LOCK, SEND];
    QuietsSpend({}, 2 * m + 5, [LOCK, SEND]);
    LockThenSend();
    assert HeldUp(m)[2 * m + 5].acts == [Lock(0)];
    assert Opened({}, [Lock(0)]) == Opened({} + {0}, []) == {0};
  }

  lemma SwiftIsPrompt(m: nat)
    ensures Prompt(Swift(m))
  {
    assert [Lock(0), Act.Send(0)][1..] == [Act.Send(0)] && ({0} - {0}) == {};
    assert Opened({}, [Lock(0), Act.Send(0)]) == Opened({} + {0}, [Act.Send(0)]) == Opened({}, []);
    assert Opened({}, []) == {};
    assert Swift(m) == Quiets(2 * m + 5) + [Event(0, [Lock(0), Act.Send(0)], 0)];
    forall i | 0 <= i < |Swift(m)| ensures Opened({}, Swift(m)[i].acts) == {} {
      assert i < 2 * m + 5 ==> Swift(m)[i] == QUIET;
    }
  }

  lemma SwiftIsOnTime(t: int, a: nat, b: nat, m: nat)
    requires 0 < a < b && m + 8 < U64
    ensures var r := BlockOn(NewWorld(true, t), Job(Later(m, Sleepers(a, b)), []), Swift(m));
      r.Exit? && r.out == Value(0) && r.w.now == t + a
  {
    hide OnTime, BlockOn, Finish, NoPark, Later, Sleepers, Swift, Prompt;
    var p := Later(m, Sleepers(a, b));
    SwiftIsPrompt(m);
    MeaningOfSleepers(t, a, b);
    LaterMeans(m, Sleepers(a, b), t);
    var calls := [Execute(p, [])];
    assert calls[1..] == [] && TotalWork(calls) == m + 7;
    VirtualTimeIsCriticalPath(t, calls, Swift(m));
    OnTimeOnce(t, p, Swift(m));
  }

  lemma OnTimeOnce(t: int, p: Program, env: seq<Event>)
    requires OnTime(NewWorld(true, t), [Execute(p, [])], env, [], [], true)
    ensures var r := BlockOn(NewWorld(true, t), Job(p, []), env);
      r.Exit? && Done(r.w.now, r.out) == Finish(p, t, 0, [])
  {
    hide BlockOn, Finish;
  }
}
