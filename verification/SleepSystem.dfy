/** Any number of sleeps on one driver: every run of creating, polling, resetting, dropping,
    expiring and letting time pass. */
module SleepSystem {
  import opened Wrappers
  import opened TimerSpec

  // `waker` is the one most recently passed to a poll that returned Pending.
  datatype SleepState = SleepState(deadline: int, reg: Option<nat>, waker: nat)

  // `fault`: the `expect` in `update_waker` or the panic of the id counter has fired.
  datatype Sys = Sys(sleeps: map<nat, SleepState>, timers: Registrations, nextTimer: nat, now: int, fault: bool)

  datatype Op =
    | Create(s: nat, deadline: int)
    | Poll(s: nat, waker: nat)
    | Reset(s: nat, deadline: int)
    | Drop(s: nat)
    | ProcessExpired
    | Tick(d: nat)

  function Init(now: int): Sys {
    Sys(map[], map[], 0, now, false)
  }

  function Cancelled(m: Registrations, reg: Option<nat>): Registrations {
    if reg.Some? then m - {reg.value} else m
  }

  // One operation; operations on sleeps that do not exist do nothing.
  function Step(x: Sys, op: Op): Sys {
    match op
    case Create(s, deadline) =>
      if s in x.sleeps then x else x.(sleeps := x.sleeps[s := SleepState(deadline, None, 0)])
    case Poll(s, waker) =>
      if s !in x.sleeps then x else
      var t := x.sleeps[s];
      if x.now >= t.deadline then
        x.(sleeps := x.sleeps[s := t.(reg := None)], timers := Cancelled(x.timers, t.reg))
      else if t.reg.Some? then
        if t.reg.value in x.timers then
          x.(sleeps := x.sleeps[s := t.(waker := waker)],
              timers := x.timers[t.reg.value := x.timers[t.reg.value].(waker := waker)])
        else
          x.(fault := true)
      else if x.nextTimer in x.timers then
        x.(fault := true, nextTimer := WrappingSucc(x.nextTimer))
      else
        x.(sleeps := x.sleeps[s := t.(reg := Some(x.nextTimer), waker := waker)],
           timers := x.timers[x.nextTimer := Registration(t.deadline, waker)],
           nextTimer := WrappingSucc(x.nextTimer))
    case Reset(s, deadline) =>
      if s !in x.sleeps then x else
      var t := x.sleeps[s].(deadline := deadline);
      if t.reg.Some? && t.reg.value in x.timers then
        x.(sleeps := x.sleeps[s := t], timers := x.timers[t.reg.value := x.timers[t.reg.value].(deadline := deadline)])
      else
        x.(sleeps := x.sleeps[s := t.(reg := None)])
    case Drop(s) =>
      if s !in x.sleeps then x else x.(sleeps := x.sleeps - {s}, timers := Cancelled(x.timers, x.sleeps[s].reg))
    case ProcessExpired => x.(timers := Remaining(x.timers, x.now))
    case Tick(d) => x.(now := x.now + d)
  }

  function Run(x: Sys, ops: seq<Op>): Sys
    decreases |ops|
  {
    if ops == [] then x else Step(Run(x, ops[..|ops| - 1]), ops[|ops| - 1])
  }

  /* ---- Ownership ---- */

  ghost predicate HeldOk(x: Sys, t: SleepState) {
    t.reg.Some? ==>
      if t.reg.value in x.timers then x.timers[t.reg.value] == Registration(t.deadline, t.waker)
          else t.deadline <= x.now
  }

  // Ids are held by at most one sleep each, every live registration by exactly one, and what
  // is registered is that sleep's current deadline and latest waker.
  ghost predicate Owned(x: Sys) {
    && (forall s | s in x.sleeps :: HeldOk(x, x.sleeps[s]))
    && (forall s, t | s in x.sleeps && t in x.sleeps && s != t && x.sleeps[s].reg.Some? ::
        x.sleeps[s].reg != x.sleeps[t].reg)
    && (forall r | r in x.timers :: exists s :: s in x.sleeps && x.sleeps[s].reg == Some(r))
  }

  ghost predicate FreshIds(x: Sys) {
    forall s | s in x.sleeps && x.sleeps[s].reg.Some? :: x.sleeps[s].reg.value < x.nextTimer
  }

  // The sleep whose poll would take the next id.
  predicate Registers(x: Sys, op: Op) {
    op.Poll? && op.s in x.sleeps && x.now < x.sleeps[op.s].deadline && x.sleeps[op.s].reg.None?
  }

  // Nobody, not even a sleep with a stale id, holds the id that comes next.
  ghost predicate NextIsFree(x: Sys) {
    forall s | s in x.sleeps :: x.sleeps[s].reg != Some(x.nextTimer)
  }

  lemma HolderOf(x: Sys, r: nat) returns (s: nat)
    requires Owned(x) && r in x.timers
    ensures s in x.sleeps && x.sleeps[s].reg == Some(r)
  {
    s :| s in x.sleeps && x.sleeps[s].reg == Some(r);
  }

  // Two states that differ in the entry of one sleep and in the registration it holds.
  lemma OwnedBy(x: Sys, y: Sys, s: nat)
    requires Owned(x) && y.now == x.now
    requires forall t | t != s :: (t in y.sleeps <==> t in x.sleeps) && (t in x.sleeps ==> y.sleeps[t] == x.sleeps[t])
    requires s in y.sleeps ==> HeldOk(y, y.sleeps[s])
    requires s in y.sleeps && y.sleeps[s].reg.Some? ==>
      (s in x.sleeps && x.sleeps[s].reg == y.sleeps[s].reg)
          || (forall t | t in x.sleeps :: x.sleeps[t].reg != y.sleeps[s].reg)
    requires forall r | r in y.timers || r in x.timers ::
      (r in y.timers && r in x.timers && y.timers[r] == x.timers[r] && !(s in x.sleeps && x.sleeps[s].reg == Some(r)))
      || (s in y.sleeps && y.sleeps[s].reg == Some(r))
      || (r !in y.timers && s in x.sleeps && x.sleeps[s].reg == Some(r))
    ensures Owned(y)
  {
    forall t | t in y.sleeps ensures HeldOk(y, y.sleeps[t]) {
      if t != s {
        assert HeldOk(x, x.sleeps[t]);
      }
    }
    forall r | r in y.timers ensures exists t :: t in y.sleeps && y.sleeps[t].reg == Some(r) {
      if !(s in y.sleeps && y.sleeps[s].reg == Some(r)) {
        var t := HolderOf(x, r);
        assert t in y.sleeps && y.sleeps[t].reg == Some(r);
      }
    }
  }

  // Every operation keeps ownership, provided a poll that registers gets an id nobody holds.
  lemma StepKeepsOwnership(x: Sys, op: Op)
    requires Owned(x) && !x.fault
    requires Registers(x, op) ==> NextIsFree(x)
    ensures Owned(Step(x, op)) && !Step(x, op).fault
  {
    hide Owned, NextIsFree;
    var y := Step(x, op);
    match op
    case Create(s, _) => if s !in x.sleeps { OwnedByOp(x, op, s); }
    case Poll(s, _) => if s in x.sleeps { OwnedByOp(x, op, s); }
    case Reset(s, _) => if s in x.sleeps { OwnedByOp(x, op, s); }
    case Drop(s) => if s in x.sleeps { OwnedByOp(x, op, s); }
    case ProcessExpired => ExpiryKeepsOwnership(x);
    case Tick(d) => TickKeepsOwnership(x, d);
  }

  lemma OwnedByOp(x: Sys, op: Op, s: nat)
    requires Owned(x) && !x.fault
    requires Registers(x, op) ==> NextIsFree(x)
    requires !op.ProcessExpired? && !op.Tick? && op.s == s && (op.Create? <==> s !in x.sleeps)
    ensures Owned(Step(x, op)) && !Step(x, op).fault
  {
    if s in x.sleeps {
      assert HeldOk(x, x.sleeps[s]);
    }
    if Registers(x, op) && x.nextTimer in x.timers {
      var t := HolderOf(x, x.nextTimer);
    }
    OwnedBy(x, Step(x, op), s);
  }

  lemma ExpiryKeepsOwnership(x: Sys)
    requires Owned(x)
    ensures Owned(Step(x, ProcessExpired))
  {
    var y := Step(x, ProcessExpired);
    forall s | s in y.sleeps ensures HeldOk(y, y.sleeps[s]) {
      assert HeldOk(x, x.sleeps[s]);
    }
    forall r | r in y.timers ensures exists s :: s in y.sleeps && y.sleeps[s].reg == Some(r) {
      var s := HolderOf(x, r);
      assert y.sleeps[s].reg == Some(r);
    }
  }

  lemma TickKeepsOwnership(x: Sys, d: nat)
    requires Owned(x)
    ensures Owned(Step(x, Tick(d)))
  {
    var y := Step(x, Tick(d));
    forall s | s in y.sleeps ensures HeldOk(y, y.sleeps[s]) {
      assert HeldOk(x, x.sleeps[s]);
    }
    forall r | r in y.timers ensures exists s :: s in y.sleeps && y.sleeps[s].reg == Some(r) {
      var s := HolderOf(x, r);
      assert y.sleeps[s].reg == Some(r);
    }
  }

  // How many ids a run takes.
  ghost function Issued(x: Sys, ops: seq<Op>): nat
    decreases |ops|
  {
    if ops == [] then 0
    else
      var init, op := ops[..|ops| - 1], ops[|ops| - 1];
      Issued(x, init) + if Registers(Run(x, init), op) then 1 else 0
  }

  // Over every run that registers at most 2^64 times, however long it is: no panic, and each
  // live registration belongs to exactly one live sleep, at its deadline, with its latest waker.
  lemma {:induction false} OwnershipOverRuns(now: int, ops: seq<Op>)
    requires Issued(Init(now), ops) <= U64
    ensures var x := Run(Init(now), ops);
      && Owned(x) && !x.fault
      && (Issued(Init(now), ops) < U64 ==> FreshIds(x) && x.nextTimer == Issued(Init(now), ops))
    decreases |ops|
  {
    if ops != [] {
      var init, op := ops[..|ops| - 1], ops[|ops| - 1];
      OwnershipOverRuns(now, init);
      var x := Run(Init(now), init);
      hide Owned;
      StepKeepsOwnership(x, op);
      if Issued(Init(now), init) < U64 {
        FreshStep(x, op);
      }
    }
  }

  lemma FreshStep(x: Sys, op: Op)
    requires FreshIds(x) && !Step(x, op).fault && !x.fault
    ensures var n := if Registers(x, op) then WrappingSucc(x.nextTimer) else x.nextTimer;
      Step(x, op).nextTimer == n && (x.nextTimer <= n ==> FreshIds(Step(x, op)))
  {}

  // What a caller sees: a Pending poll leaves the latest waker at the current deadline; a Ready
  // poll or a drop leaves nothing behind.
  lemma PollLeavesRegistration(now: int, ops: seq<Op>, s: nat, waker: nat)
    requires Issued(Init(now), ops) < U64 && s in Run(Init(now), ops).sleeps
    ensures var x, y := Run(Init(now), ops), Step(Run(Init(now), ops), Poll(s, waker));
      var t := y.sleeps[s];
      if x.now >= t.deadline
      then t.reg == None && forall r | r in y.timers :: r in x.timers && x.sleeps[s].reg != Some(r)
      else t.reg.Some? && t.reg.value in y.timers && y.timers[t.reg.value] == Registration(t.deadline, waker)
    ensures var x, y := Run(Init(now), ops), Step(Run(Init(now), ops), Drop(s));
      forall r | r in y.timers :: r in x.timers && x.sleeps[s].reg != Some(r)
  {
    OwnershipOverRuns(now, ops);
    var x := Run(Init(now), ops);
    assert HeldOk(x, x.sleeps[s]);
    StepKeepsOwnership(x, Poll(s, waker));
  }

  // After an expiry, in every reachable state: a sleep that is registered has its deadline ahead,
  // no registration with its deadline ahead has been lost, and no sleep has changed.
  lemma ExpiryTakesAllDue(now: int, ops: seq<Op>, s: nat)
    requires Issued(Init(now), ops) < U64 && s in Run(Init(now), ops).sleeps
    ensures var x := Run(Init(now), ops);
      var y := Step(x, ProcessExpired);
      && y.sleeps == x.sleeps && y.now == x.now
      && (x.sleeps[s].reg.Some? ==>
            (x.sleeps[s].reg.value in y.timers <==> x.sleeps[s].reg.value in x.timers && x.sleeps[s].deadline > x.now))
      && (x.sleeps[s].reg.Some? && x.sleeps[s].deadline > x.now ==> x.sleeps[s].reg.value in y.timers)
  {
    OwnershipOverRuns(now, ops);
    assert HeldOk(Run(Init(now), ops), Run(Init(now), ops).sleeps[s]);
  }

  /* ---- What fresh ids are needed for ---- */

  // A poll that registers keeps ownership if and only if nobody holds the next id.
  lemma RegisteringNeedsFreeId(x: Sys, s: nat, waker: nat)
    requires Owned(x) && !x.fault && Registers(x, Poll(s, waker))
    ensures Owned(Step(x, Poll(s, waker))) && !Step(x, Poll(s, waker)).fault <==> NextIsFree(x)
  {
    var y := Step(x, Poll(s, waker));
    if NextIsFree(x) {
      StepKeepsOwnership(x, Poll(s, waker));
    } else {
      var t :| t in x.sleeps && x.sleeps[t].reg == Some(x.nextTimer);
      if !y.fault {
        assert t != s && y.sleeps[t].reg == y.sleeps[s].reg;
      }
    }
  }

  // The same for whole runs: ownership holds throughout if and only if every registering poll
  // finds an id that nobody holds, and this without any bound on their number.
  lemma OwnershipNeedsFreeIds(x: Sys, ops: seq<Op>)
    requires Owned(x) && !x.fault
    ensures (forall k | 0 <= k <= |ops| :: Sound(Run(x, ops[..k]))) <==>
      (forall k | 0 <= k < |ops| :: Registers(Run(x, ops[..k]), ops[k]) ==> NextIsFree(Run(x, ops[..k])))
  {
    hide Owned, NextIsFree, Run, Step, Registers;
    if forall k | 0 <= k < |ops| :: Registers(Run(x, ops[..k]), ops[k]) ==> NextIsFree(Run(x, ops[..k])) {
      forall k | 0 <= k <= |ops| ensures Sound(Run(x, ops[..k])) {
        SoundUpTo(x, ops, k);
      }
    }
    if forall k | 0 <= k <= |ops| :: Sound(Run(x, ops[..k])) {
      forall k | 0 <= k < |ops| && Registers(Run(x, ops[..k]), ops[k]) ensures NextIsFree(Run(x, ops[..k])) {
        assert Sound(Run(x, ops[..k])) && Sound(Run(x, ops[..k + 1]));
        OneMore(x, ops, k);
        NeedsFreeId(Run(x, ops[..k]), ops[k]);
      }
    }
  }

  ghost predicate Sound(x: Sys) {
    Owned(x) && !x.fault
  }

  lemma NeedsFreeId(x: Sys, op: Op)
    requires Sound(x) && Sound(Step(x, op)) && Registers(x, op)
    ensures NextIsFree(x)
  {
    hide Owned, NextIsFree;
    RegisteringNeedsFreeId(x, op.s, op.waker);
  }

  lemma OneMore(x: Sys, ops: seq<Op>, k: nat)
    requires k < |ops|
    ensures Run(x, ops[..k + 1]) == Step(Run(x, ops[..k]), ops[k])
  {
    assert ops[..k + 1][..k] == ops[..k];
  }

  lemma {:induction false} SoundUpTo(x: Sys, ops: seq<Op>, k: nat)
    requires Owned(x) && !x.fault && k <= |ops|
    requires forall j | 0 <= j < |ops| :: Registers(Run(x, ops[..j]), ops[j]) ==> NextIsFree(Run(x, ops[..j]))
    ensures Sound(Run(x, ops[..k]))
  {
    hide Owned, NextIsFree, Step, Registers;
    if k > 0 {
      SoundUpTo(x, ops, k - 1);
      OneMore(x, ops, k - 1);
      StepKeepsOwnership(Run(x, ops[..k - 1]), ops[k - 1]);
    }
  }

  /* ---- A run that goes wrong ---- */

  lemma {:induction false} RunConcat(x: Sys, a: seq<Op>, b: seq<Op>)
    ensures Run(x, a + b) == Run(Run(x, a), b)
    decreases |b|
  {
    if b == [] {
      assert a + b == a;
    } else {
      assert (a + b)[..|a + b| - 1] == a + b[..|b| - 1];
      RunConcat(x, a, b[..|b| - 1]);
    }
  }

  lemma RunThree(x: Sys, a: Op, b: Op, c: Op)
    ensures Run(x, [a, b, c]) == Step(Step(Step(x, a), b), c)
  {
    assert [a, b, c][..2] == [a, b] && [a, b][..1] == [a] && [a][..0] == [];
    assert Run(x, [a]) == Step(x, a);
    assert Run(x, [a, b]) == Step(Step(x, a), b);
  }

  // Sleep 1 has expired and still holds id 0; sleep 2 has not been polled.
  function Stale(next: nat): Sys {
    Sys(map[1 := SleepState(5, Some(0), 7), 2 := SleepState(20, None, 0)], map[], next, 10, false)
  }

  // A third sleep that is created, polled and dropped uses up one id and leaves nothing else.
  lemma UseUpOne(next: nat)
    ensures Run(Stale(next), [Create(3, 11), Poll(3, 0), Drop(3)]) == Stale(WrappingSucc(next))
  {
    hide Run;
    RunThree(Stale(next), Create(3, 11), Poll(3, 0), Drop(3));
    var x := Step(Stale(next), Create(3, 11));
    var y := Step(x, Poll(3, 0));
    assert y.timers == map[next := Registration(11, 0)];
    assert y.timers - {next} == map[];
    assert y.sleeps - {3} == Stale(next).sleeps;
  }

  lemma RunNothing(x: Sys)
    ensures Run(x, []) == x
  {}

  lemma {:induction false} UseUp(next: nat) returns (ops: seq<Op>)
    requires 1 <= next < U64
    ensures Run(Stale(1), ops) == Stale(next)
  {
    hide Run, WrappingSucc;
    if next == 1 {
      RunNothing(Stale(1));
      ops := [];
    } else {
      ops := UseUp(next - 1);
      RunConcat(Stale(1), ops, [Create(3, 11), Poll(3, 0), Drop(3)]);
      UseUpOne(next - 1);
      ops := ops + [Create(3, 11), Poll(3, 0), Drop(3)];
    }
  }

  function Expiring(now: int): Sys {
    Sys(map[1 := SleepState(5, Some(0), 7)], map[0 := Registration(5, 7)], 1, now, false)
  }

  lemma FirstThree()
    ensures Run(Init(0), [Create(1, 5), Poll(1, 7), Tick(10)]) == Expiring(10)
  {
    hide Run;
    RunThree(Init(0), Create(1, 5), Poll(1, 7), Tick(10));
    assert Step(Init(0), Create(1, 5)) == Init(0).(sleeps := map[1 := SleepState(5, None, 0)]);
    assert Step(Init(0).(sleeps := map[1 := SleepState(5, None, 0)]), Poll(1, 7)) == Expiring(0);
  }

  lemma NextThree()
    ensures Run(Expiring(10), [ProcessExpired, Create(2, 20), Tick(0)]) == Stale(1)
  {
    hide Run;
    RunThree(Expiring(10), ProcessExpired, Create(2, 20), Tick(0));
    assert Remaining(Expiring(10).timers, 10) == map[];
    assert Step(Expiring(10), ProcessExpired) == Expiring(10).(timers := map[]);
    assert Step(Expiring(10).(timers := map[]), Create(2, 20)) == Stale(1);
  }

  lemma BecomesStale()
    ensures Run(Init(0), [Create(1, 5), Poll(1, 7), Tick(10)] + [ProcessExpired, Create(2, 20), Tick(0)]) == Stale(1)
  {
    hide Run, Step;
    RunConcat(Init(0), [Create(1, 5), Poll(1, 7), Tick(10)], [ProcessExpired, Create(2, 20), Tick(0)]);
    FirstThree();
    NextThree();
  }

  // Once the counter has gone round, it reaches an id that an expired sleep still holds, and a
  // new runtime can get there. The next sleep to be polled shares that id, and resetting the
  // expired one then moves the other's deadline.
  lemma StaleIdStealsRegistration() returns (ops: seq<Op>)
    ensures var x := Run(Init(0), ops);
      && Owned(x) && !x.fault && !NextIsFree(x) && Registers(x, Poll(2, 8))
      && var y := Step(Step(x, Poll(2, 8)), Reset(1, 99));
      && !y.fault && y.sleeps[2] == SleepState(20, Some(0), 8) && y.timers[0] == Registration(99, 8)
      && !Owned(y)
  {
    hide Run, Step, Owned, NextIsFree, Registers;
    var first := [Create(1, 5), Poll(1, 7), Tick(10)] + [ProcessExpired, Create(2, 20), Tick(0)];
    BecomesStale();
    var more := UseUp(U64 - 1);
    RunConcat(Init(0), first, more);
    UseUpOne(U64 - 1);
    RunConcat(Init(0), first + more, [Create(3, 11), Poll(3, 0), Drop(3)]);
    ops := first + more + [Create(3, 11), Poll(3, 0), Drop(3)];
    StolenFrom(Stale(0));
  }

  lemma StolenFrom(x: Sys)
    requires x == Stale(0)
    ensures Owned(x) && !NextIsFree(x) && Registers(x, Poll(2, 8))
    ensures var y := Step(Step(x, Poll(2, 8)), Reset(1, 99));
      !y.fault && y.sleeps[2] == SleepState(20, Some(0), 8) && y.timers[0] == Registration(99, 8) && !Owned(y)
  {
    var y := Step(Step(x, Poll(2, 8)), Reset(1, 99));
    assert x.sleeps[1].reg == Some(x.nextTimer);
    assert !HeldOk(y, y.sleeps[2]);
  }
}
