/** Waiting for a ready task: draining spawns, expiring timers, moving or awaiting the clock. */
module WaitInvariant {
  import opened Wrappers
  import opened TimerSpec
  import opened ScheduleState
  import opened JoinSpec
  import opened Programs
  import opened ExecutorSpec
  import opened Invariant
  import opened PollInvariant
  import opened TurnInvariant

  function EnvWeight(env: seq<Event>): nat
    decreases |env|
  {
    if env == [] then 0 else 1 + |env[0].acts| + EnvWeight(env[1..])
  }

  /* ---- Expiry ---- */

  lemma {:induction false} DueCount(m: Registrations, now: int)
    ensures |Remaining(m, now)| + |Due(m, now)| == |m|
    decreases |m|
  {
    if m != map[] {
      var e := Earliest(m);
      if m[e].deadline <= now {
        var rest := m - {e};
        assert rest.Keys == m.Keys - {e};
        assert Remaining(rest, now) == Remaining(m, now);
        DueCount(rest, now);
      } else {
        EarliestOfUpdate(m, now);
      }
    }
  }

  lemma ExpireTimer(timers: Registrations, nextTimer: nat, now: int, ss: seq<Schedule>, all: Population)
    requires TimerInv(timers, nextTimer, now, ss, all)
    ensures TimerInv(Remaining(timers, now), nextTimer, now, ss, all)
  {
    var after := Remaining(timers, now);
    forall id | id in all && all[id].future.stage.Sleeping? ensures SleepOk(after, nextTimer, now, all[id]) {
      assert SleepOk(timers, nextTimer, now, all[id]);
    }
    forall r | r in after ensures Owned(after, r, ss, all) {
      assert Owned(timers, r, ss, all);
    }
  }

  lemma ExpireArm(ss: seq<Schedule>, js: Cells, timers: Registrations, now: int, all: Population, cur: int)
    requires ArmInv(ss, js, timers, all, cur, {})
    ensures ArmInv(ss, js, Remaining(timers, now), all, cur, set s | s in Wakers(timers, Due(timers, now)))
  {
    DueIsExact(timers, now);
    var ws := Wakers(timers, Due(timers, now));
    forall id | id in all && id != cur && all[id].sched < |ss| && ss[all[id].sched].state.Idle?
      ensures all[id].sched in ws || Armed(js, Remaining(timers, now), all[id])
    {
      assert Armed(js, timers, all[id]);
      if all[id].future.stage.Sleeping? {
        var r := all[id].future.stage.reg;
        if timers[r].deadline <= now {
          assert r in Due(timers, now);
          var i :| 0 <= i < |ws| && Due(timers, now)[i] == r;
          assert ws[i] == all[id].sched;
        }
      }
    }
  }

  lemma ExpireKeeps(w: World, all: Population, g: Ghost)
    requires Inv(w, all, NOBODY, g, {})
    ensures Inv(Expire(w), all, NOBODY, g, {})
    ensures Potential(Expire(w), all, NOBODY) <= Potential(w, all, NOBODY)
    ensures Expire(w).timers == Remaining(w.timers, w.now) && NoneDue(Expire(w).timers, w.now)
    ensures Expire(w) == w.(timers := Expire(w).timers, schedules := Expire(w).schedules, ready := Expire(w).ready)
  {
    hide SchedInv, OpenInv, FlightInv, WaiterInv, JoinInv, KeptInv, TimerInv, ArmInv, TimeInv, OriginInv, IdInv, Load;
    var v := w.(timers := Remaining(w.timers, w.now));
    var ws := Wakers(w.timers, Due(w.timers, w.now));
    ExpireTimer(w.timers, w.nextTimer, w.now, w.schedules, all);
    ExpireArm(w.schedules, w.joins, w.timers, w.now, all, NOBODY);
    DueCount(w.timers, w.now);
    WakeAllKeeps(v, ws, all, NOBODY, g, set s | s in ws);
    WakeAllFrame(v, ws);
  }

  /* ---- Advancing a paused clock ---- */

  // With an empty channel, nobody stalled and no poll under way, every task is armed: a wake in
  // flight for a task that still has its timer or its place in a cell is one too many, not the
  // only one.
  lemma IdleAll(w: World, all: Population, g: Ghost, id: nat)
    requires Inv(w, all, NOBODY, g, {}) && w.ready == [] && !StalledTask(w, id) && id in all
    ensures Armed(w.joins, w.timers, all[id])
    ensures g.parkless ==> !all[id].future.stage.Parked?
  {
    if id in w.unsent {
      StandInArms(w, all, g, id);
    } else {
      assert Tokens(w)[id] == 0;
    }
  }

  lemma NotStalled(w: World, id: nat)
    requires !Stalled(w)
    ensures !StalledTask(w, id)
  {}

  lemma StandInArms(w: World, all: Population, g: Ghost, id: nat)
    requires Inv(w, all, NOBODY, g, {}) && id in w.unsent && !StalledTask(w, id) && id in all
    ensures Armed(w.joins, w.timers, all[id])
  {
    hide JoinInv, KeptInv, ArmInv, TimeInv, OriginInv, IdInv, OpenInv, Tokens;
    if r :| r in w.timers && WakerOf(w, w.timers[r].waker, id) {
      assert Owned(w.timers, r, w.schedules, all);
      assert SleepOk(w.timers, w.nextTimer, w.now, all[id]);
    } else {
      var c :| 0 <= c < |w.joins| && w.joins[c].Pending? && w.joins[c].waker.Some?
          && WakerOf(w, w.joins[c].waker.value, id);
      assert Awaited(w.joins, w.schedules, all, c);
    }
  }

  // What a stalled task was waiting for has happened: it is past its deadline, or at a join on a
  // resolved cell, and only the send keeps it from going on.
  lemma StalledTaskIsReady(w: World, all: Population, g: Ghost, id: nat)
    requires Inv(w, all, NOBODY, g, {}) && StalledTask(w, id) && g.parkless
    ensures id in all && ReadyToGoOn(w, all[id].future)
  {
    hide JoinInv, KeptInv, ArmInv, TimeInv, OriginInv, IdInv;
    assert id in all && Afloat(w.joins, all[id]);
    assert WakerOf(w, all[id].sched, id);
    if all[id].future.stage.Sleeping? {
      assert SleepOk(w.timers, w.nextTimer, w.now, all[id]);
    }
  }

  ghost predicate ReadyToGoOn(w: World, f: Future) {
    match f.stage
    case Sleeping(deadline, _, _) => deadline <= w.now
    case Run(p) =>
      && p.Join? && p.k < |f.handles| && f.handles[p.k].Some?
      && f.handles[p.k].value < |w.joins| && w.joins[f.handles[p.k].value].Ready?
    case _ => false
  }

  // With nothing to run, every unresolved cell still has its end ahead of the next deadline:
  // follow the chain of joins down to a sleeping task.
  lemma {:induction false} FinAhead(w: World, all: Population, g: Ghost, later: int, c: nat)
    requires Inv(w, all, NOBODY, g, {}) && w.ready == [] && !Stalled(w) && w.paused && g.parkless
    requires forall r | r in w.timers :: later <= w.timers[r].deadline
    requires c < |w.joins| && w.joins[c].Pending? && w.overtaken == g.since
    ensures later <= g.hist[c].fin.at
    decreases |w.joins| - c
  {
    var t := all[g.hist[c].owner];
    var hs := Fins(t.future.handles, g.hist);
    IdleAll(w, all, g, t.id);
    match t.future.stage
    case Sleeping(deadline, _, next) =>
      FinishMonotone(next, Max(w.now, deadline), Max(w.now, deadline), t.future.acc, hs, hs);
    case Run(p) =>
      assert HandleOk(w.joins, g.hist, t, p.k);
      FinAhead(w, all, g, later, t.future.handles[p.k].value);
      JoinAfter(p, w.now, t.future.acc, hs);
    case Parked(_) =>
  }

  // A join never ends before the child it waits for.
  lemma JoinAfter(p: Program, now: int, acc: int, hs: seq<Option<Done>>)
    requires p.Join? && p.k < |hs| && hs[p.k].Some?
    ensures hs[p.k].value.at <= Finish(p, now, acc, hs).at
  {
    var h := hs[p.k].value;
    match h.out
    case Value(v) => FinishMonotone(p.ok, Max(now, h.at), Max(now, h.at), acc + v, hs[p.k := None], hs[p.k := None]);
    case Panicked => FinishMonotone(p.err, Max(now, h.at), Max(now, h.at), acc, hs[p.k := None], hs[p.k := None]);
  }

  // The end of a waiting task does not depend on when the clock is read before the next deadline.
  lemma WaitingPredict(w: World, all: Population, g: Ghost, later: int, id: nat)
    requires Inv(w, all, NOBODY, g, {}) && w.ready == [] && !Stalled(w) && Exact(w, g) && id in all
    requires w.now <= later && forall r | r in w.timers :: later <= w.timers[r].deadline
    ensures Predict(all[id].future, later, g.hist) == Predict(all[id].future, w.now, g.hist)
  {
    hide Stalled, StalledTask;
    NotStalled(w, id);
    IdleAll(w, all, g, id);
    var f := all[id].future;
    if f.stage.Run? {
      assert HandleOk(w.joins, g.hist, all[id], f.stage.p.k);
      var c := f.handles[f.stage.p.k].value;
      FinAhead(w, all, g, later, c);
      assert Fins(f.handles, g.hist)[f.stage.p.k] == Some(g.hist[c].fin);
    }
    ArmedPredict(w.joins, w.timers, all[id], g.hist, w.now, later);
  }

  lemma ArmedPredict(js: Cells, timers: Registrations, t: LocalTask, hist: History, now: int, later: int)
    requires Armed(js, timers, t) && !t.future.stage.Parked? && now <= later
    requires forall r | r in timers :: later <= timers[r].deadline
    requires t.future.stage.Run? ==>
      var h := Fins(t.future.handles, hist)[t.future.stage.p.k]; h.Some? && later <= h.value.at
    ensures Predict(t.future, later, hist) == Predict(t.future, now, hist)
  {}

  lemma AdvanceExact(w: World, all: Population, g: Ghost, later: int)
    requires Inv(w, all, NOBODY, g, {}) && w.now <= later
    requires forall id | id in all :: Predict(all[id].future, later, g.hist) == Predict(all[id].future, w.now, g.hist)
    ensures Inv(w.(now := later), all, NOBODY, g, {})
  {
    hide SchedInv, OpenInv, FlightInv, WaiterInv, JoinInv, KeptInv, TimerInv, ArmInv, OriginInv, IdInv, Predict;
    ClockTimer(w.timers, w.nextTimer, w.now, later, w.schedules, all);
  }

  lemma Loosened(exact: bool, now: int, js: Cells, all: Population, hist: History, rootFin: Done)
    requires TimeInv(exact, now, js, all, hist, rootFin)
    ensures TimeInv(false, now, js, all, hist, rootFin)
  {}

  lemma OvertakenKeeps(w: World, all: Population, g: Ghost)
    requires Inv(w, all, NOBODY, g, {})
    ensures Inv(w.(overtaken := w.overtaken + 1), all, NOBODY, g, {})
    ensures !Exact(w.(overtaken := w.overtaken + 1), g)
  {
    hide SchedInv, OpenInv, FlightInv, WaiterInv, JoinInv, KeptInv, TimerInv, ArmInv, TimeInv, OriginInv, IdInv;
    Loosened(Exact(w, g), w.now, w.joins, all, g.hist, g.rootFin);
  }

  lemma JumpExact(w: World, all: Population, g: Ghost, later: int)
    requires Inv(w, all, NOBODY, g, {}) && w.ready == [] && !Stalled(w) && Exact(w, g)
    requires w.now <= later && forall r | r in w.timers :: later <= w.timers[r].deadline
    ensures Inv(w.(now := later), all, NOBODY, g, {})
  {
    forall id | id in all
      ensures Predict(all[id].future, later, g.hist) == Predict(all[id].future, w.now, g.hist)
    {
      hide Inv, Stalled, Predict;
      WaitingPredict(w, all, g, later, id);
    }
    hide Inv, Stalled, Predict;
    AdvanceExact(w, all, g, later);
  }

  // The jump to the next deadline changes no promise, unless it leaves a stalled task behind;
  // then promises are only lower bounds from there on.
  lemma JumpKeeps(w: World, all: Population, g: Ghost)
    requires Inv(w, all, NOBODY, g, {}) && w.ready == [] && w.timers != map[] && NoneDue(w.timers, w.now)
    ensures Inv(Jumped(w), all, NOBODY, g, {})
    ensures Potential(Jumped(w), all, NOBODY) == Potential(w, all, NOBODY)
  {
    hide Inv, Stalled;
    var d := NextDeadline(w.timers).value;
    assert w.now <= d && forall r | r in w.timers :: d <= w.timers[r].deadline;
    if Stalled(w) {
      OvertakenKeeps(w, all, g);
      assert Jumped(w) == w.(overtaken := w.overtaken + 1, now := d);
      ClockKeeps(w.(overtaken := w.overtaken + 1), d, all, NOBODY, g, {});
    } else {
      assert Jumped(w) == w.(now := d);
      if Exact(w, g) {
        JumpExact(w, all, g, d);
      } else {
        ClockKeeps(w, d, all, NOBODY, g, {});
      }
    }
  }

  // The same wait, with anything at all to follow it.
  ghost predicate Resumes(f0: Future, f: Future) {
    && f.acc == f0.acc && f.handles == f0.handles
    && match f0.stage
       case Sleeping(deadline, reg, _) => f.stage.Sleeping? && f.stage.deadline == deadline && f.stage.reg == reg
       case Yielded(_) => f.stage.Yielded?
       case Parked(_) => f.stage.Parked?
       case Run(p) => if p.Join? then f.stage.Run? && f.stage.p.Join? && f.stage.p.k == p.k else f == f0
  }

  function Cut(p: Program): Program {
    if p.Join? then Program.Join(p.k, Return(0), Return(0)) else p
  }

  // The future that ends as soon as its wait is over.
  function Shortest(f: Future): Future {
    match f.stage
    case Sleeping(deadline, reg, _) => f.(stage := Sleeping(deadline, reg, Return(0)))
    case Yielded(_) => f.(stage := Yielded(Return(0)))
    case Parked(_) => f.(stage := Parked(Return(0)))
    case Run(p) => f.(stage := Run(Cut(p)))
  }

  lemma ReadyIsLate(w: World, all: Population, g: Ghost, id: nat, later: int)
    requires JoinInv(w.joins, all, g.hist) && TimeInv(Exact(w, g), w.now, w.joins, all, g.hist, g.rootFin)
    requires id in all && ReadyToGoOn(w, all[id].future) && w.now < later
    ensures var f := Shortest(all[id].future);
      Resumes(all[id].future, f) && Predict(f, w.now, g.hist).at == w.now && Predict(f, later, g.hist).at == later
  {
    var f0, f := all[id].future, Shortest(all[id].future);
    if f0.stage.Run? {
      var c := f0.handles[f0.stage.p.k].value;
      assert g.hist[c].fin.at <= w.now;
      assert Fins(f.handles, g.hist)[f.stage.p.k] == Some(g.hist[c].fin);
      CutEnds(f0.stage.p, w.now, f.acc, Fins(f.handles, g.hist));
      CutEnds(f0.stage.p, later, f.acc, Fins(f.handles, g.hist));
    }
  }

  lemma CutEnds(p: Program, now: int, acc: int, hs: seq<Option<Done>>)
    requires p.Join? && p.k < |hs| && hs[p.k].Some? && hs[p.k].value.at <= now
    ensures Finish(Cut(p), now, acc, hs).at == now
  {
    var h := hs[p.k].value;
    match h.out
    case Value(v) => assert Finish(Cut(p), now, acc, hs) == Finish(Return(0), now, acc + v, hs[p.k := None]);
    case Panicked => assert Finish(Cut(p), now, acc, hs) == Finish(Return(0), now, acc, hs[p.k := None]);
  }

  lemma ResumedIsOnTime(w: World, all: Population, g: Ghost, later: int, id: nat, f: Future)
    requires Inv(w, all, NOBODY, g, {}) && w.ready == [] && !Stalled(w) && Exact(w, g)
    requires w.now <= later && forall r | r in w.timers :: later <= w.timers[r].deadline
    requires id in all && Resumes(all[id].future, f)
    ensures Predict(f, later, g.hist) == Predict(f, w.now, g.hist)
  {
    hide Stalled, StalledTask;
    NotStalled(w, id);
    IdleAll(w, all, g, id);
    if f.stage.Run? {
      assert HandleOk(w.joins, g.hist, all[id], f.stage.p.k);
      FinAhead(w, all, g, later, f.handles[f.stage.p.k].value);
    }
    ArmedPredict(w.joins, w.timers, all[id].(future := f), g.hist, w.now, later);
  }

  // The guard is exact: the jump to the next deadline changes no task's end, whatever its program
  // goes on to do after the wait it is in, if and only if no task is stalled.
  lemma JumpIsSafeIff(w: World, all: Population, g: Ghost)
    requires Inv(w, all, NOBODY, g, {}) && w.ready == [] && w.timers != map[] && NoneDue(w.timers, w.now) && Exact(w, g)
    ensures !Stalled(w) <==>
      forall id, f | id in all && Resumes(all[id].future, f) ::
        Predict(f, Jumped(w).now, g.hist) == Predict(f, w.now, g.hist)
  {
    hide Inv, StalledTask, Predict, Resumes;
    var d := NextDeadline(w.timers).value;
    assert w.now < d && forall r | r in w.timers :: d <= w.timers[r].deadline;
    assert Jumped(w).now == d;
    hide Jumped;
    if Stalled(w) {
      var id :| StalledTask(w, id);
      StalledTaskIsReady(w, all, g, id);
      StalledIsLate(w, all, g, id, d);
      assert Resumes(all[id].future, Shortest(all[id].future));
    } else {
      forall id, f | id in all && Resumes(all[id].future, f)
        ensures Predict(f, d, g.hist) == Predict(f, w.now, g.hist)
      {
        ResumedIsOnTime(w, all, g, d, id, f);
      }
    }
  }

  lemma StalledIsLate(w: World, all: Population, g: Ghost, id: nat, later: int)
    requires Inv(w, all, NOBODY, g, {}) && id in all && ReadyToGoOn(w, all[id].future) && w.now < later
    ensures var f := Shortest(all[id].future);
      Resumes(all[id].future, f) && Predict(f, w.now, g.hist).at == w.now && Predict(f, later, g.hist).at == later
  {
    ReadyIsLate(w, all, g, id, later);
  }

  /* ---- Receiving ---- */

  lemma ReceiveKeeps(w: World, env: seq<Event>, pick: nat, all: Population, g: Ghost)
    requires Inv(w, all, NOBODY, g, {}) && w.ready != []
    ensures var r := Receive(w, env, pick);
      && Inv(Held(r.w, r.id), all, NOBODY, g, {})
      && Potential(Held(r.w, r.id), all, NOBODY) == Potential(w, all, NOBODY)
  {
    hide SchedInv, OpenInv, FlightInv, WaiterInv, JoinInv, KeptInv, TimerInv, ArmInv, TimeInv, OriginInv, IdInv, Load,
        Without;
    var r := Receive(w, env, pick);
    TakeToken(w.ready, if pick < |w.ready| then pick else 0);
    assert Tokens(Held(r.w, r.id)) == Tokens(w);
  }

  lemma TakeToken(ready: seq<nat>, i: nat)
    requires i < |ready|
    ensures multiset(Without(ready, i) + [ready[i]]) == multiset(ready)
    ensures |Without(ready, i)| + 1 == |ready|
  {
    assert ready == ready[..i] + [ready[i]] + ready[i + 1..];
  }

  // Events are spent: which sends stay open is a matter of the environment alone, and one that
  // sends promptly lets the clock overtake nobody.
  ghost predicate Spent(w: World, env: seq<Event>, g: Ghost, v: World, rest: seq<Event>, g1: Ghost) {
    && v.paused == w.paused && w.now <= v.now && w.overtaken <= v.overtaken
    && OpenAfter(g1.open, rest) == OpenAfter(g.open, env)
    && (Prompt(env) && g.open == {} ==> Prompt(rest) && g1.open == {} && v.overtaken == w.overtaken)
  }

  // What the wait does not touch.
  ghost predicate Waited(w: World, env: seq<Event>, g: Ghost, v: World, rest: seq<Event>, g1: Ghost) {
    && Spent(w, env, g, v, rest, g1)
    && v.nextTask == w.nextTask && v.origins == w.origins && v.joins == w.joins && g1 == g.(open := g1.open)
  }

  lemma WaitedTrans(w: World, env: seq<Event>, g: Ghost, w1: World, env1: seq<Event>, g1: Ghost, v: World,
        rest: seq<Event>, g2: Ghost)
    requires Waited(w, env, g, w1, env1, g1) && Waited(w1, env1, g1, v, rest, g2)
    ensures Waited(w, env, g, v, rest, g2)
  {
    hide OpenAfter, Prompt;
  }

  // What the wait loop guarantees about its result.
  ghost predicate WaitDone(w: World, env: seq<Event>, root: LocalTask, g: Ghost, r: Received, g1: Ghost) {
    match r
    case Received(v, rest, id) =>
      && v.pending == [] && ROOT !in v.tasks && Waited(w, env, g, v, rest, g1)
      && Whole(v, root) == Whole(w, root)
      && Inv(Held(v, id), Whole(v, root), NOBODY, g1, {})
      && Potential(Held(v, id), Whole(v, root), NOBODY) + EnvWeight(rest) <= Potential(w, Whole(w, root),
          NOBODY) + EnvWeight(env)
    case Blocked(v) =>
      && v.pending == [] && ROOT !in v.tasks && Waited(w, env, g, v, [], g1)
      && Whole(v, root) == Whole(w, root)
      && Inv(v, Whole(v, root), NOBODY, g1, {})
      && v.ready == [] && v.timers == map[]
  }

  lemma WaitOnward(w: World, env: seq<Event>, root: LocalTask, g: Ghost, w1: World, env1: seq<Event>, g1: Ghost,
        r: Received, g2: Ghost)
    requires WaitDone(w1, env1, root, g1, r, g2) && Waited(w, env, g, w1, env1, g1)
    requires Whole(w1, root) == Whole(w, root)
    requires Potential(w1, Whole(w1, root), NOBODY) + EnvWeight(env1) <= Potential(w, Whole(w, root),
        NOBODY) + EnvWeight(env)
    ensures WaitDone(w, env, root, g, r, g2)
  {
    hide Inv, Potential, Whole, EnvWeight, Waited;
    match r
    case Received(v, rest, id) => WaitedTrans(w, env, g, w1, env1, g1, v, rest, g2);
    case Blocked(v) => WaitedTrans(w, env, g, w1, env1, g1, v, [], g2);
  }

  lemma WholeSame(w: World, w1: World, root: LocalTask)
    requires w1.tasks == w.tasks && w1.pending == w.pending
    ensures Whole(w1, root) == Whole(w, root)
  {}

  lemma WeightOfHead(env: seq<Event>)
    ensures |Head(env).acts| + EnvWeight(Tail(env)) <= EnvWeight(env)
  {}

  // One event is spent.
  lemma HeadSpent(o: set<nat>, env: seq<Event>)
    ensures OpenAfter(Opened(o, Head(env).acts), Tail(env)) == OpenAfter(o, env)
    ensures Prompt(env) ==> Prompt(Tail(env)) && (o == {} ==> Opened(o, Head(env).acts) == {})
  {}

  // Drain and expire.
  lemma Tidied(w: World, root: LocalTask, g: Ghost, env: seq<Event>) returns (w1: World, g1: Ghost)
    requires ROOT !in Admitted(w.tasks, w.pending) && Inv(w, Whole(w, root), NOBODY, g, {})
    ensures w1 == Expire(Drain(Outside(w, Head(env)))) && g1 == g.(open := Opened(g.open, Head(env).acts))
    ensures w1.pending == [] && ROOT !in w1.tasks && Waited(w, env, g, w1, Tail(env), g1) && NoneDue(w1.timers, w1.now)
    ensures Whole(w1, root) == Whole(w, root)
    ensures Inv(w1, Whole(w1, root), NOBODY, g1, {})
    ensures Potential(w1, Whole(w1, root), NOBODY) + EnvWeight(Tail(env)) <= Potential(w, Whole(w, root),
        NOBODY) + EnvWeight(env)
  {
    hide SchedInv, OpenInv, FlightInv, WaiterInv, JoinInv, KeptInv, TimerInv, ArmInv, TimeInv, OriginInv, IdInv, Load,
        Outside, Expire, OpenAfter, Prompt, EnvWeight, Opened;
    var all := Whole(w, root);
    g1 := g.(open := Opened(g.open, Head(env).acts));
    OutsideKeeps(w, Head(env), all, NOBODY, g);
    var v := Drain(Outside(w, Head(env)));
    ExpireKeeps(v, all, g1);
    WeightOfHead(env);
    HeadSpent(g.open, env);
    w1 := Expire(v);
  }

  lemma {:induction false} NextReadyKeeps(w: World, env: seq<Event>, root: LocalTask, g: Ghost) returns (g2: Ghost)
    requires ROOT !in Admitted(w.tasks, w.pending) && Inv(w, Whole(w, root), NOBODY, g, {})
    ensures WaitDone(w, env, root, g, NextReady(w, env), g2)
    decreases |env|, |Remaining(w.timers, w.now)|, 1
  {
    hide Inv, Potential, Expire, Drain, Outside, Receive, EnvWeight, WaitDone, Waited, OpenAfter, Opened, Prompt,
        Jumped;
    var w1, g1 := Tidied(w, root, g, env);
    TidyTimers(w, env);
    TidyPaused(w, Head(env));
    if w1.ready != [] {
      ReceiveKeeps(w1, Tail(env), Head(env).pick, Whole(w1, root), g1);
      GotReady(w1, Tail(env), Head(env).pick, root, g1);
      g2 := g1;
      WaitOnward(w, env, root, g, w1, Tail(env), g1, Receive(w1, Tail(env), Head(env).pick), g2);
    } else if w1.paused && w1.timers != map[] {
      EarliestLeaves(w1.timers, w1.now, NextDeadline(w1.timers).value);
      JumpKeeps(w1, Whole(w1, root), g1);
      JumpWaited(w1, Tail(env), root, g1, Whole(w1, root));
      g2 := NextReadyKeeps(Jumped(w1), Tail(env), root, g1);
      WaitOnward(w1, Tail(env), root, g1, Jumped(w1), Tail(env), g1, NextReady(Jumped(w1), Tail(env)), g2);
      WaitOnward(w, env, root, g, w1, Tail(env), g1, NextReady(Jumped(w1), Tail(env)), g2);
    } else {
      g2 := WaitKeeps(w1, Tail(env), root, g1);
      WaitOnward(w, env, root, g, w1, Tail(env), g1, Wait(w1, Tail(env)), g2);
    }
  }

  // With no send open, the jump overtakes nobody.
  lemma JumpWaited(w: World, env: seq<Event>, root: LocalTask, g: Ghost, all: Population)
    requires Inv(w, all, NOBODY, g, {}) && w.timers != map[] && NoneDue(w.timers, w.now)
    ensures Waited(w, env, g, Jumped(w), env, g)
    ensures Whole(Jumped(w), root) == Whole(w, root) && Jumped(w).tasks == w.tasks && Jumped(w).pending == w.pending
    ensures Jumped(w).now == NextDeadline(w.timers).value && Jumped(w).timers == w.timers
  {
    assert g.open == {} ==> !Stalled(w);
  }

  lemma TidyPaused(w: World, e: Event)
    ensures Expire(Drain(Outside(w, e))).paused == w.paused
  {
    ActAllFrame(Elapse(w, e.elapse), e.acts);
    var v := Drain(Outside(w, e));
    WakeAllFrame(v.(timers := Remaining(v.timers, v.now)), Wakers(v.timers, Due(v.timers, v.now)));
  }

  lemma TidyTimers(w: World, env: seq<Event>)
    ensures env == [] ==> Expire(Drain(Outside(w, QUIET))).now == w.now
    ensures env == [] ==> |Remaining(Expire(Drain(Outside(w, QUIET))).timers, w.now)| == |Remaining(w.timers, w.now)|
  {
    var v := Drain(Outside(w, QUIET));
    WakeAllFrame(v.(timers := Remaining(v.timers, v.now)), Wakers(v.timers, Due(v.timers, v.now)));
    RemainingTwice(w.timers, w.now);
  }

  lemma GotReady(w: World, env: seq<Event>, pick: nat, root: LocalTask, g: Ghost)
    requires w.ready != [] && w.pending == [] && ROOT !in w.tasks
    requires var r := Receive(w, env, pick);
      && Inv(Held(r.w, r.id), Whole(w, root), NOBODY, g, {})
      && Potential(Held(r.w, r.id), Whole(w, root), NOBODY) == Potential(w, Whole(w, root), NOBODY)
    ensures WaitDone(w, env, root, g, Receive(w, env, pick), g)
  {
    hide Inv, Potential, OpenAfter, Prompt;
    WholeSame(w, Receive(w, env, pick).w, root);
  }

  lemma NothingComes(w: World, root: LocalTask, g: Ghost)
    requires w.timers == map[] && w.ready == [] && w.pending == [] && ROOT !in w.tasks
    requires Inv(w, Whole(w, root), NOBODY, g, {})
    ensures WaitDone(w, [], root, g, Blocked(w), g)
  {
    hide Inv;
  }

  // A timeout on a running clock.
  lemma TimeoutKeeps(w: World, root: LocalTask, g: Ghost, d: int)
    requires Inv(w, Whole(w, root), NOBODY, g, {}) && !w.paused && w.now <= d
    ensures var w1 := w.(now := d);
      && Inv(w1, Whole(w1, root), NOBODY, g, {}) && Whole(w1, root) == Whole(w, root)
      && Waited(w, [], g, w1, [], g)
      && Potential(w1, Whole(w1, root), NOBODY) == Potential(w, Whole(w, root), NOBODY)
  {
    hide Inv, Potential;
    ClockKeeps(w, d, Whole(w, root), NOBODY, g, {});
    WholeSame(w, w.(now := d), root);
  }

  lemma ObservedKeeps(w: World, env: seq<Event>, root: LocalTask, g: Ghost) returns (w1: World, g1: Ghost)
    requires env != [] && Inv(w, Whole(w, root), NOBODY, g, {})
    ensures w1 == Outside(w, env[0]) && g1 == g.(open := Opened(g.open, env[0].acts))
    ensures w1.pending == w.pending && w1.tasks == w.tasks && w1.timers == w.timers && Whole(w1, root) == Whole(w, root)
    ensures Waited(w, env, g, w1, env[1..], g1) && Inv(w1, Whole(w1, root), NOBODY, g1, {})
    ensures Potential(w1, Whole(w1, root), NOBODY) + EnvWeight(env[1..]) <= Potential(w, Whole(w, root),
        NOBODY) + EnvWeight(env)
  {
    hide Inv, Potential, Outside, OpenAfter, Opened, Prompt, EnvWeight;
    w1, g1 := Outside(w, env[0]), g.(open := Opened(g.open, env[0].acts));
    OutsideKeeps(w, env[0], Whole(w, root), NOBODY, g);
    WeightOfHead(env);
    HeadSpent(g.open, env);
    WholeSame(w, w1, root);
  }

  lemma {:induction false} WaitKeeps(w: World, env: seq<Event>, root: LocalTask, g: Ghost) returns (g2: Ghost)
    requires NoneDue(w.timers, w.now) && w.ready == [] && w.pending == [] && ROOT !in w.tasks
    requires w.paused ==> w.timers == map[]
    requires Inv(w, Whole(w, root), NOBODY, g, {})
    ensures WaitDone(w, env, root, g, Wait(w, env), g2)
    decreases |env|, |Remaining(w.timers, w.now)|, 0
  {
    hide Inv, Potential, Outside, Receive, EnvWeight, WaitDone, Waited, OpenAfter, Opened, Prompt;
    if env == [] {
      if w.timers == map[] {
        g2 := g;
        NothingComes(w, root, g);
      } else {
        var d := NextDeadline(w.timers).value;
        EarliestLeaves(w.timers, w.now, d);
        TimeoutKeeps(w, root, g, d);
        g2 := NextReadyKeeps(w.(now := d), [], root, g);
        WaitOnward(w, env, root, g, w.(now := d), [], g, NextReady(w.(now := d), []), g2);
      }
    } else {
      var w1, g1 := ObservedKeeps(w, env, root, g);
      ActAllPaused(w, env[0]);
      if w1.ready != [] {
        ReceiveKeeps(w1, env[1..], env[0].pick, Whole(w1, root), g1);
        GotReady(w1, env[1..], env[0].pick, root, g1);
        g2 := g1;
        WaitOnward(w, env, root, g, w1, env[1..], g1, Receive(w1, env[1..], env[0].pick), g2);
      } else if NoneDue(w1.timers, w1.now) {
        g2 := WaitKeeps(w1, env[1..], root, g1);
        WaitOnward(w, env, root, g, w1, env[1..], g1, Wait(w1, env[1..]), g2);
      } else {
        g2 := NextReadyKeeps(w1, env[1..], root, g1);
        WaitOnward(w, env, root, g, w1, env[1..], g1, NextReady(w1, env[1..]), g2);
      }
    }
  }

  lemma ActAllPaused(w: World, e: Event)
    ensures Outside(w, e).paused == w.paused
  {
    ActAllFrame(Elapse(w, e.elapse), e.acts);
  }
}
