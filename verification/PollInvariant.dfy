/** One poll of one future keeps the invariant, whatever the future does. */
module PollInvariant {
  import opened Wrappers
  import opened TimerSpec
  import opened ScheduleState
  import opened JoinSpec
  import opened Programs
  import opened TaskIdSpec
  import opened ExecutorSpec
  import opened Invariant

  ghost predicate Inside(w: World, all: Population, cur: int, g: Ghost, f: Future) {
    && Inv(w, all, cur, g, {})
    && cur >= 0 && cur in all && all[cur].future == f
  }

  ghost function At(all: Population, cur: int, f: Future): Population
    requires cur >= 0 && cur in all
  {
    all[cur as nat := all[cur].(future := f)]
  }

  /* ---- Swapping the polled future ---- */

  lemma SwapSched(ss: seq<Schedule>, toks: multiset<nat>, all: Population, cur: int, f: Future)
    requires SchedInv(ss, toks, all, cur) && cur >= 0 && cur in all
    ensures SchedInv(ss, toks, At(all, cur, f), cur)
  {}

  lemma SwapOpen(unsent: multiset<nat>, all: Population, open: set<nat>, cur: int, f: Future)
    requires OpenInv(unsent, all, open) && cur >= 0 && cur in all
    ensures OpenInv(unsent, At(all, cur, f), open)
  {}

  // The polled task has nothing in flight.
  lemma SwapFlight(ss: seq<Schedule>, toks: multiset<nat>, unsent: multiset<nat>, js: Cells, all: Population,
        cur: int, f: Future)
    requires FlightInv(unsent, js, all) && SchedInv(ss, toks, all, cur) && unsent <= toks && cur >= 0 && cur in all
    ensures FlightInv(unsent, js, At(all, cur, f))
  {
    assert toks[cur] == 0;
  }

  predicate AtJoin(f: Future) {
    f.stage.Run? && f.stage.p.Join?
  }

  lemma SwapWaiters(js: Cells, ss: seq<Schedule>, all: Population, cur: int, f: Future)
    requires WaiterInv(js, ss, all) && cur >= 0 && cur in all && !AtJoin(all[cur].future)
    ensures WaiterInv(js, ss, At(all, cur, f))
  {
    forall c | 0 <= c < |js| && js[c].Pending? && js[c].waker.Some? ensures Awaited(js, ss, At(all, cur, f), c) {
      assert Awaited(js, ss, all, c);
    }
  }

  lemma SwapArm(ss: seq<Schedule>, js: Cells, timers: Registrations, all: Population, cur: int, f: Future)
    requires ArmInv(ss, js, timers, all, cur, {}) && cur >= 0 && cur in all
    ensures ArmInv(ss, js, timers, At(all, cur, f), cur, {})
  {}

  lemma SwapJoin(js: Cells, all: Population, hist: History, cur: int, f: Future)
    requires JoinInv(js, all, hist) && cur >= 0 && cur in all
    requires f.handles == all[cur].future.handles
    ensures JoinInv(js, At(all, cur, f), hist)
  {
    forall k | 0 <= k < |f.handles| ensures HandleOk(js, hist, all[cur].(future := f), k) {
      assert HandleOk(js, hist, all[cur], k);
    }
  }

  lemma SwapTimer(timers: Registrations, nextTimer: nat, now: int, ss: seq<Schedule>, all: Population, cur: int,
        f: Future)
    requires TimerInv(timers, nextTimer, now, ss, all) && cur >= 0 && cur in all
    requires all[cur].future.stage.Sleeping? ==> all[cur].future.stage.reg !in timers
    requires !f.stage.Sleeping?
    ensures TimerInv(timers, nextTimer, now, ss, At(all, cur, f))
  {
    forall r | r in timers ensures Owned(timers, r, ss, At(all, cur, f)) {
      assert Owned(timers, r, ss, all);
    }
  }

  lemma SwapTime(exact: bool, now: int, js: Cells, all: Population, hist: History, rootFin: Done, cur: int, f: Future)
    requires TimeInv(exact, now, js, all, hist, rootFin) && cur >= 0 && cur in all
    requires Predict(f, now, hist) == Predict(all[cur].future, now, hist)
    ensures TimeInv(exact, now, js, At(all, cur, f), hist, rootFin)
  {
    assert FinOf(all[cur].(future := f), hist, rootFin) == FinOf(all[cur], hist, rootFin);
  }

  lemma SwapPark(all: Population, cur: int, f: Future)
    requires NobodyParks(all) && cur >= 0 && cur in all && StageNoPark(f.stage)
    ensures NobodyParks(At(all, cur, f))
  {}

  lemma SwapIds(w: World, all: Population, cur: int, f: Future, reserve: nat)
    requires IdInv(w.nextTask, w.nextTimer, all, reserve) && cur >= 0 && cur in all
    requires StageWork(f.stage) <= StageWork(all[cur].future.stage)
    ensures IdInv(w.nextTask, w.nextTimer, At(all, cur, f), reserve)
    ensures Potential(w, At(all, cur, f), cur) + 4 * (StageWork(all[cur].future.stage) - StageWork(f.stage))
        == Potential(w, all, cur)
  {
    LoadUpdate(all, cur, all[cur].(future := f), w.nextTask);
  }

  // The future moves on to a stage that holds no timer; its handles and meaning are unchanged.
  lemma MoveOn(w: World, all: Population, cur: int, g: Ghost, f: Future, f1: Future)
    requires Inside(w, all, cur, g, f)
    requires f1.handles == f.handles && !f1.stage.Sleeping? && !AtJoin(f)
    requires StageWork(f1.stage) <= StageWork(f.stage)
    requires f.stage.Sleeping? ==> f.stage.reg !in w.timers
    requires Predict(f1, w.now, g.hist) == Predict(f, w.now, g.hist)
    requires g.parkless ==> StageNoPark(f1.stage)
    ensures Inside(w, At(all, cur, f1), cur, g, f1)
    ensures Potential(w, At(all, cur, f1), cur) + 4 * (StageWork(f.stage) - StageWork(f1.stage))
        == Potential(w, all, cur)
  {
    hide SchedInv, OpenInv, FlightInv, WaiterInv, JoinInv, KeptInv, TimerInv, ArmInv, TimeInv, OriginInv, IdInv,
        Predict, Load, Potential;
    SwapSched(w.schedules, Tokens(w), all, cur, f1);
    SwapOpen(w.unsent, all, g.open, cur, f1);
    SwapFlight(w.schedules, Tokens(w), w.unsent, w.joins, all, cur, f1);
    SwapWaiters(w.joins, w.schedules, all, cur, f1);
    SwapArm(w.schedules, w.joins, w.timers, all, cur, f1);
    SwapJoin(w.joins, all, g.hist, cur, f1);
    SwapTimer(w.timers, w.nextTimer, w.now, w.schedules, all, cur, f1);
    SwapTime(Exact(w, g), w.now, w.joins, all, g.hist, g.rootFin, cur, f1);
    SwapIds(w, all, cur, f1, g.reserve);
    if g.parkless { SwapPark(all, cur, f1); }
  }

  /* ---- Timers ---- */

  // An elapsed sleep gives up its registration.
  lemma CancelOwn(w: World, all: Population, cur: int, g: Ghost, f: Future)
    requires Inside(w, all, cur, g, f) && f.stage.Sleeping? && w.now >= f.stage.deadline
    ensures Inside(w.(timers := w.timers - {f.stage.reg}), all, cur, g, f)
    ensures Potential(w.(timers := w.timers - {f.stage.reg}), all, cur) <= Potential(w, all, cur)
  {
    hide SchedInv, OpenInv, FlightInv, WaiterInv, JoinInv, KeptInv, TimerInv, ArmInv, TimeInv, OriginInv, IdInv, Load,
        Tokens, Potential;
    var w1 := w.(timers := w.timers - {f.stage.reg});
    TokensSame(w, w1);
    CancelTimers(w.timers, w.nextTimer, w.now, w.schedules, Tokens(w), all, cur);
    CancelArm(w.schedules, Tokens(w), w.joins, w.timers, w1.timers, all, cur);
    CancelCost(w, all, cur, f.stage.reg);
  }

  lemma CancelCost(w: World, all: Population, cur: int, reg: nat)
    ensures Potential(w.(timers := w.timers - {reg}), all, cur) <= Potential(w, all, cur)
  {
    assert (w.timers - {reg}).Keys == w.timers.Keys - {reg};
    SubsetSize((w.timers - {reg}).Keys, w.timers.Keys);
  }

  lemma CancelArm(ss: seq<Schedule>, toks: multiset<nat>, js: Cells, timers: Registrations, after: Registrations,
        all: Population, cur: int)
    requires ArmInv(ss, js, timers, all, cur, {}) && SchedInv(ss, toks, all, cur)
    requires forall r | r in after :: r in timers && after[r] == timers[r]
    requires forall id | id in all && id != cur && all[id].future.stage.Sleeping? ::
      all[id].future.stage.reg in timers ==> all[id].future.stage.reg in after
    ensures ArmInv(ss, js, after, all, cur, {})
  {
    forall id | id in all && id != cur && ss[all[id].sched].state.Idle? ensures Armed(js, after, all[id]) {
      assert Armed(js, timers, all[id]);
    }
  }

  lemma CancelTimers(timers: Registrations, nextTimer: nat, now: int, ss: seq<Schedule>, toks: multiset<nat>,
        all: Population, cur: int)
    requires TimerInv(timers, nextTimer, now, ss, all) && cur >= 0 && cur in all && all[cur].future.stage.Sleeping?
    requires SchedInv(ss, toks, all, cur)
    requires all[cur].future.stage.deadline <= now
    ensures TimerInv(timers - {all[cur].future.stage.reg}, nextTimer, now, ss, all)
    ensures forall id | id in all && id != cur && all[id].future.stage.Sleeping? ::
      all[id].future.stage.reg in timers ==> all[id].future.stage.reg in timers - {all[cur].future.stage.reg}
  {
    var after := timers - {all[cur].future.stage.reg};
    assert SleepOk(timers, nextTimer, now, all[cur]);
    forall id | id in all && all[id].future.stage.Sleeping?
      ensures SleepOk(after, nextTimer, now, all[id])
      ensures id != cur && all[id].future.stage.reg in timers ==> all[id].future.stage.reg in after
    {
      assert SleepOk(timers, nextTimer, now, all[id]);
    }
    forall r | r in after ensures Owned(after, r, ss, all) {
      assert Owned(timers, r, ss, all);
    }
  }

  lemma RegisterOwn(w: World, all: Population, cur: int, g: Ghost, f: Future)
    requires Inside(w, all, cur, g, f)
    requires f.stage.Run? && f.stage.p.Sleep? && f.stage.p.d > 0
    ensures w.nextTimer !in w.timers
    ensures var f1 := f.(stage := Sleeping(w.now + f.stage.p.d, w.nextTimer, f.stage.p.next));
      var w1 := w.(timers := w.timers[w.nextTimer := Registration(w.now + f.stage.p.d, all[cur].sched)],
          nextTimer := WrappingSucc(w.nextTimer));
      && Inside(w1, At(all, cur, f1), cur, g, f1)
      && Armed(w1.joins, w1.timers, At(all, cur, f1)[cur])
  {
    hide SchedInv, OpenInv, FlightInv, WaiterInv, JoinInv, KeptInv, TimerInv, ArmInv, TimeInv, OriginInv, IdInv,
        Predict, Load, Potential, Tokens;
    var f1 := f.(stage := Sleeping(w.now + f.stage.p.d, w.nextTimer, f.stage.p.next));
    var r := Registration(w.now + f.stage.p.d, all[cur].sched);
    SwapSched(w.schedules, Tokens(w), all, cur, f1);
    SwapOpen(w.unsent, all, g.open, cur, f1);
    UnsentIsToken(w);
    SwapFlight(w.schedules, Tokens(w), w.unsent, w.joins, all, cur, f1);
    SwapWaiters(w.joins, w.schedules, all, cur, f1);
    SwapArm(w.schedules, w.joins, w.timers, all, cur, f1);
    SwapJoin(w.joins, all, g.hist, cur, f1);
    PredictRegister(f, w.now, g.hist, w.nextTimer);
    SwapTime(Exact(w, g), w.now, w.joins, all, g.hist, g.rootFin, cur, f1);
    if g.parkless { ParkOf(all, cur); SwapPark(all, cur, f1); }
    RegisterTimers(w.timers, w.nextTimer, w.now, w.schedules, Tokens(w), all, cur, f1);
    RegisterArm(w.schedules, w.joins, w.timers, w.nextTimer, r, At(all, cur, f1), cur);
    TokensSame(w, w.(timers := w.timers[w.nextTimer := r], nextTimer := WrappingSucc(w.nextTimer)));
    RegisterIds(w, all, cur, f1, w.(timers := w.timers[w.nextTimer := r], nextTimer := WrappingSucc(w.nextTimer)),
        g.reserve);
  }

  lemma ParkOf(all: Population, cur: int)
    requires NobodyParks(all) && cur >= 0 && cur in all
    ensures StageNoPark(all[cur].future.stage)
  {}

  lemma RegisterIds(w: World, all: Population, cur: int, f1: Future, w1: World, reserve: nat)
    requires IdInv(w.nextTask, w.nextTimer, all, reserve) && cur >= 0 && cur in all
    requires StageWork(f1.stage) < StageWork(all[cur].future.stage)
    requires w1.nextTask == w.nextTask && w1.nextTimer == WrappingSucc(w.nextTimer)
    ensures IdInv(w1.nextTask, w1.nextTimer, At(all, cur, f1), reserve) && w1.nextTimer == w.nextTimer + 1
  {
    LoadUpdate(all, cur, all[cur].(future := f1), w.nextTask);
  }

  lemma PredictRegister(f: Future, now: int, hist: History, reg: nat)
    requires f.stage.Run? && f.stage.p.Sleep?
    ensures Predict(f.(stage := Sleeping(now + f.stage.p.d, reg, f.stage.p.next)), now, hist) == Predict(f, now, hist)
  {}

  lemma RegisterCost(w: World, all: Population, cur: int, w1: World, f1: Future, r: Registration)
    requires cur >= 0 && cur in all && cur < w.nextTask && StageWork(f1.stage) < StageWork(all[cur].future.stage)
    requires w.nextTimer !in w.timers && w1.timers == w.timers[w.nextTimer := r]
    requires w1.nextTask == w.nextTask && w1.ready == w.ready && w1.unsent == w.unsent && w1.schedules == w.schedules
    ensures Potential(w1, At(all, cur, f1), cur) < Potential(w, all, cur)
  {
    LoadUpdate(all, cur, all[cur].(future := f1), w.nextTask);
    assert w1.timers.Keys == w.timers.Keys + {w.nextTimer};
    assert |w1.timers| == |w.timers| + 1;
  }

  lemma MoveCost(w: World, all: Population, cur: int, w1: World, f1: Future)
    requires cur >= 0 && cur in all && cur < w.nextTask && StageWork(f1.stage) < StageWork(all[cur].future.stage)
    requires w1.nextTask == w.nextTask && w1.ready == w.ready && w1.unsent == w.unsent && w1.schedules == w.schedules
        && w1.timers == w.timers
    ensures Potential(w1, At(all, cur, f1), cur) < Potential(w, all, cur)
  {
    LoadUpdate(all, cur, all[cur].(future := f1), w.nextTask);
  }

  lemma RegisterArm(ss: seq<Schedule>, js: Cells, timers: Registrations, id: nat, r: Registration, all: Population,
        cur: int)
    requires ArmInv(ss, js, timers, all, cur, {}) && id !in timers
    ensures ArmInv(ss, js, timers[id := r], all, cur, {})
  {}

  lemma RegisterTimers(timers: Registrations, nextTimer: nat, now: int, ss: seq<Schedule>, toks: multiset<nat>,
        all: Population, cur: int, f1: Future)
    requires TimerInv(timers, nextTimer, now, ss, all) && cur >= 0 && cur in all && !all[cur].future.stage.Sleeping?
    requires SchedInv(ss, toks, all, cur)
    requires f1.stage.Sleeping? && f1.stage.reg == nextTimer
    ensures nextTimer !in timers
    ensures TimerInv(timers[nextTimer := Registration(f1.stage.deadline, all[cur].sched)], nextTimer + 1, now, ss,
        At(all, cur, f1))
  {
    var after := timers[nextTimer := Registration(f1.stage.deadline, all[cur].sched)];
    var all1 := At(all, cur, f1);
    forall id | id in all1 && all1[id].future.stage.Sleeping? ensures SleepOk(after, nextTimer + 1, now, all1[id]) {
      if id != cur { assert SleepOk(timers, nextTimer, now, all[id]); }
    }
    forall r | r in after ensures r < nextTimer + 1 && Owned(after, r, ss, all1) {
      if r != nextTimer { assert Owned(timers, r, ss, all); }
    }
  }

  // The clock moves while some meanings are only lower bounds.
  lemma ClockKeeps(w: World, later: int, all: Population, cur: int, g: Ghost, owed: set<nat>)
    requires Inv(w, all, cur, g, owed) && w.now <= later && !Exact(w, g)
    ensures Inv(w.(now := later), all, cur, g, owed)
    ensures Potential(w.(now := later), all, cur) == Potential(w, all, cur)
  {
    hide SchedInv, OpenInv, FlightInv, WaiterInv, JoinInv, KeptInv, TimerInv, ArmInv, TimeInv, OriginInv, IdInv, Load;
    ClockTimer(w.timers, w.nextTimer, w.now, later, w.schedules, all);
    ClockTime(w.now, later, w.joins, all, g.hist, g.rootFin);
  }

  lemma ClockTimer(timers: Registrations, nextTimer: nat, now: int, later: int, ss: seq<Schedule>, all: Population)
    requires TimerInv(timers, nextTimer, now, ss, all) && now <= later
    ensures TimerInv(timers, nextTimer, later, ss, all)
  {
    forall id | id in all && all[id].future.stage.Sleeping? ensures SleepOk(timers, nextTimer, later, all[id]) {
      assert SleepOk(timers, nextTimer, now, all[id]);
    }
  }

  lemma ClockTime(now: int, later: int, js: Cells, all: Population, hist: History, rootFin: Done)
    requires TimeInv(false, now, js, all, hist, rootFin) && now <= later
    ensures TimeInv(false, later, js, all, hist, rootFin)
  {
    forall id | id in all
      ensures Agrees(false, FinOf(all[id], hist, rootFin), Predict(all[id].future, later, hist))
    {
      PredictMonotone(all[id].future, now, later, hist);
    }
  }

  // Real time passes; a paused clock ignores it.
  lemma ElapseKeeps(w: World, d: nat, all: Population, cur: int, g: Ghost, owed: set<nat>)
    requires Inv(w, all, cur, g, owed)
    ensures Inv(Elapse(w, d), all, cur, g, owed)
    ensures Potential(Elapse(w, d), all, cur) == Potential(w, all, cur)
  {
    hide Inv, Potential;
    if !w.paused {
      ClockKeeps(w, w.now + d, all, cur, g, owed);
    }
  }

  lemma PredictMonotone(f: Future, now: int, later: int, hist: History)
    requires now <= later
    ensures Predict(f, now, hist).out == Predict(f, later, hist).out
    ensures Predict(f, now, hist).at <= Predict(f, later, hist).at
    ensures now <= Predict(f, now, hist).at
  {
    var hs := Fins(f.handles, hist);
    match f.stage
    case Run(p) => FinishMonotone(p, now, later, f.acc, hs, hs);
    case Sleeping(deadline, _, next) => FinishMonotone(next, Max(now, deadline), Max(later, deadline), f.acc, hs, hs);
    case Yielded(next) => FinishMonotone(next, now, later, f.acc, hs, hs);
    case Parked(next) => FinishMonotone(next, now, later, f.acc, hs, hs);
  }

  // An unresolved cell takes the waker of whoever polls its handle.
  lemma WaitOn(w: World, all: Population, cur: int, g: Ghost, f: Future, k: nat)
    requires Inside(w, all, cur, g, f)
    requires f.stage.Run? && f.stage.p.Join? && k == f.stage.p.k < |f.handles| && f.handles[k].Some?
    requires f.handles[k].value < |w.joins| && w.joins[f.handles[k].value].Pending?
    ensures var w1 := w.(joins := w.joins[f.handles[k].value := JoinState.Pending(Some(all[cur].sched))]);
      && Inside(w1, all, cur, g, f)
      && Armed(w1.joins, w1.timers, all[cur])
      && Potential(w1, all, cur) == Potential(w, all, cur)
  {
    hide SchedInv, OpenInv, FlightInv, WaiterInv, JoinInv, KeptInv, TimerInv, ArmInv, TimeInv, OriginInv, IdInv, Load;
    WaitJoin(w.joins, all, g.hist, f.handles[k].value, Some(all[cur].sched));
    KeptWait(w.joins, g.hist, g.kept, f.handles[k].value, Some(all[cur].sched));
    WaitFlight(w.schedules, Tokens(w), w.unsent, w.joins, all, g.hist, cur, k);
    WaitWaiters(w.joins, w.schedules, Tokens(w), all, cur, k);
    WaitArm(w.schedules, w.joins, w.timers, Tokens(w), all, g.hist, cur, k);
    WaitTime(Exact(w, g), w.now, w.joins, all, g.hist, g.rootFin, f.handles[k].value, Some(all[cur].sched));
  }

  lemma KeptWait(js: Cells, hist: History, kept: set<nat>, c: nat, waiter: Option<nat>)
    requires KeptInv(js, hist, kept) && c < |js|
    ensures KeptInv(js[c := JoinState.Pending(waiter)], hist, kept)
  {}

  lemma WaitJoin(js: Cells, all: Population, hist: History, c: nat, waiter: Option<nat>)
    requires JoinInv(js, all, hist) && c < |js| && js[c].Pending?
    ensures JoinInv(js[c := JoinState.Pending(waiter)], all, hist)
  {
    var js1 := js[c := JoinState.Pending(waiter)];
    forall id, j {:trigger HandleOk(js1, hist, all[id], j)} | id in all && 0 <= j < |all[id].future.handles|
      ensures HandleOk(js1, hist, all[id], j)
    {
      assert HandleOk(js, hist, all[id], j);
    }
  }

  // What happens to the polled task's own cell matters to nobody else's wait.
  lemma OthersAfloat(ss: seq<Schedule>, toks: multiset<nat>, unsent: multiset<nat>, js: Cells, all: Population,
        hist: History, cur: int, k: nat, j: JoinState<int>)
    requires FlightInv(unsent, js, all) && SchedInv(ss, toks, all, cur) && unsent <= toks && JoinInv(js, all, hist)
    requires cur >= 0 && cur in all && k < |all[cur].future.handles| && all[cur].future.handles[k].Some?
    requires all[cur].future.handles[k].value < |js|
    ensures FlightInv(unsent, js[all[cur].future.handles[k].value := j], all)
  {
    var js1 := js[all[cur].future.handles[k].value := j];
    assert toks[cur] == 0;
    forall id | id in unsent && id in all ensures Afloat(js1, all[id]) {
      assert Afloat(js, all[id]);
      if all[id].future.stage.Run? {
        HandlesApart(js, all, hist, ss, toks, cur, id, all[id].future.stage.p.k);
      }
    }
  }

  lemma WaitFlight(ss: seq<Schedule>, toks: multiset<nat>, unsent: multiset<nat>, js: Cells, all: Population,
        hist: History, cur: int, k: nat)
    requires FlightInv(unsent, js, all) && SchedInv(ss, toks, all, cur) && unsent <= toks && JoinInv(js, all, hist)
    requires cur >= 0 && cur in all && k < |all[cur].future.handles| && all[cur].future.handles[k].Some?
    requires all[cur].future.handles[k].value < |js|
    ensures FlightInv(unsent, js[all[cur].future.handles[k].value := JoinState.Pending(Some(all[cur].sched))], all)
  {
    OthersAfloat(ss, toks, unsent, js, all, hist, cur, k, JoinState.Pending(Some(all[cur].sched)));
  }

  lemma WaitWaiters(js: Cells, ss: seq<Schedule>, toks: multiset<nat>, all: Population, cur: int, k: nat)
    requires WaiterInv(js, ss, all) && SchedInv(ss, toks, all, cur) && cur >= 0 && cur in all && AtJoin(all[cur].future)
    requires k == all[cur].future.stage.p.k < |all[cur].future.handles| && all[cur].future.handles[k].Some?
    requires all[cur].future.handles[k].value < |js|
    ensures WaiterInv(js[all[cur].future.handles[k].value := JoinState.Pending(Some(all[cur].sched))], ss, all)
  {
    var js1 := js[all[cur].future.handles[k].value := JoinState.Pending(Some(all[cur].sched))];
    forall c | 0 <= c < |js1| && js1[c].Pending? && js1[c].waker.Some? ensures Awaited(js1, ss, all, c) {
      if c != all[cur].future.handles[k].value {
        assert Awaited(js, ss, all, c);
      }
    }
  }

  lemma WaitTime(exact: bool, now: int, js: Cells, all: Population, hist: History, rootFin: Done, c: nat,
        waiter: Option<nat>)
    requires TimeInv(exact, now, js, all, hist, rootFin) && c < |js| && js[c].Pending?
    ensures TimeInv(exact, now, js[c := JoinState.Pending(waiter)], all, hist, rootFin)
  {}

  // Only the holder of a handle leaves its waker in the cell, so nobody else's is lost.
  lemma WaitArm(ss: seq<Schedule>, js: Cells, timers: Registrations, toks: multiset<nat>, all: Population,
        hist: History, cur: int, k: nat)
    requires ArmInv(ss, js, timers, all, cur, {}) && JoinInv(js, all, hist) && SchedInv(ss, toks, all, cur)
    requires cur >= 0 && cur in all && k < |all[cur].future.handles| && all[cur].future.handles[k].Some?
    requires all[cur].future.handles[k].value < |js|
    ensures ArmInv(ss, js[all[cur].future.handles[k].value := JoinState.Pending(Some(all[cur].sched))], timers, all,
        cur, {})
  {
    var js1 := js[all[cur].future.handles[k].value := JoinState.Pending(Some(all[cur].sched))];
    forall id | id in all && id != cur && ss[all[id].sched].state.Idle?
      ensures Armed(js1, timers, all[id])
    {
      assert Armed(js, timers, all[id]);
      if all[id].future.stage.Run? {
        HandlesApart(js, all, hist, ss, toks, cur, id, all[id].future.stage.p.k);
      }
    }
  }

  // No two tasks hold a handle to the same cell.
  lemma HandlesApart(js: Cells, all: Population, hist: History, ss: seq<Schedule>, toks: multiset<nat>, cur: int,
        id: nat, k: nat)
    requires JoinInv(js, all, hist) && SchedInv(ss, toks, all, cur) && cur >= 0 && cur in all && id in all && id != cur
    requires k < |all[id].future.handles| && all[id].future.handles[k].Some?
    ensures all[id].future.handles[k] !in all[cur].future.handles
  {
    assert HandleOk(js, hist, all[id], k);
    forall j | 0 <= j < |all[cur].future.handles| ensures all[cur].future.handles[j] != all[id].future.handles[k] {
      assert HandleOk(js, hist, all[cur], j);
    }
  }

  lemma FinsWithout(hs: seq<Option<nat>>, k: nat, hist: History)
    requires k < |hs|
    ensures Fins(hs[k := None], hist) == Fins(hs, hist)[k := None]
  {}

  // A resolved cell is consumed and its value taken over.
  lemma TakeResult(w: World, all: Population, cur: int, g: Ghost, f: Future, k: nat, f1: Future)
    requires Inside(w, all, cur, g, f)
    requires f.stage.Run? && f.stage.p.Join? && k == f.stage.p.k < |f.handles| && f.handles[k].Some?
    requires f.handles[k].value < |w.joins| && w.joins[f.handles[k].value].Ready?
    requires f1 == match w.joins[f.handles[k].value].result
                   case Ok(v) => f.(stage := Run(f.stage.p.ok), acc := f.acc + v, handles := f.handles[k := None])
                   case Err(_) => f.(stage := Run(f.stage.p.err), handles := f.handles[k := None])
    ensures Inside(w.(joins := w.joins[f.handles[k].value := Consumed]), At(all, cur, f1), cur, g, f1)
  {
    hide SchedInv, OpenInv, FlightInv, WaiterInv, JoinInv, KeptInv, TimerInv, ArmInv, TimeInv, OriginInv, IdInv,
        Predict, Load, Potential;
    var c := f.handles[k].value;
    TakeFacts(Exact(w, g), w.now, w.joins, all, g.hist, g.rootFin, c);
    TakeJoin(w.joins, all, g.hist, w.schedules, Tokens(w), cur, k, f1);
    SwapSched(w.schedules, Tokens(w), all, cur, f1);
    SwapOpen(w.unsent, all, g.open, cur, f1);
    SwapArm(w.schedules, w.joins, w.timers, all, cur, f1);
    SwapTimer(w.timers, w.nextTimer, w.now, w.schedules, all, cur, f1);
    PredictTake(f, w.now, w.joins, g.hist, k, f1);
    SwapTime(Exact(w, g), w.now, w.joins, all, g.hist, g.rootFin, cur, f1);
    TakeTime(Exact(w, g), w.now, w.joins, At(all, cur, f1), g.hist, g.rootFin, c);
    SwapIds(w, all, cur, f1, g.reserve);
    if g.parkless { ParkOf(all, cur); SwapPark(all, cur, f1); }
    TakeFlight(w.schedules, Tokens(w), w.unsent, w.joins, all, g.hist, cur, k, f1);
    TakeWaiters(w.joins, w.schedules, all, cur, k, f1);
    TakeKept(w.joins, all, g.hist, w.schedules, Tokens(w), g.kept, cur, k);
    TakeArm(w.schedules, w.joins, w.timers, c, At(all, cur, f1), cur);
  }

  // A handle held by a task is not held outside.
  lemma TakeKept(js: Cells, all: Population, hist: History, ss: seq<Schedule>, toks: multiset<nat>, kept: set<nat>,
        cur: int, k: nat)
    requires JoinInv(js, all, hist) && SchedInv(ss, toks, all, cur) && KeptInv(js, hist, kept) && cur >= 0 && cur in all
    requires k < |all[cur].future.handles| && all[cur].future.handles[k].Some?
        && all[cur].future.handles[k].value < |js|
    ensures KeptInv(js[all[cur].future.handles[k].value := Consumed], hist, kept)
  {
    assert HandleOk(js, hist, all[cur], k);
  }

  lemma TakeFlight(ss: seq<Schedule>, toks: multiset<nat>, unsent: multiset<nat>, js: Cells, all: Population,
        hist: History, cur: int, k: nat, f1: Future)
    requires FlightInv(unsent, js, all) && SchedInv(ss, toks, all, cur) && unsent <= toks && JoinInv(js, all, hist)
    requires cur >= 0 && cur in all && k < |all[cur].future.handles| && all[cur].future.handles[k].Some?
    requires all[cur].future.handles[k].value < |js|
    ensures FlightInv(unsent, js[all[cur].future.handles[k].value := Consumed], At(all, cur, f1))
  {
    hide SchedInv, JoinInv, FlightInv;
    OthersAfloat(ss, toks, unsent, js, all, hist, cur, k, Consumed);
    SwapFlight(ss, toks, unsent, js[all[cur].future.handles[k].value := Consumed], all, cur, f1);
  }

  // A task that finds its result waits on no other cell.
  lemma TakeWaiters(js: Cells, ss: seq<Schedule>, all: Population, cur: int, k: nat, f1: Future)
    requires WaiterInv(js, ss, all) && cur >= 0 && cur in all && AtJoin(all[cur].future)
    requires k == all[cur].future.stage.p.k < |all[cur].future.handles| && all[cur].future.handles[k].Some?
    requires all[cur].future.handles[k].value < |js| && js[all[cur].future.handles[k].value].Ready?
    ensures WaiterInv(js[all[cur].future.handles[k].value := Consumed], ss, At(all, cur, f1))
  {
    var js1 := js[all[cur].future.handles[k].value := Consumed];
    forall c | 0 <= c < |js1| && js1[c].Pending? && js1[c].waker.Some? ensures Awaited(js1, ss, At(all, cur, f1), c) {
      assert Awaited(js, ss, all, c);
    }
  }

  lemma TakeFacts(exact: bool, now: int, js: Cells, all: Population, hist: History, rootFin: Done, c: nat)
    requires TimeInv(exact, now, js, all, hist, rootFin) && c < |js| && js[c].Ready?
    ensures |hist| == |js| && hist[c].fin.at <= now && js[c].result == ResultOf(hist[c].fin.out)
  {}

  lemma PredictTake(f: Future, now: int, js: Cells, hist: History, k: nat, f1: Future)
    requires f.stage.Run? && f.stage.p.Join? && k == f.stage.p.k < |f.handles| && f.handles[k].Some?
    requires |hist| == |js| && f.handles[k].value < |js| && js[f.handles[k].value].Ready?
    requires hist[f.handles[k].value].fin.at <= now
    requires js[f.handles[k].value].result == ResultOf(hist[f.handles[k].value].fin.out)
    requires f1 == match js[f.handles[k].value].result
                   case Ok(v) => f.(stage := Run(f.stage.p.ok), acc := f.acc + v, handles := f.handles[k := None])
                   case Err(_) => f.(stage := Run(f.stage.p.err), handles := f.handles[k := None])
    ensures Predict(f1, now, hist) == Predict(f, now, hist)
  {
    FinsWithout(f.handles, k, hist);
  }

  lemma TakeTime(exact: bool, now: int, js: Cells, all: Population, hist: History, rootFin: Done, c: nat)
    requires TimeInv(exact, now, js, all, hist, rootFin) && c < |js| && !js[c].Pending?
    ensures TimeInv(exact, now, js[c := Consumed], all, hist, rootFin)
  {}

  lemma TakeArm(ss: seq<Schedule>, js: Cells, timers: Registrations, c: nat, all: Population, cur: int)
    requires ArmInv(ss, js, timers, all, cur, {}) && c < |js| && !js[c].Pending?
    ensures ArmInv(ss, js[c := Consumed], timers, all, cur, {})
  {
    forall id | id in all && id != cur && all[id].sched < |ss| && ss[all[id].sched].state.Idle?
      ensures Armed(js[c := Consumed], timers, all[id])
    {
      assert Armed(js, timers, all[id]);
    }
  }

  lemma TakeJoin(js: Cells, all: Population, hist: History, ss: seq<Schedule>, toks: multiset<nat>, cur: int, k: nat,
        f1: Future)
    requires JoinInv(js, all, hist) && SchedInv(ss, toks, all, cur) && cur >= 0 && cur in all
    requires k < |all[cur].future.handles| && all[cur].future.handles[k].Some?
    requires all[cur].future.handles[k].value < |js| && js[all[cur].future.handles[k].value].Ready?
    requires f1.handles == all[cur].future.handles[k := None]
    ensures JoinInv(js[all[cur].future.handles[k].value := Consumed], At(all, cur, f1), hist)
  {
    var c := all[cur].future.handles[k].value;
    var all1 := At(all, cur, f1);
    assert HandleOk(js, hist, all[cur], k);
    forall id, j {:trigger HandleOk(js[c := Consumed], hist, all1[id], j)} | id in all1
        && 0 <= j < |all1[id].future.handles|
      ensures HandleOk(js[c := Consumed], hist, all1[id], j)
    {
      assert HandleOk(js, hist, all[id], j);
    }
  }

  /* ---- Spawning ---- */

  // No id is in the table and the spawn queue, or in the queue twice.
  ghost predicate Distinct(tasks: map<nat, LocalTask>, pending: seq<LocalTask>) {
    && (forall i | 0 <= i < |pending| :: pending[i].id !in tasks)
    && (forall i, j | 0 <= i < j < |pending| :: pending[i].id != pending[j].id)
  }

  lemma {:induction false} AdmittedKeys(tasks: map<nat, LocalTask>, pending: seq<LocalTask>)
    ensures tasks.Keys <= Admitted(tasks, pending).Keys
    ensures forall i | 0 <= i < |pending| :: pending[i].id in Admitted(tasks, pending)
    ensures forall id | id in Admitted(tasks, pending) :: id in tasks || exists i ::
      0 <= i < |pending| && pending[i].id == id
    decreases |pending|
  {
    if pending != [] {
      var rest := pending[1..];
      AdmittedKeys(tasks[pending[0].id := pending[0]], rest);
      forall id | id in Admitted(tasks, pending) && id !in tasks ensures exists i ::
        0 <= i < |pending| && pending[i].id == id {
        if id == pending[0].id {
          assert pending[0].id == id;
        } else {
          var i :| 0 <= i < |rest| && rest[i].id == id;
          assert pending[i + 1].id == id;
        }
      }
      forall i | 0 <= i < |pending| ensures pending[i].id in Admitted(tasks, pending) {
        if i > 0 { assert rest[i - 1] == pending[i]; }
      }
    }
  }

  // The task table as the wait loop will see it, with the root and the polled task up to date.
  ghost predicate Linked(w: World, all: Population, cur: int, root: LocalTask) {
    && cur >= 0 && cur in all
    && ROOT !in Admitted(w.tasks, w.pending)
    && Distinct(w.tasks, w.pending)
    && (forall i | 0 <= i < |w.pending| :: w.pending[i].id != cur)
    && all == Admitted(w.tasks, w.pending)[ROOT := root][cur as nat := all[cur]]
  }

  lemma {:induction false} AdmittedAppend(tasks: map<nat, LocalTask>, pending: seq<LocalTask>, t: LocalTask)
    ensures Admitted(tasks, pending + [t]) == Admitted(tasks, pending)[t.id := t]
    decreases |pending|
  {
    if pending != [] {
      assert (pending + [t])[1..] == pending[1..] + [t];
      AdmittedAppend(tasks[pending[0].id := pending[0]], pending[1..], t);
    } else {
      assert (pending + [t])[1..] == [];
    }
  }

  datatype Newborn = Newborn(task: LocalTask, birth: Birth)

  // The new task and its entry in the history.
  ghost function BornOf(w: World, cur: nat, f: Future, child: Program): Newborn {
    var task := LocalTask(w.nextTask, |w.schedules|, Some(|w.joins|), Future(Run(child), 0, []));
    Newborn(task, Birth(w.nextTask, cur, |f.handles|, Finish(child, w.now, 0, [])))
  }

  ghost function AfterSpawn(f: Future, cell: nat): Future
    requires f.stage.Run? && f.stage.p.Spawn?
  {
    f.(stage := Run(f.stage.p.next), handles := f.handles + [Some(cell)])
  }

  lemma SpawnSched(ss: seq<Schedule>, toks: multiset<nat>, all: Population, cur: int, f1: Future, task: LocalTask)
    requires SchedInv(ss, toks, all, cur) && cur >= 0 && cur in all
    requires task.id !in all && task.sched == |ss|
    ensures SchedInv(ss + [Schedule(task.id, Idle)], toks, At(all[task.id := task], cur, f1), cur)
  {}

  lemma IdOf(ss: seq<Schedule>, toks: multiset<nat>, all: Population, cur: int)
    requires SchedInv(ss, toks, all, cur) && cur >= 0 && cur in all
    ensures all[cur].id == cur
  {}

  lemma SpawnJoin(js: Cells, all: Population, hist: History, cur: int, f1: Future, born: Newborn)
    requires JoinInv(js, all, hist) && cur >= 0 && cur in all && all[cur].id == cur
    requires born.task.id !in all && born.task.id != ROOT && born.task.out == Some(|js|)
        && born.task.future.handles == []
    requires born.birth.owner == born.task.id && born.birth.parent == cur
        && born.birth.slot == |all[cur].future.handles|
    requires f1.handles == all[cur].future.handles + [Some(|js|)]
    ensures JoinInv(js + [JoinState.Pending(None)], At(all[born.task.id := born.task], cur, f1), hist + [born.birth])
  {
    var all1 := At(all[born.task.id := born.task], cur, f1);
    var js1, hist1 := js + [JoinState.Pending(None)], hist + [born.birth];
    forall id, k {:trigger HandleOk(js1, hist1, all1[id], k)} | id in all1 && 0 <= k < |all1[id].future.handles|
      ensures HandleOk(js1, hist1, all1[id], k)
    {
      if id in all && k < |all[id].future.handles| {
        assert HandleOk(js, hist, all[id], k);
      }
    }
  }

  lemma SpawnOpen(unsent: multiset<nat>, all: Population, open: set<nat>, cur: int, f1: Future, task: LocalTask)
    requires OpenInv(unsent, all, open) && cur >= 0 && cur in all && task.id !in all
    ensures OpenInv(unsent, At(all[task.id := task], cur, f1), open)
  {}

  lemma SpawnFlight(ss: seq<Schedule>, toks: multiset<nat>, unsent: multiset<nat>, js: Cells, all: Population,
        cur: int, f1: Future, task: LocalTask)
    requires FlightInv(unsent, js, all) && SchedInv(ss, toks, all, cur) && unsent <= toks && cur >= 0 && cur in all
        && task.id !in all
    ensures FlightInv(unsent, js + [JoinState.Pending(None)], At(all[task.id := task], cur, f1))
  {
    assert toks[cur] == 0 && toks[task.id] == 0;
    forall id | id in unsent && id in all ensures Afloat(js + [JoinState.Pending(None)], all[id]) {
      assert Afloat(js, all[id]);
    }
  }

  lemma SpawnWaiters(js: Cells, ss: seq<Schedule>, all: Population, cur: int, f1: Future, task: LocalTask)
    requires WaiterInv(js, ss, all) && cur >= 0 && cur in all && !AtJoin(all[cur].future) && task.id !in all
    ensures WaiterInv(js + [JoinState.Pending(None)], ss + [Schedule(task.id, Idle)], At(all[task.id := task], cur, f1))
  {
    var js1, ss1, all1 := js + [JoinState.Pending(None)], ss + [Schedule(task.id, Idle)],
        At(all[task.id := task], cur, f1);
    forall c | 0 <= c < |js1| && js1[c].Pending? && js1[c].waker.Some? ensures Awaited(js1, ss1, all1, c) {
      assert Awaited(js, ss, all, c);
    }
  }

  lemma SpawnRecords(js: Cells, origins: seq<Origin>, hist: History, kept: set<nat>, faithful: bool, birth: Birth,
        o: Origin)
    requires KeptInv(js, hist, kept) && OriginInv(origins, hist, faithful) && birth.fin == Finish(o.p, o.at, 0, [])
    ensures KeptInv(js + [JoinState.Pending(None)], hist + [birth], kept)
    ensures OriginInv(origins + [o], hist + [birth], faithful)
  {}

  lemma SpawnTimer(timers: Registrations, nextTimer: nat, now: int, ss: seq<Schedule>, all: Population, cur: int,
        f1: Future, task: LocalTask)
    requires TimerInv(timers, nextTimer, now, ss, all) && cur >= 0 && cur in all && !all[cur].future.stage.Sleeping?
    requires task.id !in all && !task.future.stage.Sleeping? && !f1.stage.Sleeping?
    ensures TimerInv(timers, nextTimer, now, ss + [Schedule(task.id, Idle)], At(all[task.id := task], cur, f1))
  {
    var all1 := At(all[task.id := task], cur, f1);
    forall id | id in all1 && all1[id].future.stage.Sleeping? ensures SleepOk(timers, nextTimer, now, all1[id]) {
      assert SleepOk(timers, nextTimer, now, all[id]);
    }
    forall r | r in timers ensures Owned(timers, r, ss + [Schedule(task.id, Idle)], all1) {
      assert Owned(timers, r, ss, all);
    }
  }

  lemma SpawnArm(ss: seq<Schedule>, js: Cells, timers: Registrations, toks: multiset<nat>, all: Population, cur: int,
        f1: Future, task: LocalTask)
    requires ArmInv(ss, js, timers, all, cur, {}) && SchedInv(ss, toks, all, cur) && cur >= 0 && cur in all
    requires task.id !in all && task.sched == |ss|
    ensures ArmInv(ss + [Schedule(task.id, Idle)], js + [JoinState.Pending(None)], timers,
        At(all[task.id := task], cur, f1), cur, {task.sched})
  {
    forall id | id in all && id != cur && ss[all[id].sched].state.Idle?
      ensures Armed(js + [JoinState.Pending(None)], timers, all[id])
    {
      assert Armed(js, timers, all[id]);
    }
  }

  lemma FinsExtend(hs: seq<Option<nat>>, hist: History, b: Birth)
    requires forall k | 0 <= k < |hs| && hs[k].Some? :: hs[k].value < |hist|
    ensures Fins(hs, hist + [b]) == Fins(hs, hist)
    ensures Fins(hs + [Some(|hist|)], hist + [b]) == Fins(hs, hist) + [Some(b.fin)]
  {}

  lemma SpawnTime(exact: bool, now: int, js: Cells, all: Population, hist: History, rootFin: Done, cur: int,
        f1: Future, born: Newborn)
    requires TimeInv(exact, now, js, all, hist, rootFin) && JoinInv(js, all, hist) && cur >= 0 && cur in all
    requires born.task.id !in all && born.task.out == Some(|js|)
    requires Predict(born.task.future, now, hist + [born.birth]) == born.birth.fin
    requires Predict(f1, now, hist + [born.birth]) == Predict(all[cur].future, now, hist)
    ensures TimeInv(exact, now, js + [JoinState.Pending(None)], At(all[born.task.id := born.task], cur, f1),
        hist + [born.birth], rootFin)
  {
    var hist1 := hist + [born.birth];
    forall id | id in all
      ensures FinOf(all[id], hist1, rootFin) == FinOf(all[id], hist, rootFin)
      ensures id != cur ==> Predict(all[id].future, now, hist1) == Predict(all[id].future, now, hist)
    {
      HandlesInRange(js, all, hist, id);
      FinsExtend(all[id].future.handles, hist, born.birth);
    }
  }

  lemma SpawnPredict(f: Future, now: int, hist: History, birth: Birth)
    requires f.stage.Run? && f.stage.p.Spawn?
    requires forall k | 0 <= k < |f.handles| && f.handles[k].Some? :: f.handles[k].value < |hist|
    requires birth.fin == Finish(f.stage.p.child, now, 0, [])
    ensures Predict(AfterSpawn(f, |hist|), now, hist + [birth]) == Predict(f, now, hist)
    ensures Predict(Future(Run(f.stage.p.child), 0, []), now, hist + [birth]) == birth.fin
  {
    FinsExtend(f.handles, hist, birth);
    assert Fins([], hist + [birth]) == [];
  }

  lemma SpawnIds(w: World, all: Population, cur: int, f1: Future, task: LocalTask, w1: World, reserve: nat)
    requires IdInv(w.nextTask, w.nextTimer, all, reserve) && cur >= 0 && cur in all && task.id == w.nextTask
    requires StageWork(f1.stage) + StageWork(task.future.stage) < StageWork(all[cur].future.stage)
    requires w1.nextTask == WrappingSucc(w.nextTask) && w1.nextTimer == w.nextTimer
    requires w1.timers == w.timers && w1.ready == w.ready && w1.unsent == w.unsent
        && w1.schedules == w.schedules + [Schedule(task.id, Idle)]
    requires all[cur].sched < |w.schedules|
    ensures w1.nextTask == w.nextTask + 1
    ensures IdInv(w1.nextTask, w1.nextTimer, At(all[task.id := task], cur, f1), reserve)
    ensures Potential(w1, At(all[task.id := task], cur, f1), cur) + 4 <= Potential(w, all, cur)
  {
    var n := w.nextTask;
    LoadUpdate(all, n, task, n + 1);
    LoadSame(all, all, n);
    LoadUpdate(all[n := task], cur, all[cur].(future := f1), n + 1);
    assert Load(all, n + 1) == Load(all, n);
  }

  lemma SpawnPark(all: Population, cur: int, f1: Future, task: LocalTask)
    requires NobodyParks(all) && cur >= 0 && cur in all && StageNoPark(f1.stage) && StageNoPark(task.future.stage)
    ensures NobodyParks(At(all[task.id := task], cur, f1))
  {}

  lemma SpawnLinked(w: World, all: Population, cur: int, root: LocalTask, f1: Future, task: LocalTask, w1: World)
    requires Linked(w, all, cur, root) && task.id !in all && task.id != ROOT
    requires w1.tasks == w.tasks && w1.pending == w.pending + [task]
    ensures Linked(w1, At(all[task.id := task], cur, f1), cur, root)
  {
    AdmittedAppend(w.tasks, w.pending, task);
    AdmittedKeys(w.tasks, w.pending);
  }

  lemma HandlesInRange(js: Cells, all: Population, hist: History, cur: int)
    requires JoinInv(js, all, hist) && cur >= 0 && cur in all
    ensures |hist| == |js|
    ensures forall k | 0 <= k < |all[cur].future.handles| && all[cur].future.handles[k].Some? ::
      all[cur].future.handles[k].value < |hist| && !js[all[cur].future.handles[k].value].Consumed?
  {
    forall k | 0 <= k < |all[cur].future.handles| && all[cur].future.handles[k].Some?
      ensures all[cur].future.handles[k].value < |hist| && !js[all[cur].future.handles[k].value].Consumed?
    {
      assert HandleOk(js, hist, all[cur], k);
    }
  }

  lemma IdFacts(w: World, all: Population, cur: int, reserve: nat)
    requires IdInv(w.nextTask, w.nextTimer, all, reserve) && SchedInv(w.schedules, Tokens(w), all, cur)
    ensures w.nextTask !in all && w.nextTask != 0 && w.nextTask < U64
    ensures cur >= 0 && cur in all ==>
      cur < w.nextTask && all[cur].sched < |w.schedules| && w.schedules[all[cur].sched].state.Running?
  {}

  // A spawn adds one queued task whose end is fixed from now on.
  lemma SpawnKeeps(w: World, all: Population, cur: int, g: Ghost, f: Future, root: LocalTask)
    returns (all1: Population, g1: Ghost)
    requires Inside(w, all, cur, g, f) && Linked(w, all, cur, root)
    requires f.stage.Run? && f.stage.p.Spawn?
    ensures var (w1, cell) := Spawned(w, f.stage.p.child);
      && Inside(w1, all1, cur, g1, AfterSpawn(f, cell)) && Linked(w1, all1, cur, root)
      && all1[cur] == all[cur].(future := AfterSpawn(f, cell))
      && Potential(w1, all1, cur) < Potential(w, all, cur)
      && w1.tasks == w.tasks && w1.paused == w.paused && w1.overtaken == w.overtaken && w1.now == w.now
      && Grown(w, all, w1, all1)
    ensures g1 == g.(hist := g1.hist)
  {
    hide SchedInv, OpenInv, FlightInv, WaiterInv, JoinInv, KeptInv, TimerInv, ArmInv, TimeInv, OriginInv, IdInv,
        Predict, Load, Potential, Linked, Finish;
    var child, cell := f.stage.p.child, |w.joins|;
    var born := BornOf(w, cur, f, child);
    var task, f1 := born.task, AfterSpawn(f, cell);
    IdFacts(w, all, cur, g.reserve);
    var v := w.(joins := w.joins + [JoinState.Pending(None)], origins := w.origins + [Origin(child, w.now)],
        nextTask := WrappingSucc(w.nextTask),
                schedules := w.schedules + [Schedule(task.id, Idle)], pending := w.pending + [task]);
    all1 := At(all[task.id := task], cur, f1);
    g1 := g.(hist := g.hist + [born.birth]);
    HandlesInRange(w.joins, all, g.hist, cur);
    SpawnSched(w.schedules, Tokens(w), all, cur, f1, task);
    IdOf(w.schedules, Tokens(w), all, cur);
    SpawnJoin(w.joins, all, g.hist, cur, f1, born);
    SpawnOpen(w.unsent, all, g.open, cur, f1, task);
    SpawnFlight(w.schedules, Tokens(w), w.unsent, w.joins, all, cur, f1, task);
    SpawnWaiters(w.joins, w.schedules, all, cur, f1, task);
    SpawnRecords(w.joins, w.origins, g.hist, g.kept, g.faithful, born.birth, Origin(child, w.now));
    SpawnTimer(w.timers, w.nextTimer, w.now, w.schedules, all, cur, f1, task);
    SpawnArm(w.schedules, w.joins, w.timers, Tokens(w), all, cur, f1, task);
    SpawnPredict(f, w.now, g.hist, born.birth);
    SpawnTime(Exact(w, g), w.now, w.joins, all, g.hist, g.rootFin, cur, f1, born);
    SpawnIds(w, all, cur, f1, task, v, g.reserve);
    if g.parkless { ParkOf(all, cur); SpawnPark(all, cur, f1, task); }
    SpawnLinked(w, all, cur, root, f1, task, v);
    WakeKeeps(v, task.sched, all1, cur, g1, {task.sched});
    assert {task.sched} - {task.sched} == {};
    LinkedFrame(v, WakeSchedule(v, task.sched), all1, cur, root);
  }

  lemma LinkedFrame(w: World, w1: World, all: Population, cur: int, root: LocalTask)
    requires Linked(w, all, cur, root) && w1.tasks == w.tasks && w1.pending == w.pending
    ensures Linked(w1, all, cur, root)
  {}

  /* ---- A whole poll ---- */

  // New tasks have new ids, and the record of what was spawned is only added to.
  ghost predicate Grown(w: World, all: Population, w1: World, all1: Population) {
    && w.nextTask <= w1.nextTask && w.origins <= w1.origins
    && forall id | id in all1 :: id in all || w.nextTask <= id
  }

  // What one poll of the future `f` of task `cur` guarantees about the result `r`.
  ghost predicate PollDone(w: World, all: Population, cur: int, g: Ghost, r: PollResult, root: LocalTask,
        all1: Population, g1: Ghost) {
    && cur >= 0 && cur in all
    && Inside(r.w, all1, cur, g1, r.f) && Linked(r.w, all1, cur, root)
    && all1[cur] == all[cur].(future := r.f)
    && g1 == g.(hist := g1.hist)
    && Potential(r.w, all1, cur) <= Potential(w, all, cur)
    && r.w.tasks == w.tasks && r.w.paused == w.paused && r.w.overtaken == w.overtaken && w.now <= r.w.now
        && (w.paused ==> r.w.now == w.now)
    && Grown(w, all, r.w, all1)
    && match r.res
       case Suspended => Armed(r.w.joins, r.w.timers, all1[cur])
           || r.w.schedules[all1[cur].sched].state == Running(true)
       case Resolved(o) => Predict(r.f, r.w.now, g1.hist) == Done(r.w.now, o) && !r.f.stage.Sleeping?
  }

  // The world after one instruction, when the poll goes on from there.
  lemma PollOn(w: World, all: Population, cur: int, g: Ghost, f: Future, root: LocalTask, w1: World,
        all1: Population, g1: Ghost, f1: Future, r: PollResult, all2: Population, g2: Ghost)
    requires cur >= 0 && cur in all && cur in all1
    requires all1[cur] == all[cur].(future := f1)
    requires g1 == g.(hist := g1.hist)
    requires Potential(w1, all1, cur) <= Potential(w, all, cur)
    requires w1.tasks == w.tasks && w1.paused == w.paused && w1.overtaken == w.overtaken && w.now <= w1.now
        && (w.paused ==> w1.now == w.now)
    requires Grown(w, all, w1, all1)
    requires PollDone(w1, all1, cur, g1, r, root, all2, g2)
    ensures PollDone(w, all, cur, g, r, root, all2, g2)
  {
    hide Inside, Linked, Potential, Armed, Predict;
  }

  lemma RewakeOwn(w: World, all: Population, cur: int, g: Ghost, f: Future)
    requires Inside(w, all, cur, g, f) && f.stage.Sleeping? && w.now < f.stage.deadline
    ensures f.stage.reg in w.timers && w.timers[f.stage.reg] == Registration(f.stage.deadline, all[cur].sched)
    ensures w.timers[f.stage.reg := w.timers[f.stage.reg].(waker := all[cur].sched)] == w.timers
  {
    assert SleepOk(w.timers, w.nextTimer, w.now, all[cur]);
  }

  lemma LinkedAt(w: World, all: Population, cur: int, root: LocalTask, f1: Future, w1: World)
    requires Linked(w, all, cur, root) && w1.tasks == w.tasks && w1.pending == w.pending
    ensures Linked(w1, At(all, cur, f1), cur, root)
  {}

  // An instruction that only moves the future on, after a change of the world that keeps `Inside`.
  lemma Advance(w: World, all: Population, cur: int, g: Ghost, f: Future, root: LocalTask, w1: World, f1: Future)
    returns (all2: Population, g2: Ghost)
    requires Inside(w, all, cur, g, f) && Linked(w, all, cur, root)
    requires Inside(w1, all, cur, g, f) && w1.tasks == w.tasks && w1.pending == w.pending && w1.paused == w.paused
        && w1.overtaken == w.overtaken && w1.nextTask == w.nextTask && w1.origins == w.origins
    requires w.now <= w1.now && (w.paused ==> w1.now == w.now)
    requires Potential(w1, all, cur) <= Potential(w, all, cur) + 4
    requires StageWork(f1.stage) < StageWork(f.stage) || (StageWork(f1.stage) == StageWork(f.stage) && w1 == w)
    requires f1.stage.Run? && (f.stage.Run? ==> StageWork(f1.stage) < StageWork(f.stage))
    requires f1.handles == f.handles && !AtJoin(f)
    requires f.stage.Sleeping? ==> f.stage.reg !in w1.timers
    requires Predict(f1, w1.now, g.hist) == Predict(f, w1.now, g.hist)
    requires g.parkless ==> StageNoPark(f1.stage)
    ensures PollDone(w, all, cur, g, Poll(w1, all[cur].sched, f1), root, all2, g2)
    decreases StageWork(f.stage), if f.stage.Run? then 0 else 1, 0
  {
    hide Inv, Predict, Potential, Linked, Poll, PollDone;
    MoveOn(w1, all, cur, g, f, f1);
    LinkedAt(w, all, cur, root, f1, w1);
    var all1 := At(all, cur, f1);
    all2, g2 := PollKeeps(w1, all1, cur, g, f1, root);
    PollOn(w, all, cur, g, f, root, w1, all1, g, f1, Poll(w1, all[cur].sched, f1), all2, g2);
  }

  lemma PollSpawn(w: World, all: Population, cur: int, g: Ghost, f: Future, root: LocalTask)
    returns (all1: Population, g1: Ghost)
    requires Inside(w, all, cur, g, f) && Linked(w, all, cur, root)
    requires f.stage.Run? && f.stage.p.Spawn?
    ensures PollDone(w, all, cur, g, Poll(w, all[cur].sched, f), root, all1, g1)
    decreases StageWork(f.stage), 0, 0
  {
    hide Predict, Potential, Linked, Inv, PollDone;
    var all0, g0 := SpawnKeeps(w, all, cur, g, f, root);
    var (w1, cell) := Spawned(w, f.stage.p.child);
    all1, g1 := PollKeeps(w1, all0, cur, g0, AfterSpawn(f, cell), root);
    PollOn(w, all, cur, g, f, root, w1, all0, g0, AfterSpawn(f, cell), Poll(w1, all[cur].sched, AfterSpawn(f, cell)),
        all1, g1);
  }

  lemma PollJoin(w: World, all: Population, cur: int, g: Ghost, f: Future, root: LocalTask)
    returns (all1: Population, g1: Ghost)
    requires Inside(w, all, cur, g, f) && Linked(w, all, cur, root)
    requires f.stage.Run? && f.stage.p.Join?
    ensures PollDone(w, all, cur, g, Poll(w, all[cur].sched, f), root, all1, g1)
    decreases StageWork(f.stage), 0, 0
  {
    hide Predict, Potential, Linked, SchedInv, OpenInv, FlightInv, WaiterInv, JoinInv, KeptInv, TimerInv, ArmInv,
        TimeInv, OriginInv, IdInv, NobodyParks;
    all1, g1 := all, g;
    IdFacts(w, all, cur, g.reserve);
    HandlesInRange(w.joins, all, g.hist, cur);
    var k := f.stage.p.k;
    if k < |f.handles| && f.handles[k].Some? {
      var c := f.handles[k].value;
      match w.joins[c]
      case Pending(_) =>
        WaitOn(w, all, cur, g, f, k);
        LinkedFrame(w, w.(joins := w.joins[c := JoinState.Pending(Some(all[cur].sched))]), all, cur, root);
      case Ready(result) =>
        var w1 := w.(joins := w.joins[c := Consumed]);
        var f1 := match result
                  case Ok(v) => f.(stage := Run(f.stage.p.ok), acc := f.acc + v, handles := f.handles[k := None])
                  case Err(_) => f.(stage := Run(f.stage.p.err), handles := f.handles[k := None]);
        TakeResult(w, all, cur, g, f, k, f1);
        MoveCost(w, all, cur, w1, f1);
        LinkedAt(w, all, cur, root, f1, w1);
        all1, g1 := PollKeeps(w1, At(all, cur, f1), cur, g, f1, root);
        PollOn(w, all, cur, g, f, root, w1, At(all, cur, f1), g, f1, Poll(w1, all[cur].sched, f1), all1, g1);
    } else {
      PredictEnd(f, w.now, g.hist);
    }
  }

  lemma PollSleep(w: World, all: Population, cur: int, g: Ghost, f: Future, root: LocalTask) returns (all1: Population)
    requires Inside(w, all, cur, g, f) && Linked(w, all, cur, root)
    requires f.stage.Run? && f.stage.p.Sleep? && f.stage.p.d > 0
    ensures PollDone(w, all, cur, g, Poll(w, all[cur].sched, f), root, all1, g)
  {
    hide Predict, Potential, Linked, SchedInv, OpenInv, FlightInv, WaiterInv, JoinInv, KeptInv, TimerInv, ArmInv,
        TimeInv, OriginInv, IdInv, NobodyParks;
    var d := f.stage.p.d;
    IdFacts(w, all, cur, g.reserve);
    RegisterOwn(w, all, cur, g, f);
    var f1 := f.(stage := Sleeping(w.now + d, w.nextTimer, f.stage.p.next));
    var r := Registration(w.now + d, all[cur].sched);
    var w1 := w.(timers := w.timers[w.nextTimer := r], nextTimer := WrappingSucc(w.nextTimer));
    RegisterCost(w, all, cur, w1, f1, r);
    LinkedAt(w, all, cur, root, f1, w1);
    all1 := At(all, cur, f1);
  }

  lemma PollAsleep(w: World, all: Population, cur: int, g: Ghost, f: Future, root: LocalTask)
    returns (all1: Population, g1: Ghost)
    requires Inside(w, all, cur, g, f) && Linked(w, all, cur, root)
    requires f.stage.Sleeping?
    ensures PollDone(w, all, cur, g, Poll(w, all[cur].sched, f), root, all1, g1)
    decreases StageWork(f.stage), 1, 1
  {
    hide Predict, Potential, Linked, SchedInv, OpenInv, FlightInv, WaiterInv, JoinInv, KeptInv, TimerInv, ArmInv,
        TimeInv, OriginInv, IdInv, NobodyParks;
    all1, g1 := all, g;
    if g.parkless { ParkOf(all, cur); }
    if w.now >= f.stage.deadline {
      CancelOwn(w, all, cur, g, f);
      PredictAwake(f, w.now, g.hist);
      all1, g1 := Advance(w, all, cur, g, f, root, w.(timers := w.timers - {f.stage.reg}),
          f.(stage := Run(f.stage.next)));
    } else {
      RewakeOwn(w, all, cur, g, f);
    }
  }

  lemma PollYield(w: World, all: Population, cur: int, g: Ghost, f: Future, root: LocalTask) returns (all1: Population)
    requires Inside(w, all, cur, g, f) && Linked(w, all, cur, root)
    requires f.stage.Run? && f.stage.p.Yield?
    ensures PollDone(w, all, cur, g, Poll(w, all[cur].sched, f), root, all1, g)
  {
    hide Predict, Potential, Linked, SchedInv, OpenInv, FlightInv, WaiterInv, JoinInv, KeptInv, TimerInv, ArmInv,
        TimeInv, OriginInv, IdInv, NobodyParks;
    IdFacts(w, all, cur, g.reserve);
    if g.parkless { ParkOf(all, cur); }
    var f1 := f.(stage := Yielded(f.stage.p.next));
    PredictSkip(f, w.now, g.hist);
    MoveOn(w, all, cur, g, f, f1);
    LinkedAt(w, all, cur, root, f1, WakeSchedule(w, all[cur].sched));
    all1 := At(all, cur, f1);
    WakeKeeps(w, all[cur].sched, all1, cur, g, {});
    assert {} - {all[cur].sched} == {};
  }

  lemma PollPark(w: World, all: Population, cur: int, g: Ghost, f: Future, root: LocalTask) returns (all1: Population)
    requires Inside(w, all, cur, g, f) && Linked(w, all, cur, root)
    requires f.stage.Run? && f.stage.p.Park?
    ensures PollDone(w, all, cur, g, Poll(w, all[cur].sched, f), root, all1, g)
  {
    hide Predict, Potential, Linked, SchedInv, OpenInv, FlightInv, WaiterInv, JoinInv, KeptInv, TimerInv, ArmInv,
        TimeInv, OriginInv, IdInv, NobodyParks;
    IdFacts(w, all, cur, g.reserve);
    if g.parkless { ParkOf(all, cur); }
    var f1 := f.(stage := Parked(f.stage.p.next));
    PredictSkip(f, w.now, g.hist);
    MoveOn(w, all, cur, g, f, f1);
    LinkedAt(w, all, cur, root, f1, w);
    all1 := At(all, cur, f1);
  }

  // An instruction after which the poll goes on, or at which the future ends.
  lemma PollRun(w: World, all: Population, cur: int, g: Ghost, f: Future, root: LocalTask)
    returns (all1: Population, g1: Ghost)
    requires Inside(w, all, cur, g, f) && Linked(w, all, cur, root) && f.stage.Run?
    ensures PollDone(w, all, cur, g, Poll(w, all[cur].sched, f), root, all1, g1)
    decreases StageWork(f.stage), 0, 1
  {
    hide Predict, Potential, Linked, SchedInv, OpenInv, FlightInv, WaiterInv, JoinInv, KeptInv, TimerInv, ArmInv,
        TimeInv, OriginInv, IdInv, NobodyParks;
    all1, g1 := all, g;
    IdFacts(w, all, cur, g.reserve);
    if g.parkless { ParkOf(all, cur); }
    match f.stage.p
    case Return(v) => PredictEnd(f, w.now, g.hist);
    case Panic => PredictEnd(f, w.now, g.hist);
    case Sleep(d, next) =>
      if d == 0 {
        PredictSkip(f, w.now, g.hist);
        all1, g1 := Advance(w, all, cur, g, f, root, w, f.(stage := Run(next)));
      } else {
        all1 := PollSleep(w, all, cur, g, f, root);
      }
    case Spawn(_, _) => all1, g1 := PollSpawn(w, all, cur, g, f, root);
    case Join(_, _, _) => all1, g1 := PollJoin(w, all, cur, g, f, root);
    case Yield(_) => all1 := PollYield(w, all, cur, g, f, root);
    case Wake(target, next) =>
      PredictSkip(f, w.now, g.hist);
      WakeKeeps(w, target, all, cur, g, {});
      assert {} - {target} == {};
      all1, g1 := Advance(w, all, cur, g, f, root, WakeSchedule(w, target), f.(stage := Run(next)));
    case Busy(d, next) =>
      PredictSkip(f, Elapse(w, d).now, g.hist);
      ElapseKeeps(w, d, all, cur, g, {});
      all1, g1 := Advance(w, all, cur, g, f, root, Elapse(w, d), f.(stage := Run(next)));
    case Park(_) => all1 := PollPark(w, all, cur, g, f, root);
  }

  // Whatever the future does, one poll of it keeps the invariant, raises no fault, spends
  // work, and either resolves on time or leaves somebody who will wake the task.
  lemma PollKeeps(w: World, all: Population, cur: int, g: Ghost, f: Future, root: LocalTask)
    returns (all1: Population, g1: Ghost)
    requires Inside(w, all, cur, g, f) && Linked(w, all, cur, root)
    ensures PollDone(w, all, cur, g, Poll(w, all[cur].sched, f), root, all1, g1)
    decreases StageWork(f.stage), if f.stage.Run? then 0 else 1, 2
  {
    hide Predict, Potential, Linked, SchedInv, OpenInv, FlightInv, WaiterInv, JoinInv, KeptInv, TimerInv, ArmInv,
        TimeInv, OriginInv, IdInv, NobodyParks;
    if g.parkless { ParkOf(all, cur); }
    match f.stage
    case Sleeping(_, _, _) =>
      all1, g1 := PollAsleep(w, all, cur, g, f, root);
    case Yielded(next) =>
      PredictAwake(f, w.now, g.hist);
      all1, g1 := Advance(w, all, cur, g, f, root, w, f.(stage := Run(next)));
    case Parked(next) =>
      PredictAwake(f, w.now, g.hist);
      all1, g1 := Advance(w, all, cur, g, f, root, w, f.(stage := Run(next)));
    case Run(_) => all1, g1 := PollRun(w, all, cur, g, f, root);
  }

  /* ---- Single instructions seen from virtual time ---- */

  lemma PredictAwake(f: Future, now: int, hist: History)
    requires !f.stage.Run? && (f.stage.Sleeping? ==> f.stage.deadline <= now)
    ensures Predict(f.(stage := Run(f.stage.next)), now, hist) == Predict(f, now, hist)
  {}

  lemma PredictSkip(f: Future, now: int, hist: History)
    requires f.stage.Run?
    requires f.stage.p.Yield? || f.stage.p.Wake? || f.stage.p.Busy? || f.stage.p.Park?
        || (f.stage.p.Sleep? && f.stage.p.d == 0)
    ensures Predict(f.(stage := Run(f.stage.p.next)), now, hist) == Predict(f, now, hist)
    ensures Predict(f.(stage := Yielded(f.stage.p.next)), now, hist) == Predict(f, now, hist)
    ensures Predict(f.(stage := Parked(f.stage.p.next)), now, hist) == Predict(f, now, hist)
  {}

  lemma PredictEnd(f: Future, now: int, hist: History)
    requires f.stage.Run?
    requires f.stage.p.Return? || f.stage.p.Panic?
        || (f.stage.p.Join? && (f.stage.p.k >= |f.handles| || f.handles[f.stage.p.k].None?))
    ensures Predict(f, now, hist) == Done(now, if f.stage.p.Return? then Value(f.acc + f.stage.p.v) else Panicked)
  {}
}
