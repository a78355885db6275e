/** One round of the executor's loop, from waiting for a ready task to the end of its poll. */
module TurnInvariant {
  import opened Wrappers
  import opened TimerSpec
  import opened ScheduleState
  import opened JoinSpec
  import opened Programs
  import opened ExecutorSpec
  import opened Invariant
  import opened PollInvariant

  ghost function Whole(w: World, root: LocalTask): Population {
    Admitted(w.tasks, w.pending)[ROOT := root]
  }

  // Between two rounds.
  ghost predicate Good(c: Conf, g: Ghost) {
    && c.root.id == ROOT
    && ROOT !in Admitted(c.w.tasks, c.w.pending) && Distinct(c.w.tasks, c.w.pending)
    && Inv(c.w, Whole(c.w, c.root), NOBODY, g, {})
  }

  // Outside `block_on`.
  ghost predicate Quiet(w: World, g: Ghost) {
    && ROOT !in Admitted(w.tasks, w.pending) && Distinct(w.tasks, w.pending)
    && Inv(w, Admitted(w.tasks, w.pending), NOBODY, g, {})
  }

  // The world with a received entry put back: receiving and beginning the poll are two steps.
  function Held(w: World, id: nat): World {
    w.(ready := w.ready + [id])
  }

  /* ---- Beginning a poll ---- */

  lemma BeginSched(ss: seq<Schedule>, toks: multiset<nat>, all: Population, id: nat)
    requires SchedInv(ss, toks + multiset{id}, all, NOBODY)
    ensures id in all && all[id].sched < |ss| && ss[all[id].sched].state.Queued?
    ensures SchedInv(ss[all[id].sched := ss[all[id].sched].(state := Running(false))], toks, all, id)
  {
    assert (toks + multiset{id})[id] >= 1;
  }

  lemma ReschedTimer(timers: Registrations, nextTimer: nat, now: int, ss: seq<Schedule>, all: Population, s: nat,
        st: State)
    requires TimerInv(timers, nextTimer, now, ss, all) && s < |ss|
    ensures TimerInv(timers, nextTimer, now, ss[s := ss[s].(state := st)], all)
  {
    forall r | r in timers ensures Owned(timers, r, ss[s := ss[s].(state := st)], all) {
      assert Owned(timers, r, ss, all);
    }
  }

  lemma BeginKeeps(w: World, id: nat, all: Population, g: Ghost)
    requires Inv(Held(w, id), all, NOBODY, g, {})
    ensures id in all && Inside(BeginPoll(w, all[id].sched), all, id, g, all[id].future)
    ensures Potential(BeginPoll(w, all[id].sched), all, id) < Potential(Held(w, id), all, NOBODY)
  {
    hide OpenInv, FlightInv, WaiterInv, JoinInv, KeptInv, TimerInv, TimeInv, OriginInv, IdInv, Load, SchedInv;
    assert Tokens(Held(w, id)) == Tokens(w) + multiset{id};
    BeginSched(w.schedules, Tokens(w), all, id);
    ReschedTimer(w.timers, w.nextTimer, w.now, w.schedules, all, all[id].sched, Running(false));
    WakeWaiters(w.joins, w.schedules, all, all[id].sched, Running(false));
  }

  // What the outside does meanwhile.
  lemma OutsideKeeps(w: World, e: Event, all: Population, cur: int, g: Ghost)
    requires Inv(w, all, cur, g, {})
    ensures Inv(Outside(w, e), all, cur, g.(open := Opened(g.open, e.acts)), {})
    ensures Potential(Outside(w, e), all, cur) <= Potential(w, all, cur) + |e.acts|
    ensures var v := Outside(w, e);
      v == w.(now := v.now, schedules := v.schedules, ready := v.ready, unsent := v.unsent) && w.now <= v.now
          && (w.paused ==> v.now == w.now)
  {
    hide Inv, Potential;
    ElapseKeeps(w, e.elapse, all, cur, g, {});
    ActAllKeeps(Elapse(w, e.elapse), e.acts, all, cur, g);
    ActAllFrame(Elapse(w, e.elapse), e.acts);
  }

  // The poll of a received task has begun, and the outside has acted.
  lemma BegunKeeps(w: World, id: nat, e: Event, all: Population, g: Ghost, root: LocalTask)
    requires Inv(Held(w, id), all, NOBODY, g, {}) && all == Whole(w, root) && root.id == ROOT
    requires w.pending == [] && ROOT !in w.tasks
    ensures id in all
    ensures var v := Outside(BeginPoll(w, all[id].sched), e);
      && Inside(v, all, id, g.(open := Opened(g.open, e.acts)), all[id].future) && Linked(v, all, id, root)
      && Potential(v, all, id) < Potential(Held(w, id), all, NOBODY) + |e.acts|
      && v.tasks == w.tasks && v.pending == w.pending && v.paused == w.paused && v.overtaken == w.overtaken
      && v.nextTask == w.nextTask && v.origins == w.origins && w.now <= v.now && (w.paused ==> v.now == w.now)
  {
    hide Inv, Potential, Outside;
    BeginKeeps(w, id, all, g);
    OutsideKeeps(BeginPoll(w, all[id].sched), e, all, id, g);
  }

  /* ---- A poll that suspends ---- */

  lemma SuspendSched(ss: seq<Schedule>, toks: multiset<nat>, all: Population, cur: int)
    requires SchedInv(ss, toks, all, cur) && cur >= 0 && cur in all
    ensures ss[all[cur].sched].state.Running?
    ensures var x := ss[all[cur].sched];
      SchedInv(ss[all[cur].sched := x.(state := Finished(x.state, false))],
               if FinishEnqueues(x.state, false) then toks + multiset{x.id} else toks, all, NOBODY)
  {}

  lemma TokensFinish(w: World, s: nat)
    requires s < |w.schedules| && w.schedules[s].state.Running?
    ensures var x := w.schedules[s];
      Tokens(FinishPoll(w, s, false)) == if FinishEnqueues(x.state, false) then Tokens(w) + multiset{x.id}
          else Tokens(w)
  {}

  lemma SuspendArm(ss: seq<Schedule>, js: Cells, timers: Registrations, toks: multiset<nat>, all: Population, cur: int)
    requires SchedInv(ss, toks, all, cur) && cur >= 0 && cur in all
    requires ArmInv(ss, js, timers, all, cur, {})
    requires Armed(js, timers, all[cur]) || ss[all[cur].sched].state == Running(true)
    ensures var x := ss[all[cur].sched];
      ArmInv(ss[all[cur].sched := x.(state := Finished(x.state, false))], js, timers, all, NOBODY, {})
  {
    var x := ss[all[cur].sched];
    var ss1 := ss[all[cur].sched := x.(state := Finished(x.state, false))];
    forall id | id in all && all[id].sched < |ss1| && ss1[all[id].sched].state.Idle?
      ensures Armed(js, timers, all[id])
    {
      if id != cur {
        assert ss[all[id].sched].id == id;
        assert ss[all[id].sched].state.Idle?;
      }
    }
  }

  lemma SuspendKeeps(w: World, all: Population, cur: int, g: Ghost)
    requires Inv(w, all, cur, g, {}) && cur >= 0 && cur in all
    requires all[cur].sched < |w.schedules|
    requires Armed(w.joins, w.timers, all[cur]) || w.schedules[all[cur].sched].state == Running(true)
    ensures Inv(FinishPoll(w, all[cur].sched, false), all, NOBODY, g, {})
    ensures Potential(FinishPoll(w, all[cur].sched, false), all, NOBODY) == Potential(w, all, cur)
  {
    hide OpenInv, FlightInv, WaiterInv, JoinInv, KeptInv, TimerInv, TimeInv, OriginInv, IdInv, Load, SchedInv, ArmInv,
        Armed, Tokens;
    SuspendSched(w.schedules, Tokens(w), all, cur);
    TokensFinish(w, all[cur].sched);
    SuspendArm(w.schedules, w.joins, w.timers, Tokens(w), all, cur);
    ReschedTimer(w.timers, w.nextTimer, w.now, w.schedules, all, all[cur].sched,
        Finished(w.schedules[all[cur].sched].state, false));
    WakeWaiters(w.joins, w.schedules, all, all[cur].sched, Finished(w.schedules[all[cur].sched].state, false));
  }

  /* ---- A poll that resolves ---- */

  // Dropping the handles of the polled task takes no other task's waker away.
  lemma DetachKeeps(w: World, all: Population, cur: int, g: Ghost, f: Future)
    requires Inside(w, all, cur, g, f)
    ensures Inside(w.(joins := Detached(w.joins, f.handles)), all, cur, g, f)
    ensures Potential(w.(joins := Detached(w.joins, f.handles)), all, cur) == Potential(w, all, cur)
    ensures NotWaiting(Detached(w.joins, f.handles), w.schedules, cur)
  {
    hide SchedInv, OpenInv, FlightInv, WaiterInv, JoinInv, KeptInv, TimerInv, ArmInv, TimeInv, OriginInv, IdInv, Load,
        Tokens, Detached;
    TokensSame(w, w.(joins := Detached(w.joins, f.handles)));
    DetachJoin(w.joins, all, g.hist, f.handles);
    DetachKept(w.joins, g.hist, g.kept, f.handles);
    UnsentIsToken(w);
    DetachFlight(w.schedules, Tokens(w), w.unsent, w.joins, all, g.hist, cur);
    DetachWaiters(w.joins, w.schedules, Tokens(w), all, cur);
    DetachTime(Exact(w, g), w.now, w.joins, all, g.hist, g.rootFin, f.handles);
    DetachArm(w.schedules, Tokens(w), w.joins, w.timers, all, g.hist, cur);
    DetachCost(w, all, cur, f.handles);
  }

  // No cell holds a waker of the task.
  ghost predicate NotWaiting(js: Cells, ss: seq<Schedule>, cur: int) {
    forall c | 0 <= c < |js| && js[c].Pending? && js[c].waker.Some? :: js[c].waker.value < |ss| ==>
        ss[js[c].waker.value].id != cur
  }

  lemma DetachFlight(ss: seq<Schedule>, toks: multiset<nat>, unsent: multiset<nat>, js: Cells, all: Population,
        hist: History, cur: int)
    requires FlightInv(unsent, js, all) && SchedInv(ss, toks, all, cur) && unsent <= toks && JoinInv(js, all, hist)
        && cur >= 0 && cur in all
    ensures FlightInv(unsent, Detached(js, all[cur].future.handles), all)
  {
    var js1 := Detached(js, all[cur].future.handles);
    assert toks[cur] == 0;
    forall id | id in unsent && id in all ensures Afloat(js1, all[id]) {
      assert Afloat(js, all[id]);
      if all[id].future.stage.Run? {
        HandlesApart(js, all, hist, ss, toks, cur, id, all[id].future.stage.p.k);
      }
    }
  }

  lemma DetachWaiters(js: Cells, ss: seq<Schedule>, toks: multiset<nat>, all: Population, cur: int)
    requires WaiterInv(js, ss, all) && SchedInv(ss, toks, all, cur) && cur >= 0 && cur in all
    ensures WaiterInv(Detached(js, all[cur].future.handles), ss, all)
    ensures NotWaiting(Detached(js, all[cur].future.handles), ss, cur)
  {
    var js1 := Detached(js, all[cur].future.handles);
    forall c | 0 <= c < |js1| && js1[c].Pending? && js1[c].waker.Some?
      ensures Awaited(js1, ss, all, c) && ss[js1[c].waker.value].id != cur
    {
      assert Awaited(js, ss, all, c);
    }
  }

  lemma DetachCost(w: World, all: Population, cur: int, hs: seq<Option<nat>>)
    ensures Potential(w.(joins := Detached(w.joins, hs)), all, cur) == Potential(w, all, cur)
  {}

  lemma DetachKept(js: Cells, hist: History, kept: set<nat>, hs: seq<Option<nat>>)
    requires KeptInv(js, hist, kept)
    ensures KeptInv(Detached(js, hs), hist, kept)
  {}

  lemma DetachTime(exact: bool, now: int, js: Cells, all: Population, hist: History, rootFin: Done,
        hs: seq<Option<nat>>)
    requires TimeInv(exact, now, js, all, hist, rootFin)
    ensures TimeInv(exact, now, Detached(js, hs), all, hist, rootFin)
  {}

  lemma DetachArm(ss: seq<Schedule>, toks: multiset<nat>, js: Cells, timers: Registrations, all: Population,
        hist: History, cur: int)
    requires ArmInv(ss, js, timers, all, cur, {}) && JoinInv(js, all, hist) && SchedInv(ss, toks, all, cur) && cur >= 0
        && cur in all
    ensures ArmInv(ss, Detached(js, all[cur].future.handles), timers, all, cur, {})
  {
    forall id | id in all && id != cur && all[id].sched < |ss| && ss[all[id].sched].state.Idle?
      ensures Armed(Detached(js, all[cur].future.handles), timers, all[id])
    {
      assert Armed(js, timers, all[id]);
      if all[id].future.stage.Run? {
        HandlesApart(js, all, hist, ss, toks, cur, id, all[id].future.stage.p.k);
      }
    }
  }

  lemma DetachJoin(js: Cells, all: Population, hist: History, hs: seq<Option<nat>>)
    requires JoinInv(js, all, hist)
    ensures JoinInv(Detached(js, hs), all, hist)
  {
    forall id, k {:trigger HandleOk(Detached(js, hs), hist, all[id], k)} | id in all
        && 0 <= k < |all[id].future.handles|
      ensures HandleOk(Detached(js, hs), hist, all[id], k)
    {
      assert HandleOk(js, hist, all[id], k);
    }
  }

  // The join cells once `t` has delivered its result, if it has a cell.
  function Delivered(js: Cells, t: LocalTask, o: Outcome): Cells {
    if t.out.Some? && t.out.value < |js| then js[t.out.value := Ready(ResultOf(o))] else js
  }

  // Whoever waited on that cell.
  function WaiterOf(js: Cells, t: LocalTask): Option<nat> {
    if t.out.Some? && t.out.value < |js| && js[t.out.value].Pending? then js[t.out.value].waker else None
  }

  function OwedTo(waiter: Option<nat>): set<nat> {
    match waiter
    case None => {}
    case Some(s) => {s}
  }

  lemma RetireSched(ss: seq<Schedule>, toks: multiset<nat>, all: Population, cur: int, st: State)
    requires SchedInv(ss, toks, all, cur) && cur >= 0 && cur in all && (st.Complete? || st.Running?)
    ensures SchedInv(ss[all[cur].sched := ss[all[cur].sched].(state := st)], toks, all - {cur as nat}, NOBODY)
  {}

  // A task that is being polled has nothing in flight.
  lemma RetireOpen(w: World, all: Population, cur: int, open: set<nat>)
    requires SchedInv(w.schedules, Tokens(w), all, cur) && OpenInv(w.unsent, all, open) && cur >= 0 && cur in all
    ensures OpenInv(w.unsent, all - {cur as nat}, open)
  {
    assert Tokens(w)[cur] == 0;
  }

  lemma KeptDelivered(js: Cells, hist: History, kept: set<nat>, t: LocalTask, o: Outcome)
    requires KeptInv(js, hist, kept)
    ensures KeptInv(Delivered(js, t, o), hist, kept)
  {}

  lemma RetireFlight(ss: seq<Schedule>, toks: multiset<nat>, unsent: multiset<nat>, js: Cells, all: Population,
        cur: int, o: Outcome)
    requires FlightInv(unsent, js, all) && SchedInv(ss, toks, all, cur) && unsent <= toks && cur >= 0 && cur in all
    ensures FlightInv(unsent, Delivered(js, all[cur], o), all - {cur as nat})
  {
    forall id | id in unsent && id in all && id != cur ensures Afloat(Delivered(js, all[cur], o), all[id]) {
      assert Afloat(js, all[id]);
    }
  }

  lemma RetireWaiters(js: Cells, ss: seq<Schedule>, all: Population, cur: int, o: Outcome, st: State)
    requires WaiterInv(js, ss, all) && NotWaiting(js, ss, cur) && cur >= 0 && cur in all && all[cur].sched < |ss|
    ensures WaiterInv(Delivered(js, all[cur], o), ss[all[cur].sched := ss[all[cur].sched].(state := st)],
        all - {cur as nat})
  {
    var js1, ss1 := Delivered(js, all[cur], o), ss[all[cur].sched := ss[all[cur].sched].(state := st)];
    forall c | 0 <= c < |js1| && js1[c].Pending?
        && js1[c].waker.Some? ensures Awaited(js1, ss1, all - {cur as nat}, c) {
      assert Awaited(js, ss, all, c);
    }
  }

  lemma RetireJoin(js: Cells, all: Population, hist: History, cur: int, o: Outcome)
    requires JoinInv(js, all, hist) && cur >= 0 && cur in all
    ensures JoinInv(Delivered(js, all[cur], o), all - {cur as nat}, hist)
  {
    var all1, js1 := all - {cur as nat}, Delivered(js, all[cur], o);
    forall id, k {:trigger HandleOk(js1, hist, all1[id], k)} | id in all1 && 0 <= k < |all1[id].future.handles|
      ensures HandleOk(js1, hist, all1[id], k)
    {
      assert HandleOk(js, hist, all[id], k);
    }
  }

  lemma RetireTimer(timers: Registrations, nextTimer: nat, now: int, ss: seq<Schedule>, all: Population, cur: int,
        st: State)
    requires TimerInv(timers, nextTimer, now, ss, all) && cur >= 0 && cur in all && !all[cur].future.stage.Sleeping?
    requires all[cur].sched < |ss|
    ensures TimerInv(timers, nextTimer, now, ss[all[cur].sched := ss[all[cur].sched].(state := st)], all - {cur as nat})
  {
    var ss1 := ss[all[cur].sched := ss[all[cur].sched].(state := st)];
    forall r | r in timers ensures Owned(timers, r, ss1, all - {cur as nat}) {
      assert Owned(timers, r, ss, all);
    }
  }

  lemma RetireArm(ss: seq<Schedule>, js: Cells, timers: Registrations, toks: multiset<nat>, all: Population,
        cur: int, o: Outcome, st: State)
    requires ArmInv(ss, js, timers, all, cur, {}) && SchedInv(ss, toks, all, cur) && cur >= 0 && cur in all
    ensures ArmInv(ss[all[cur].sched := ss[all[cur].sched].(state := st)], Delivered(js, all[cur], o), timers,
                   all - {cur as nat}, NOBODY, OwedTo(WaiterOf(js, all[cur])))
  {
    var ss1, js1 := ss[all[cur].sched := ss[all[cur].sched].(state := st)], Delivered(js, all[cur], o);
    forall id | id in all && id != cur && ss1[all[id].sched].state.Idle?
      ensures all[id].sched in OwedTo(WaiterOf(js, all[cur])) || Armed(js1, timers, all[id])
    {
      assert ss[all[id].sched].id == id;
      assert Armed(js, timers, all[id]);
    }
  }

  lemma RetireTime(exact: bool, now: int, js: Cells, all: Population, hist: History, rootFin: Done, cur: int,
        o: Outcome)
    requires TimeInv(exact, now, js, all, hist, rootFin) && cur >= 0 && cur in all
    requires Predict(all[cur].future, now, hist) == Done(now, o)
    ensures TimeInv(exact, now, Delivered(js, all[cur], o), all - {cur as nat}, hist, rootFin)
    ensures Agrees(exact, FinOf(all[cur], hist, rootFin), Done(now, o))
  {}

  lemma RetireIds(w: World, all: Population, cur: int, w1: World, st: State, reserve: nat)
    requires IdInv(w.nextTask, w.nextTimer, all, reserve) && cur >= 0 && cur in all && all[cur].sched < |w.schedules|
    requires w1.nextTask == w.nextTask && w1.nextTimer == w.nextTimer && w1.timers == w.timers && w1.ready == w.ready
        && w1.unsent == w.unsent
    ensures IdInv(w1.nextTask, w1.nextTimer, all - {cur as nat}, reserve)
    ensures Potential(w1, all - {cur as nat}, NOBODY) + 4 <= Potential(w, all, cur)
  {
    LoadRemove(all, cur, w.nextTask);
  }

  // The task leaves the population, and only a wake is still owed.
  lemma RetireKeeps(w: World, all: Population, cur: int, g: Ghost, o: Outcome, st: State) returns (w1: World)
    requires Inv(w, all, cur, g, {}) && cur >= 0 && cur in all && !all[cur].future.stage.Sleeping?
    requires all[cur].sched < |w.schedules| && (st.Complete? || st.Running?)
    requires Predict(all[cur].future, w.now, g.hist) == Done(w.now, o) && NotWaiting(w.joins, w.schedules, cur)
    ensures w1 == w.(joins := Delivered(w.joins, all[cur], o),
                     schedules := w.schedules[all[cur].sched := w.schedules[all[cur].sched].(state := st)])
    ensures Inv(w1, all - {cur as nat}, NOBODY, g, OwedTo(WaiterOf(w.joins, all[cur])))
    ensures Potential(w1, all - {cur as nat}, NOBODY) + 4 <= Potential(w, all, cur)
    ensures Agrees(Exact(w, g), FinOf(all[cur], g.hist, g.rootFin), Done(w.now, o))
  {
    hide SchedInv, OpenInv, FlightInv, WaiterInv, JoinInv, KeptInv, TimerInv, ArmInv, TimeInv, OriginInv, IdInv,
        Predict, Load, Potential;
    w1 := w.(joins := Delivered(w.joins, all[cur], o),
             schedules := w.schedules[all[cur].sched := w.schedules[all[cur].sched].(state := st)]);
    RetireSched(w.schedules, Tokens(w), all, cur, st);
    RetireOpen(w, all, cur, g.open);
    RetireJoin(w.joins, all, g.hist, cur, o);
    KeptDelivered(w.joins, g.hist, g.kept, all[cur], o);
    RetireFlight(w.schedules, Tokens(w), w.unsent, w.joins, all, cur, o);
    RetireWaiters(w.joins, w.schedules, all, cur, o, st);
    RetireTimer(w.timers, w.nextTimer, w.now, w.schedules, all, cur, st);
    RetireArm(w.schedules, w.joins, w.timers, Tokens(w), all, cur, o, st);
    RetireTime(Exact(w, g), w.now, w.joins, all, g.hist, g.rootFin, cur, o);
    RetireIds(w, all, cur, w1, st, g.reserve);
  }

  lemma WaiterKeeps(w: World, waiter: Option<nat>, all: Population, g: Ghost)
    requires Inv(w, all, NOBODY, g, OwedTo(waiter))
    ensures Inv(WakeWaiter(w, waiter), all, NOBODY, g, {})
    ensures Potential(WakeWaiter(w, waiter), all, NOBODY) <= Potential(w, all, NOBODY) + 1
  {
    hide Inv, Potential;
    if waiter.Some? {
      WakeKeeps(w, waiter.value, all, NOBODY, g, {waiter.value});
      assert {waiter.value} - {waiter.value} == {};
    }
  }

  lemma UpdatesCommute<T>(xs: seq<T>, i: nat, j: nat, x: T, y: T)
    requires i < |xs| && j < |xs| && i != j
    ensures xs[i := x][j := y] == xs[j := y][i := x]
  {}

  // Waking the waiter before or after the task's own schedule completes is the same.
  lemma FinishCommutes(w: World, waiter: Option<nat>, s: nat)
    requires s < |w.schedules| && w.schedules[s].state.Running?
    ensures FinishPoll(WakeWaiter(w, waiter), s, true)
         == WakeWaiter(w.(schedules := w.schedules[s := w.schedules[s].(state := Complete)]), waiter)
  {
    if waiter.Some? && waiter.value < |w.schedules| {
      WakeCommutes(w, waiter.value, s);
    }
  }

  lemma WakeCommutes(w: World, x: nat, s: nat)
    requires s < |w.schedules| && w.schedules[s].state.Running? && x < |w.schedules|
    ensures FinishPoll(WakeSchedule(w, x), s, true)
         == WakeSchedule(w.(schedules := w.schedules[s := w.schedules[s].(state := Complete)]), x)
  {
    if x == s {
      assert w.schedules[s := w.schedules[s].(state := Running(true))][s := w.schedules[s].(state := Complete)]
          == w.schedules[s := w.schedules[s].(state := Complete)];
      assert w.schedules[s := w.schedules[s].(state := Complete)][s := w.schedules[s].(state := Complete)]
          == w.schedules[s := w.schedules[s].(state := Complete)];
    } else {
      UpdatesCommute(w.schedules, x, s, w.schedules[x].(state := Woken(w.schedules[x].state)),
          w.schedules[s].(state := Complete));
    }
  }

  /* ---- Polling a task, polling the root ---- */

  lemma {:induction false} AdmittedUpdate(tasks: map<nat, LocalTask>, pending: seq<LocalTask>, id: nat, t: LocalTask)
    requires forall i | 0 <= i < |pending| :: pending[i].id != id
    ensures Admitted(tasks[id := t], pending) == Admitted(tasks, pending)[id := t]
    decreases |pending|
  {
    if pending != [] {
      var p := pending[0];
      assert tasks[id := t][p.id := p] == tasks[p.id := p][id := t];
      AdmittedUpdate(tasks[p.id := p], pending[1..], id, t);
    }
  }

  lemma {:induction false} AdmittedRemove(tasks: map<nat, LocalTask>, pending: seq<LocalTask>, id: nat)
    requires forall i | 0 <= i < |pending| :: pending[i].id != id
    ensures Admitted(tasks - {id}, pending) == Admitted(tasks, pending) - {id}
    decreases |pending|
  {
    if pending != [] {
      var p := pending[0];
      assert (tasks - {id})[p.id := p] == tasks[p.id := p] - {id};
      AdmittedRemove(tasks[p.id := p], pending[1..], id);
    }
  }

  // What the end of a poll leaves alone.
  ghost predicate Onwards(w: World, v: World) {
    v.paused == w.paused && v.overtaken == w.overtaken && v.now == w.now && v.nextTask == w.nextTask
        && v.origins == w.origins
  }

  // A resolved poll, seen as a whole: the result delivered, the schedule complete, the waiter woken.
  lemma ResolveKeeps(w: World, all: Population, cur: int, g: Ghost, f: Future, o: Outcome)
    requires Inside(w, all, cur, g, f) && !f.stage.Sleeping?
    requires Predict(f, w.now, g.hist) == Done(w.now, o)
    requires cur != ROOT || o.Value?
    ensures all[cur].sched < |w.schedules|
    ensures var v := FinishPoll(Resolve(w, all[cur], f, o), all[cur].sched, true);
      && Inv(v, all - {cur as nat}, NOBODY, g, {})
      && Potential(v, all - {cur as nat}, NOBODY) < Potential(w, all, cur)
      && v.tasks == w.tasks && v.pending == w.pending && Onwards(w, v)
    ensures Agrees(Exact(w, g), FinOf(all[cur], g.hist, g.rootFin), Done(w.now, o))
    ensures cur != ROOT ==>
      var js := FinishPoll(Resolve(w, all[cur], f, o), all[cur].sched, true).joins;
      all[cur].out.Some? && all[cur].out.value < |js| && js[all[cur].out.value] == match o
        case Value(v) => Ready(Ok(v))
        case Panicked => Ready(Err(JoinError.Panic))
  {
    hide SchedInv, OpenInv, FlightInv, WaiterInv, JoinInv, KeptInv, TimerInv, ArmInv, TimeInv, OriginInv, IdInv,
        Predict, Load, Potential, Detached, FinishPoll;
    IdFacts(w, all, cur, g.reserve);
    DetachKeeps(w, all, cur, g, f);
    var w1 := w.(joins := Detached(w.joins, f.handles));
    OutFacts(w1.joins, all, g.hist, cur);
    var waiter := WaiterOf(w1.joins, all[cur]);
    var v := RetireKeeps(w1, all, cur, g, o, Complete);
    FinishCommutes(w1.(joins := Delivered(w1.joins, all[cur], o)), waiter, all[cur].sched);
    WaiterKeeps(v, waiter, all - {cur as nat}, g);
    assert Resolve(w, all[cur], f, o) == WakeWaiter(w1.(joins := Delivered(w1.joins, all[cur], o)), waiter);
  }

  lemma OutFacts(js: Cells, all: Population, hist: History, cur: int)
    requires JoinInv(js, all, hist) && cur >= 0 && cur in all
    ensures cur == ROOT ==> all[cur].out == None
    ensures cur != ROOT ==> all[cur].out.Some? && all[cur].out.value < |js| && js[all[cur].out.value].Pending?
  {}

  lemma PotentialFrame(w: World, w1: World, all: Population, cur: int)
    requires w1.timers == w.timers && w1.ready == w.ready && w1.unsent == w.unsent && w1.schedules == w.schedules
        && w1.nextTask == w.nextTask
    ensures Potential(w1, all, cur) == Potential(w, all, cur)
  {}

  lemma FinishFrame(w: World, s: nat, ready: bool)
    ensures var v := FinishPoll(w, s, ready); v.tasks == w.tasks && v.pending == w.pending && Onwards(w, v)
  {}

  lemma ResolveSame(w: World, t: LocalTask, f: Future, o: Outcome)
    ensures Resolve(w, t.(future := f), f, o) == Resolve(w, t, f, o)
  {}

  // The task stays: its future is stored back and its schedule told.
  lemma SuspendTask(w1: World, all: Population, id: nat, g: Ghost, r: PollResult, root: LocalTask, all1: Population,
        g1: Ghost, t: LocalTask)
    requires root.id == ROOT && id != ROOT && PollDone(w1, all, id, g, r, root, all1, g1) && r.res.Suspended?
        && t == all[id]
    ensures var v := FinishPoll(r.w.(tasks := r.w.tasks[id := t.(future := r.f)]), t.sched, false);
      && Good(Conf(v, root), g1) && Whole(v, root) == all1
      && Potential(v, all1, NOBODY) == Potential(r.w, all1, id) && Onwards(r.w, v)
  {
    hide SchedInv, OpenInv, FlightInv, WaiterInv, JoinInv, KeptInv, TimerInv, ArmInv, TimeInv, OriginInv, IdInv,
        Predict, Load, Potential, Armed, FinishPoll;
    IdFacts(r.w, all1, id, g1.reserve);
    var w2 := r.w.(tasks := r.w.tasks[id := t.(future := r.f)]);
    SuspendKeeps(w2, all1, id, g1);
    PotentialFrame(r.w, w2, all1, id);
    AdmittedUpdate(r.w.tasks, r.w.pending, id, all1[id]);
    FinishFrame(w2, t.sched, false);
    assert Whole(FinishPoll(w2, t.sched, false), root) == all1;
  }

  // The task goes: its result is published and it leaves the table.
  lemma ResolveTask(w1: World, all: Population, id: nat, g: Ghost, r: PollResult, root: LocalTask, all1: Population,
        g1: Ghost, t: LocalTask)
    requires root.id == ROOT && id != ROOT && PollDone(w1, all, id, g, r, root, all1, g1) && r.res.Resolved?
        && t == all[id]
    ensures var u := FinishPoll(Resolve(r.w, t, r.f, r.res.out), t.sched, true);
      var v := u.(tasks := u.tasks - {id});
      && Good(Conf(v, root), g1) && Whole(v, root) == all1 - {id}
      && Potential(v, all1 - {id}, NOBODY) < Potential(r.w, all1, id) && Onwards(r.w, v)
  {
    hide SchedInv, OpenInv, FlightInv, WaiterInv, JoinInv, KeptInv, TimerInv, ArmInv, TimeInv, OriginInv, IdInv,
        Predict, Load, Potential, Armed, FinishPoll, Resolve;
    ResolveKeeps(r.w, all1, id, g1, r.f, r.res.out);
    ResolveSame(r.w, t, r.f, r.res.out);
    AdmittedRemove(r.w.tasks, r.w.pending, id);
    var u := FinishPoll(Resolve(r.w, t, r.f, r.res.out), t.sched, true);
    var v := u.(tasks := u.tasks - {id});
    PotentialFrame(u, v, all1 - {id}, NOBODY);
    assert Whole(v, root) == all1 - {id};
  }

  lemma PollTaskKeeps(w: World, id: nat, e: Event, root: LocalTask, g: Ghost) returns (g1: Ghost)
    requires root.id == ROOT && id != ROOT && w.pending == [] && ROOT !in w.tasks
    requires Inv(Held(w, id), Whole(w, root), NOBODY, g, {})
    ensures id in w.tasks
    ensures Good(Conf(PollTask(w, id, e), root), g1)
    ensures Potential(PollTask(w, id, e), Whole(PollTask(w, id, e), root), NOBODY) < Potential(Held(w, id),
        Whole(w, root), NOBODY) + |e.acts|
    ensures g1 == g.(hist := g1.hist, open := Opened(g.open, e.acts))
    ensures PollFrame(w, PollTask(w, id, e))
    ensures Grown(w, Whole(w, root), PollTask(w, id, e), Whole(PollTask(w, id, e), root))
  {
    hide SchedInv, OpenInv, FlightInv, WaiterInv, JoinInv, KeptInv, TimerInv, ArmInv, TimeInv, OriginInv, IdInv,
        Predict, Load, Potential, Armed, FinishPoll, Poll, Resolve, Good, Outside, Inside, Linked;
    var all := Whole(w, root);
    BegunKeeps(w, id, e, all, g, root);
    var t := w.tasks[id];
    var w1 := Outside(BeginPoll(w, t.sched), e);
    var all1;
    all1, g1 := PollKeeps(w1, all, id, g.(open := Opened(g.open, e.acts)), t.future, root);
    var r := Poll(w1, t.sched, t.future);
    match r.res
    case Suspended => SuspendTask(w1, all, id, g.(open := Opened(g.open, e.acts)), r, root, all1, g1, t);
    case Resolved(_) => ResolveTask(w1, all, id, g.(open := Opened(g.open, e.acts)), r, root, all1, g1, t);
  }

  // A poll moves a paused clock neither on nor past anything.
  ghost predicate PollFrame(w: World, v: World) {
    v.paused == w.paused && v.overtaken == w.overtaken && w.now <= v.now && (w.paused ==> v.now == w.now)
  }

  // The root leaves in one of two ways: it returns, or it unwinds and its schedule stays running.
  lemma PollRootKeeps(w: World, env: seq<Event>, root: LocalTask, g: Ghost) returns (g1: Ghost)
    requires root.id == ROOT && w.pending == [] && ROOT !in w.tasks
    requires Inv(Held(w, ROOT), Whole(w, root), NOBODY, g, {})
    ensures g1 == g.(hist := g1.hist, open := Opened(g.open, Head(env).acts))
    ensures !PollRoot(w, env, root).Stuck?
    ensures match PollRoot(w, env, root)
      case Continue(c, rest) =>
        && Good(c, g1) && rest == Tail(env) && PollFrame(w, c.w) && Grown(w, Whole(w, root), c.w, Whole(c.w, c.root))
        && Potential(c.w, Whole(c.w, c.root), NOBODY) < Potential(Held(w, ROOT), Whole(w, root),
            NOBODY) + |Head(env).acts|
      case Exit(v, o, rest) =>
        && Quiet(v, g1) && rest == Tail(env) && PollFrame(w, v)
            && Grown(w, Whole(w, root), v, Admitted(v.tasks, v.pending))
        && Agrees(Exact(w, g), g.rootFin, Done(v.now, o))
      case Stuck(_) => true
  {
    hide SchedInv, OpenInv, FlightInv, WaiterInv, JoinInv, KeptInv, TimerInv, ArmInv, TimeInv, OriginInv, IdInv,
        Predict, Load, Potential, Armed, FinishPoll, Poll, Detached, Outside;
    var all := Whole(w, root);
    var e := Head(env);
    BegunKeeps(w, ROOT, e, all, g, root);
    var w1 := Outside(BeginPoll(w, root.sched), e);
    var all1;
    all1, g1 := PollKeeps(w1, all, ROOT, g.(open := Opened(g.open, e.acts)), root.future, root);
    var r := Poll(w1, root.sched, root.future);
    IdFacts(r.w, all1, ROOT, g1.reserve);
    OutFacts(r.w.joins, all1, g1.hist, ROOT);
    assert all1[ROOT] == root.(future := r.f);
    assert all1 - {ROOT} == Admitted(r.w.tasks, r.w.pending);
    match r.res
    case Suspended =>
      SuspendKeeps(r.w, all1, ROOT, g1);
      FinishFrame(r.w, root.sched, false);
      assert Whole(FinishPoll(r.w, root.sched, false), root.(future := r.f)) == all1;
    case Resolved(Value(v)) =>
      ResolveKeeps(r.w, all1, ROOT, g1, r.f, Value(v));
      ResolveSame(r.w, root, r.f, Value(v));
    case Resolved(Panicked) =>
      DetachKeeps(r.w, all1, ROOT, g1, r.f);
      var w2 := r.w.(joins := Detached(r.w.joins, r.f.handles));
      var v := RetireKeeps(w2, all1, ROOT, g1, Panicked, w2.schedules[root.sched].state);
      assert v == w2;
  }
}
