/** What holds of the executor between any two instructions of any future.

    `all` is the population: every live incomplete task, the root included. `cur` is the task
    being polled, or NOBODY. The history `hist` records, for every join cell, which task
    publishes to it, who got its handle, and what the spawned program means in virtual time. */
module Invariant {
  import opened Wrappers
  import opened TimerSpec
  import opened ScheduleState
  import opened JoinSpec
  import opened Programs
  import opened ExecutorSpec

  type Population = map<nat, LocalTask>

  datatype Birth = Birth(owner: nat, parent: int, slot: nat, fin: Done)

  // The handle is held by code outside any task.
  const OUTSIDE: int := -1

  type History = seq<Birth>

  const NOBODY: int := -1

  /* ---- Scheduling ---- */

  // One token, in the channel or in flight, for each queued task, none for any other id.
  ghost predicate SchedInv(ss: seq<Schedule>, toks: multiset<nat>, all: Population, cur: int) {
    && (forall id | id in all :: all[id].id == id && all[id].sched < |ss| && ss[all[id].sched].id == id)
    && (forall s | 0 <= s < |ss| && (ss[s].state.Idle? || ss[s].state.Queued?) ::
          ss[s].id in all && all[ss[s].id].sched == s)
    && (forall id | id in all ::
          !ss[all[id].sched].state.Complete? && (ss[all[id].sched].state.Running? <==> id == cur))
    && (forall id: nat :: toks[id] == if id in all && ss[all[id].sched].state.Queued? then 1 else 0)
  }

  // Whatever is in flight belongs to a live task, and some thread's lock is still open for it.
  ghost predicate OpenInv(unsent: multiset<nat>, all: Population, open: set<nat>) {
    forall id | id in unsent :: id in all && all[id].sched in open
  }

  // A task with a wake in flight was waiting when it was woken: asleep, parked, or at a join
  // whose cell still holds its waker or has been resolved since.
  ghost predicate FlightInv(unsent: multiset<nat>, js: Cells, all: Population) {
    forall id | id in unsent && id in all :: Afloat(js, all[id])
  }

  ghost predicate Afloat(js: Cells, t: LocalTask) {
    match t.future.stage
    case Sleeping(_, _, _) => true
    case Parked(_) => true
    case Yielded(_) => false
    case Run(p) =>
      && p.Join? && p.k < |t.future.handles| && t.future.handles[p.k].Some?
      && t.future.handles[p.k].value < |js|
      && (js[t.future.handles[p.k].value].Ready? || js[t.future.handles[p.k].value] == JoinState.Pending(Some(t.sched)))
  }

  /* ---- Join cells ---- */

  // A cell is unresolved exactly while the task that publishes to it is live; a handle that
  // is still held leads to a cell that nobody has consumed, and to no cell twice.
  ghost predicate JoinInv(js: Cells, all: Population, hist: History) {
    && |hist| == |js|
    && (forall id | id in all :: all[id].out.Some? <==> id != ROOT)
    && (forall id | id in all && id != ROOT ::
          all[id].out.value < |js| && js[all[id].out.value].Pending? && hist[all[id].out.value].owner == id)
    && (forall c | 0 <= c < |js| && js[c].Pending? :: hist[c].owner in all && all[hist[c].owner].out == Some(c))
    && (forall id, k | id in all && 0 <= k < |all[id].future.handles| :: HandleOk(js, hist, all[id], k))
  }

  ghost predicate HandleOk(js: Cells, hist: History, t: LocalTask, k: nat)
    requires |hist| == |js| && k < |t.future.handles|
  {
    t.future.handles[k].Some? ==>
      var c := t.future.handles[k].value;
      && c < |js| && !js[c].Consumed?
      && hist[c].parent == t.id && hist[c].slot == k
      && (t.out.Some? ==> t.out.value < c)
  }

  // A waker in an unresolved cell belongs to a live task that is at the join on that cell.
  ghost predicate WaiterInv(js: Cells, ss: seq<Schedule>, all: Population) {
    forall c | 0 <= c < |js| && js[c].Pending? && js[c].waker.Some? :: Awaited(js, ss, all, c)
  }

  ghost predicate Awaited(js: Cells, ss: seq<Schedule>, all: Population, c: nat)
    requires c < |js| && js[c].Pending? && js[c].waker.Some?
  {
    var s := js[c].waker.value;
    && s < |ss| && ss[s].id in all && all[ss[s].id].sched == s
    && var f := all[ss[s].id].future;
       f.stage.Run? && f.stage.p.Join? && f.stage.p.k < |f.handles| && f.handles[f.stage.p.k] == Some(c)
  }

  // The cells whose handles are held outside have not been consumed.
  ghost predicate KeptInv(js: Cells, hist: History, kept: set<nat>) {
    |hist| == |js| && forall c | c in kept :: c < |js| && !js[c].Consumed? && hist[c].parent == OUTSIDE
  }

  /* ---- Timers ---- */

  // A sleep's registration is live with the sleep's own deadline and waker, or its deadline
  // has passed; and every live registration belongs to a sleep of a live task.
  ghost predicate TimerInv(timers: Registrations, nextTimer: nat, now: int, ss: seq<Schedule>, all: Population) {
    && (forall id | id in all && all[id].future.stage.Sleeping? :: SleepOk(timers, nextTimer, now, all[id]))
    && (forall r | r in timers :: r < nextTimer && Owned(timers, r, ss, all))
  }

  ghost predicate SleepOk(timers: Registrations, nextTimer: nat, now: int, t: LocalTask)
    requires t.future.stage.Sleeping?
  {
    var st := t.future.stage;
    && st.reg < nextTimer
    && if st.reg in timers then timers[st.reg] == Registration(st.deadline, t.sched) else st.deadline <= now
  }

  ghost predicate Owned(timers: Registrations, r: nat, ss: seq<Schedule>, all: Population)
    requires r in timers
  {
    var s := timers[r].waker;
    && s < |ss| && ss[s].id in all && all[ss[s].id].sched == s
    && all[ss[s].id].future.stage.Sleeping? && all[ss[s].id].future.stage.reg == r
  }

  /* ---- Nobody is stranded ---- */

  // Somebody holds the task's waker and will use it.
  ghost predicate Armed(js: Cells, timers: Registrations, t: LocalTask) {
    match t.future.stage
    case Sleeping(deadline, reg, _) => reg in timers && timers[reg] == Registration(deadline, t.sched)
    case Run(p) =>
      && p.Join? && p.k < |t.future.handles| && t.future.handles[p.k].Some?
      && t.future.handles[p.k].value < |js|
      && js[t.future.handles[p.k].value] == JoinState.Pending(Some(t.sched))
    case Yielded(_) => false
    case Parked(_) => true
  }

  // `owed` holds the schedules whose wake has been taken out of a timer or a cell but not
  // been performed yet.
  ghost predicate ArmInv(ss: seq<Schedule>, js: Cells, timers: Registrations, all: Population, cur: int,
        owed: set<nat>) {
    forall id | id in all && id != cur && all[id].sched < |ss| && ss[all[id].sched].state.Idle? ::
      all[id].sched in owed || Armed(js, timers, all[id])
  }

  /* ---- Virtual time ---- */

  ghost function Fins(hs: seq<Option<nat>>, hist: History): (r: seq<Option<Done>>)
    ensures |r| == |hs|
    ensures forall k | 0 <= k < |hs| ::
      r[k] == if hs[k].Some? && hs[k].value < |hist| then Some(hist[hs[k].value].fin) else None
  {
    seq(|hs|, k requires 0 <= k < |hs| =>
      if hs[k].Some? && hs[k].value < |hist| then Some(hist[hs[k].value].fin) else None)
  }

  // The meaning of what is left of a future, seen from `now`.
  ghost function Predict(f: Future, now: int, hist: History): Done {
    var hs := Fins(f.handles, hist);
    match f.stage
    case Run(p) => Finish(p, now, f.acc, hs)
    case Sleeping(deadline, _, next) => Finish(next, Max(now, deadline), f.acc, hs)
    case Yielded(next) => Finish(next, now, f.acc, hs)
    case Parked(next) => Finish(next, now, f.acc, hs)
  }

  predicate Agrees(exact: bool, due: Done, actual: Done) {
    && due.out == actual.out
    && due.at <= actual.at
    && (exact ==> due.at == actual.at)
  }

  ghost function FinOf(t: LocalTask, hist: History, rootFin: Done): Done {
    if t.out.Some? && t.out.value < |hist| then hist[t.out.value].fin else rootFin
  }

  // Every live task is on course for the end its program promised when it was spawned, and
  // every finished one has delivered it.
  ghost predicate TimeInv(exact: bool, now: int, js: Cells, all: Population, hist: History, rootFin: Done) {
    && |hist| == |js|
    && (forall id | id in all :: Agrees(exact, FinOf(all[id], hist, rootFin), Predict(all[id].future, now, hist)))
    && (forall c | 0 <= c < |js| && !js[c].Pending? :: hist[c].fin.at <= now)
    && (forall c | 0 <= c < |js| && js[c].Ready? :: js[c].result == ResultOf(hist[c].fin.out))
  }

  // If `faithful`, the end that the history promises for a task is the one its program denoted
  // when it was spawned.
  ghost predicate OriginInv(origins: seq<Origin>, hist: History, faithful: bool) {
    && |origins| == |hist|
    && (faithful ==> forall c | 0 <= c < |hist| :: hist[c].fin == Finish(origins[c].p, origins[c].at, 0, []))
  }

  predicate StageNoPark(s: Stage) {
    match s
    case Run(p) => NoPark(p)
    case Sleeping(_, _, next) => NoPark(next)
    case Yielded(next) => NoPark(next)
    case Parked(_) => false
  }

  ghost predicate NobodyParks(all: Population) {
    forall id | id in all :: StageNoPark(all[id].future.stage)
  }

  /* ---- Work left ---- */

  // The work of all tasks with ids below `n`.
  ghost function Load(all: Population, n: nat): nat {
    if n == 0 then 0
    else Load(all, n - 1) + if n - 1 in all then StageWork(all[n - 1].future.stage) else 0
  }

  // The identifier counters cannot wrap around before all the work is done.
  ghost predicate IdInv(nextTask: nat, nextTimer: nat, all: Population, reserve: nat) {
    && 1 <= nextTask
    && (forall id | id in all :: id < nextTask)
    && nextTask + Load(all, nextTask) + reserve < U64
    && nextTimer + Load(all, nextTask) + reserve < U64
  }

  ghost function Potential(w: World, all: Population, cur: int): nat {
    4 * Load(all, w.nextTask) + 2 * |w.timers| + |w.ready| + |w.unsent| + Noted(w, all, cur)
  }

  // A wake noted during a poll becomes a token when the poll ends.
  ghost function Noted(w: World, all: Population, cur: int): nat {
    if cur >= 0 && cur in all && all[cur].sched < |w.schedules|
        && w.schedules[all[cur].sched].state == Running(true) then 1 else 0
  }

  /* ---- All together ---- */

  // What the invariant is relative to. `reserve` is work that has not been submitted yet, `kept`
  // the cells whose handles are held outside, `open` the schedules other threads may yet send.
  // The promised ends were fixed when the clock had overtaken `since` wakes; they are `faithful`
  // if each was fixed when its task was spawned.
  datatype Ghost = Ghost(hist: History, rootFin: Done, parkless: bool, reserve: nat, kept: set<nat>, open: set<nat>,
        since: nat, faithful: bool)

  // Promises are met exactly on a paused clock, as long as it has overtaken no wake since.
  ghost predicate Exact(w: World, g: Ghost) {
    w.paused && g.parkless && w.overtaken == g.since
  }

  ghost predicate Inv(w: World, all: Population, cur: int, g: Ghost, owed: set<nat>) {
    && SchedInv(w.schedules, Tokens(w), all, cur)
    && OpenInv(w.unsent, all, g.open)
    && FlightInv(w.unsent, w.joins, all)
    && JoinInv(w.joins, all, g.hist)
    && KeptInv(w.joins, g.hist, g.kept)
    && WaiterInv(w.joins, w.schedules, all)
    && TimerInv(w.timers, w.nextTimer, w.now, w.schedules, all)
    && ArmInv(w.schedules, w.joins, w.timers, all, cur, owed)
    && TimeInv(Exact(w, g), w.now, w.joins, all, g.hist, g.rootFin)
    && OriginInv(w.origins, g.hist, g.faithful)
    && IdInv(w.nextTask, w.nextTimer, all, g.reserve)
    && (g.parkless ==> NobodyParks(all))
    && g.since <= w.overtaken && !w.closed && !w.fault
  }

  /* ---- Load ---- */

  lemma {:induction false} LoadUpdate(all: Population, id: nat, t: LocalTask, n: nat)
    ensures Load(all[id := t], n) == Load(all, n) +
      if id < n then StageWork(t.future.stage) - (if id in all then StageWork(all[id].future.stage) else 0) else 0
  {
    if n > 0 {
      LoadUpdate(all, id, t, n - 1);
    }
  }

  lemma {:induction false} LoadRemove(all: Population, id: nat, n: nat)
    requires id in all && id < n
    ensures Load(all - {id}, n) == Load(all, n) - StageWork(all[id].future.stage)
  {
    if id == n - 1 {
      LoadSame(all, all - {id}, n - 1);
    } else {
      LoadRemove(all, id, n - 1);
    }
  }

  lemma {:induction false} LoadSame(all: Population, other: Population, n: nat)
    requires forall id | 0 <= id < n ::
      (id in all <==> id in other) && (id in all ==> all[id].future.stage == other[id].future.stage)
    ensures Load(all, n) == Load(other, n)
  {
    if n > 0 {
      LoadSame(all, other, n - 1);
    }
  }

  /* ---- Waking ---- */

  lemma WakeKeeps(w: World, s: nat, all: Population, cur: int, g: Ghost, owed: set<nat>)
    requires Inv(w, all, cur, g, owed)
    ensures Inv(WakeSchedule(w, s), all, cur, g, owed - {s})
    ensures Potential(WakeSchedule(w, s), all, cur) <= Potential(w, all, cur) + 1
    ensures s < |w.schedules| ==> WakeSchedule(w, s).schedules[s].state == Woken(w.schedules[s].state)
  {
    hide SchedInv, OpenInv, FlightInv, WaiterInv, JoinInv, KeptInv, TimerInv, ArmInv, TimeInv, OriginInv, IdInv, Load,
        Tokens;
    if s < |w.schedules| {
      WakeSched(w.schedules, Tokens(w), s, all, cur);
      TokensWake(w, s);
      WakeTimer(w.timers, w.nextTimer, w.now, w.schedules, all, s);
      WakeWaiters(w.joins, w.schedules, all, s, Woken(w.schedules[s].state));
    }
    WakeArm(w.schedules, Tokens(w), w.joins, w.timers, all, cur, owed, s);
  }

  lemma TokensSame(w: World, v: World)
    requires v.ready == w.ready && v.unsent == w.unsent
    ensures Tokens(v) == Tokens(w)
  {}

  lemma UnsentIsToken(w: World)
    ensures w.unsent <= Tokens(w)
  {}

  lemma TokensWake(w: World, s: nat)
    requires s < |w.schedules|
    ensures Tokens(WakeSchedule(w, s)) == if WakeEnqueues(w.schedules[s].state)
        then Tokens(w) + multiset{w.schedules[s].id} else Tokens(w)
  {}

  lemma WakeTimer(timers: Registrations, nextTimer: nat, now: int, ss: seq<Schedule>, all: Population, s: nat)
    requires TimerInv(timers, nextTimer, now, ss, all) && s < |ss|
    ensures TimerInv(timers, nextTimer, now, ss[s := ss[s].(state := Woken(ss[s].state))], all)
  {
    forall r | r in timers ensures Owned(timers, r, ss[s := ss[s].(state := Woken(ss[s].state))], all) {
      assert Owned(timers, r, ss, all);
    }
  }

  lemma WakeWaiters(js: Cells, ss: seq<Schedule>, all: Population, s: nat, st: State)
    requires WaiterInv(js, ss, all) && s < |ss|
    ensures WaiterInv(js, ss[s := ss[s].(state := st)], all)
  {
    forall c | 0 <= c < |js| && js[c].Pending?
        && js[c].waker.Some? ensures Awaited(js, ss[s := ss[s].(state := st)], all, c) {
      assert Awaited(js, ss, all, c);
    }
  }

  lemma WakeArm(ss: seq<Schedule>, toks: multiset<nat>, js: Cells, timers: Registrations, all: Population, cur: int,
        owed: set<nat>, s: nat)
    requires ArmInv(ss, js, timers, all, cur, owed) && SchedInv(ss, toks, all, cur)
    ensures ArmInv(if s < |ss| then ss[s := ss[s].(state := Woken(ss[s].state))] else ss, js, timers, all, cur,
        owed - {s})
  {}

  lemma WakeSched(ss: seq<Schedule>, toks: multiset<nat>, s: nat, all: Population, cur: int)
    requires SchedInv(ss, toks, all, cur) && s < |ss|
    ensures SchedInv(ss[s := ss[s].(state := Woken(ss[s].state))],
                     if WakeEnqueues(ss[s].state) then toks + multiset{ss[s].id} else toks, all, cur)
  {}

  lemma {:induction false} WakeAllKeeps(w: World, ws: seq<nat>, all: Population, cur: int, g: Ghost, owed: set<nat>)
    requires Inv(w, all, cur, g, owed)
    requires forall s | s in owed :: s in ws
    ensures Inv(WakeAll(w, ws), all, cur, g, {})
    ensures Potential(WakeAll(w, ws), all, cur) <= Potential(w, all, cur) + |ws|
    decreases |ws|
  {
    hide Inv, Potential;
    if ws == [] {
      assert owed == {};
    } else {
      WakeKeeps(w, ws[0], all, cur, g, owed);
      WakeAllKeeps(WakeSchedule(w, ws[0]), ws[1..], all, cur, g, owed - {ws[0]});
    }
  }

  /* ---- Other threads ---- */

  lemma TokensActed(w: World, a: Act)
    requires a.s < |w.schedules|
    ensures Tokens(Acted(w, a)) ==
      if a.Lock? && WakeEnqueues(w.schedules[a.s].state) then Tokens(w) + multiset{w.schedules[a.s].id} else Tokens(w)
  {
    MoveToken(w.ready, w.unsent, w.schedules[a.s].id);
  }

  lemma MoveToken(ready: seq<nat>, unsent: multiset<nat>, id: nat)
    ensures id in unsent ==> multiset(ready + [id]) + (unsent - multiset{id}) == multiset(ready) + unsent
  {}

  lemma LockOpen(ss: seq<Schedule>, toks: multiset<nat>, unsent: multiset<nat>, all: Population, cur: int,
        open: set<nat>, s: nat)
    requires SchedInv(ss, toks, all, cur) && OpenInv(unsent, all, open)
    ensures OpenInv(unsent, all, open + {s})
    ensures s < |ss| && ss[s].state.Idle? ==> OpenInv(unsent + multiset{ss[s].id}, all, open + {s})
  {}

  // A task has one send in flight at most, so that performing it closes the matter.
  lemma SendOpen(ss: seq<Schedule>, toks: multiset<nat>, unsent: multiset<nat>, all: Population, cur: int,
        open: set<nat>, s: nat)
    requires SchedInv(ss, toks, all, cur) && OpenInv(unsent, all, open) && unsent <= toks
    ensures s < |ss| && ss[s].state.Queued? && ss[s].id in unsent ==>
        OpenInv(unsent - multiset{ss[s].id}, all, open - {s})
    ensures !(s < |ss| && ss[s].state.Queued? && ss[s].id in unsent) ==> OpenInv(unsent, all, open - {s})
  {
    forall id | id in unsent
      ensures id in all && all[id].sched in open && ss[all[id].sched].state.Queued? && unsent[id] == 1
    {
      assert toks[id] >= unsent[id] >= 1;
    }
  }

  lemma ActOpen(w: World, a: Act, all: Population, cur: int, open: set<nat>)
    requires SchedInv(w.schedules, Tokens(w), all, cur) && OpenInv(w.unsent, all, open)
    ensures OpenInv(Acted(w, a).unsent, all, if a.Lock? then open + {a.s} else open - {a.s})
  {
    hide SchedInv, OpenInv, FlightInv, WaiterInv;
    match a
    case Lock(s) => LockOpen(w.schedules, Tokens(w), w.unsent, all, cur, open, s);
    case Send(s) => SendOpen(w.schedules, Tokens(w), w.unsent, all, cur, open, s);
  }

  lemma ActCost(w: World, a: Act, all: Population, cur: int)
    requires SchedInv(w.schedules, Tokens(w), all, cur)
    ensures Potential(Acted(w, a), all, cur) <= Potential(w, all, cur) + 1
  {
    if a.s < |w.schedules| {
      var id := w.schedules[a.s].id;
      if a.Send? && id in w.unsent {
        assert |w.unsent - multiset{id}| + 1 == |w.unsent|;
      }
    }
  }

  lemma LockAfloat(ss: seq<Schedule>, toks: multiset<nat>, unsent: multiset<nat>, js: Cells, timers: Registrations,
        all: Population, cur: int, s: nat)
    requires SchedInv(ss, toks, all, cur) && ArmInv(ss, js, timers, all, cur, {}) && FlightInv(unsent, js, all)
    requires s < |ss| && ss[s].state.Idle?
    ensures FlightInv(unsent + multiset{ss[s].id}, js, all)
  {
    assert all[ss[s].id].sched == s && Armed(js, timers, all[ss[s].id]);
  }

  lemma ActAfloat(w: World, a: Act, all: Population, cur: int, g: Ghost)
    requires Inv(w, all, cur, g, {})
    ensures FlightInv(Acted(w, a).unsent, w.joins, all)
  {
    hide SchedInv, OpenInv, JoinInv, KeptInv, WaiterInv, TimerInv, ArmInv, TimeInv, OriginInv, IdInv, Tokens;
    if a.Lock? && a.s < |w.schedules| && w.schedules[a.s].state.Idle? {
      LockAfloat(w.schedules, Tokens(w), w.unsent, w.joins, w.timers, all, cur, a.s);
    }
  }

  // A lock or a send by another thread keeps everything but the set of open sends.
  lemma ActKeeps(w: World, a: Act, all: Population, cur: int, g: Ghost)
    requires Inv(w, all, cur, g, {})
    ensures Inv(Acted(w, a), all, cur, g.(open := if a.Lock? then g.open + {a.s} else g.open - {a.s}), {})
    ensures Potential(Acted(w, a), all, cur) <= Potential(w, all, cur) + 1
  {
    hide SchedInv, OpenInv, FlightInv, WaiterInv, JoinInv, KeptInv, TimerInv, ArmInv, TimeInv, OriginInv, IdInv, Load,
        Tokens, Potential;
    ActOpen(w, a, all, cur, g.open);
    ActCost(w, a, all, cur);
    ActAfloat(w, a, all, cur, g);
    if a.s < |w.schedules| {
      TokensActed(w, a);
      if a.Lock? {
        WakeSched(w.schedules, Tokens(w), a.s, all, cur);
        WakeTimer(w.timers, w.nextTimer, w.now, w.schedules, all, a.s);
        WakeWaiters(w.joins, w.schedules, all, a.s, Woken(w.schedules[a.s].state));
        WakeArm(w.schedules, Tokens(w), w.joins, w.timers, all, cur, {}, a.s);
        assert {} - {a.s} == {};
      }
    }
  }

  lemma {:induction false} ActAllKeeps(w: World, acts: seq<Act>, all: Population, cur: int, g: Ghost)
    requires Inv(w, all, cur, g, {})
    ensures Inv(ActAll(w, acts), all, cur, g.(open := Opened(g.open, acts)), {})
    ensures Potential(ActAll(w, acts), all, cur) <= Potential(w, all, cur) + |acts|
    decreases |acts|
  {
    hide Inv, Potential, Acted;
    if acts != [] {
      ActKeeps(w, acts[0], all, cur, g);
      ActAllKeeps(Acted(w, acts[0]), acts[1..], all, cur,
          g.(open := if acts[0].Lock? then g.open + {acts[0].s} else g.open - {acts[0].s}));
    }
  }
}
