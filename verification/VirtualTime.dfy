/** Whole runs of `block_on`: they end, they raise no fault, and they return what the root program
    denotes, never before the end of its critical path; under a paused clock that overtakes no
    wake in flight, exactly then. */
module VirtualTime {
  import opened Wrappers
  import opened TimerSpec
  import opened ScheduleState
  import opened JoinSpec
  import opened Programs
  import opened TaskIdSpec
  import opened ExecutorSpec
  import opened Invariant
  import opened PollInvariant
  import opened TurnInvariant
  import opened WaitInvariant

  /* ---- A task joins the population ---- */

  lemma AddSched(ss: seq<Schedule>, toks: multiset<nat>, all: Population, t: LocalTask)
    requires SchedInv(ss, toks, all, NOBODY) && t.id !in all && t.sched == |ss|
    ensures SchedInv(ss + [Schedule(t.id, Idle)], toks, all[t.id := t], NOBODY)
  {}

  lemma AddOpen(unsent: multiset<nat>, all: Population, open: set<nat>, t: LocalTask)
    requires OpenInv(unsent, all, open) && t.id !in all
    ensures OpenInv(unsent, all[t.id := t], open)
  {}

  lemma AddFlight(unsent: multiset<nat>, open: set<nat>, js: Cells, js1: Cells, all: Population, t: LocalTask)
    requires FlightInv(unsent, js, all) && OpenInv(unsent, all, open) && t.id !in all && js <= js1
    ensures FlightInv(unsent, js1, all[t.id := t])
  {
    forall id | id in unsent ensures Afloat(js1, all[id]) {
      assert Afloat(js, all[id]);
    }
  }

  lemma AddWaiters(js: Cells, js1: Cells, ss: seq<Schedule>, all: Population, t: LocalTask)
    requires WaiterInv(js, ss, all) && t.id !in all
    requires js <= js1 && forall c | |js| <= c < |js1| :: js1[c] == JoinState.Pending(None)
    ensures WaiterInv(js1, ss + [Schedule(t.id, Idle)], all[t.id := t])
  {
    forall c | 0 <= c < |js1| && js1[c].Pending?
        && js1[c].waker.Some? ensures Awaited(js1, ss + [Schedule(t.id, Idle)], all[t.id := t], c) {
      assert Awaited(js, ss, all, c);
    }
  }

  lemma AddTimer(timers: Registrations, nextTimer: nat, now: int, ss: seq<Schedule>, all: Population, t: LocalTask)
    requires TimerInv(timers, nextTimer, now, ss, all) && t.id !in all && t.future.stage.Run?
    ensures TimerInv(timers, nextTimer, now, ss + [Schedule(t.id, Idle)], all[t.id := t])
  {
    forall r | r in timers ensures Owned(timers, r, ss + [Schedule(t.id, Idle)], all[t.id := t]) {
      assert Owned(timers, r, ss, all);
    }
  }

  lemma AddArm(ss: seq<Schedule>, js: Cells, js1: Cells, timers: Registrations, toks: multiset<nat>, all: Population,
        t: LocalTask)
    requires ArmInv(ss, js, timers, all, NOBODY, {}) && SchedInv(ss, toks, all, NOBODY) && t.id !in all
        && t.sched == |ss|
    requires js <= js1
    ensures ArmInv(ss + [Schedule(t.id, Idle)], js1, timers, all[t.id := t], NOBODY, {t.sched})
  {
    forall id | id in all && ss[all[id].sched].state.Idle? ensures Armed(js1, timers, all[id]) {
      assert Armed(js, timers, all[id]);
    }
  }

  lemma AddPark(all: Population, t: LocalTask, parkless: bool)
    requires parkless ==> NobodyParks(all)
    ensures parkless && StageNoPark(t.future.stage) ==> NobodyParks(all[t.id := t])
  {}

  /* ---- Starting the root ---- */

  // Handles held outside any task, each to a cell of its own.
  ghost predicate Available(kept: set<nat>, hs: seq<Option<nat>>) {
    && (forall k | 0 <= k < |hs| && hs[k].Some? :: hs[k].value in kept)
    && (forall i, j | 0 <= i < j < |hs| && hs[i].Some? :: hs[i] != hs[j])
  }

  // What the outside still holds once `hs` has been moved away.
  function Surrendered(kept: set<nat>, hs: seq<Option<nat>>): set<nat> {
    set c | c in kept && Some(c) !in hs
  }

  // The root takes the handles over.
  ghost function Adopted(hist: History, hs: seq<Option<nat>>): (r: History)
    ensures |r| == |hist|
    ensures forall c | 0 <= c < |hist| :: r[c].fin == hist[c].fin && r[c].owner == hist[c].owner
    ensures forall c | 0 <= c < |hist| :: Some(c) !in hs ==> r[c] == hist[c]
    ensures forall c, k | 0 <= c < |hist| && 0 <= k < |hs| && hs[k] == Some(c)
        && (forall i | 0 <= i < |hs| && i != k :: hs[i] != hs[k]) ::
      r[c].parent == ROOT && r[c].slot == k
  {
    seq(|hist|, c requires 0 <= c < |hist| =>
      if Some(c) in hs then var k :| 0 <= k < |hs| && hs[k] == Some(c);
          hist[c].(parent := ROOT, slot := k) else hist[c])
  }

  lemma StartJoin(js: Cells, all: Population, hist: History, ss: seq<Schedule>, toks: multiset<nat>, kept: set<nat>,
        root: LocalTask)
    requires JoinInv(js, all, hist) && SchedInv(ss, toks, all, NOBODY) && KeptInv(js, hist, kept)
    requires ROOT !in all && root.id == ROOT && root.out.None? && Available(kept, root.future.handles)
    ensures JoinInv(js, all[ROOT := root], Adopted(hist, root.future.handles))
  {
    var hs := root.future.handles;
    var all1, hist1 := all[ROOT := root], Adopted(hist, hs);
    forall id, k {:trigger HandleOk(js, hist1, all1[id], k)} | id in all1 && 0 <= k < |all1[id].future.handles|
      ensures HandleOk(js, hist1, all1[id], k)
    {
      if id in all {
        assert HandleOk(js, hist, all[id], k);
      } else if hs[k].Some? {
        assert hs[k] == Some(hs[k].value);
        assert forall i | 0 <= i < |hs| && i != k :: hs[i] != hs[k];
      }
    }
  }

  lemma StartRecords(js: Cells, origins: seq<Origin>, hist: History, kept: set<nat>, faithful: bool,
        hs: seq<Option<nat>>)
    requires KeptInv(js, hist, kept) && OriginInv(origins, hist, faithful)
    ensures KeptInv(js, Adopted(hist, hs), Surrendered(kept, hs)) && OriginInv(origins, Adopted(hist, hs), faithful)
  {}

  lemma FinsAdopted(hs: seq<Option<nat>>, hist: History, taken: seq<Option<nat>>)
    ensures Fins(hs, Adopted(hist, taken)) == Fins(hs, hist)
  {}

  lemma StartTime(exact: bool, exact1: bool, now: int, js: Cells, all: Population, hist: History, rootFin: Done,
        root: LocalTask)
    requires TimeInv(exact, now, js, all, hist, rootFin) && JoinInv(js, all, hist) && ROOT !in all && root.out.None?
    requires exact1 ==> exact
    ensures TimeInv(exact1, now, js, all[ROOT := root], Adopted(hist, root.future.handles),
        Predict(root.future, now, hist))
  {
    var hist1, fin := Adopted(hist, root.future.handles), Predict(root.future, now, hist);
    FinsAdopted(root.future.handles, hist, root.future.handles);
    forall id | id in all
      ensures FinOf(all[id], hist1, fin) == FinOf(all[id], hist, rootFin)
      ensures Predict(all[id].future, now, hist1) == Predict(all[id].future, now, hist)
    {
      FinsAdopted(all[id].future.handles, hist, root.future.handles);
    }
  }

  lemma StartIds(w: World, all: Population, root: LocalTask, reserve: nat, w1: World)
    requires IdInv(w.nextTask, w.nextTimer, all, reserve) && ROOT !in all && root.id == ROOT
    requires StageWork(root.future.stage) <= reserve
    requires w1.nextTask == w.nextTask && w1.nextTimer == w.nextTimer && w1.timers == w.timers && w1.ready == w.ready
        && w1.unsent == w.unsent
    ensures IdInv(w1.nextTask, w1.nextTimer, all[ROOT := root], reserve - StageWork(root.future.stage))
    ensures Potential(w1, all[ROOT := root], NOBODY) == Potential(w, all, NOBODY) + 4 * StageWork(root.future.stage)
  {
    LoadUpdate(all, ROOT, root, w.nextTask);
  }

  ghost predicate CanStart(w: World, job: Job, g: Ghost) {
    Quiet(w, g) && Work(job.p) <= g.reserve && Available(g.kept, job.handles) && g.faithful
  }

  // What the root means when it starts now.
  ghost function Meaning(job: Job, now: int, hist: History): Done {
    Finish(job.p, now, 0, Fins(job.handles, hist))
  }

  // What the invariant is relative to once the root is there.
  ghost function Launched(w: World, job: Job, g: Ghost): Ghost
    requires Work(job.p) <= g.reserve
  {
    Ghost(Adopted(g.hist, job.handles), Meaning(job, w.now, g.hist), g.parkless
        && NoPark(job.p), g.reserve - Work(job.p),
          Surrendered(g.kept, job.handles), g.open, g.since, g.faithful)
  }

  // A new root joins whatever earlier calls have left behind.
  lemma StartKeeps(w: World, job: Job, g: Ghost)
    requires CanStart(w, job, g)
    ensures Good(Started(w, job), Launched(w, job, g))
    ensures var c := Started(w, job);
        Potential(c.w, Whole(c.w, c.root), NOBODY) <= Potential(w, Admitted(w.tasks, w.pending),
        NOBODY) + 4 * Work(job.p) + 1
    ensures var v := Started(w, job).w;
      v.paused == w.paused && v.now == w.now && v.overtaken == w.overtaken && v.origins == w.origins
  {
    hide SchedInv, OpenInv, FlightInv, WaiterInv, JoinInv, KeptInv, TimerInv, ArmInv, TimeInv, OriginInv, IdInv, Load,
        Potential, Finish, Available, Fins, Adopted, Surrendered, Tokens;
    var all := Admitted(w.tasks, w.pending);
    var s := |w.schedules|;
    var root := LocalTask(ROOT, s, None, Future(Run(job.p), 0, job.handles));
    var g1 := Launched(w, job, g);
    var v := w.(schedules := w.schedules + [Schedule(ROOT, Idle)]);
    assert Tokens(v) == Tokens(w) by { TokensSame(w, v); }
    AddSched(w.schedules, Tokens(w), all, root);
    AddOpen(w.unsent, all, g.open, root);
    StartJoin(w.joins, all, g.hist, w.schedules, Tokens(w), g.kept, root);
    StartRecords(w.joins, w.origins, g.hist, g.kept, g.faithful, job.handles);
    AddFlight(w.unsent, g.open, w.joins, w.joins, all, root);
    AddWaiters(w.joins, w.joins, w.schedules, all, root);
    AddTimer(w.timers, w.nextTimer, w.now, w.schedules, all, root);
    AddArm(w.schedules, w.joins, w.joins, w.timers, Tokens(w), all, root);
    StartTime(Exact(w, g), Exact(w, g1), w.now, w.joins, all, g.hist, g.rootFin, root);
    StartIds(w, all, root, g.reserve, v);
    AddPark(all, root, g.parkless);
    WakeKeeps(v, s, all[ROOT := root], NOBODY, g1, {s});
    assert {s} - {s} == {};
    assert Whole(Started(w, job).w, root) == all[ROOT := root];
  }

  /* ---- Spawning from outside ---- */

  lemma SubmitJoin(js: Cells, all: Population, hist: History, t: LocalTask, birth: Birth)
    requires JoinInv(js, all, hist) && t.id !in all && t.id != ROOT && t.out == Some(|js|) && t.future.handles == []
    requires birth.owner == t.id
    ensures JoinInv(js + [JoinState.Pending(None)], all[t.id := t], hist + [birth])
  {
    var all1, js1, hist1 := all[t.id := t], js + [JoinState.Pending(None)], hist + [birth];
    forall id, k {:trigger HandleOk(js1, hist1, all1[id], k)} | id in all1 && 0 <= k < |all1[id].future.handles|
      ensures HandleOk(js1, hist1, all1[id], k)
    {
      assert HandleOk(js, hist, all[id], k);
    }
  }

  lemma SubmitRecords(js: Cells, origins: seq<Origin>, hist: History, kept: set<nat>, faithful: bool, birth: Birth,
        o: Origin)
    requires KeptInv(js, hist, kept) && OriginInv(origins, hist, faithful) && birth.fin == Finish(o.p, o.at, 0, [])
        && birth.parent == OUTSIDE
    ensures KeptInv(js + [JoinState.Pending(None)], hist + [birth], kept + {|js|})
    ensures OriginInv(origins + [o], hist + [birth], faithful)
  {}

  lemma SubmitTime(exact: bool, now: int, js: Cells, all: Population, hist: History, rootFin: Done, t: LocalTask,
        birth: Birth)
    requires TimeInv(exact, now, js, all, hist, rootFin) && JoinInv(js, all, hist) && t.id !in all
        && t.out == Some(|js|)
    requires t.future.handles == [] && t.future.stage.Run? && birth.fin
        == Finish(t.future.stage.p, now, t.future.acc, [])
    ensures TimeInv(exact, now, js + [JoinState.Pending(None)], all[t.id := t], hist + [birth], rootFin)
  {
    assert Fins([], hist + [birth]) == [];
    forall id | id in all
      ensures FinOf(all[id], hist + [birth], rootFin) == FinOf(all[id], hist, rootFin)
      ensures Predict(all[id].future, now, hist + [birth]) == Predict(all[id].future, now, hist)
    {
      HandlesInRange(js, all, hist, id);
      FinsExtend(all[id].future.handles, hist, birth);
    }
  }

  lemma SubmitIds(w: World, all: Population, t: LocalTask, reserve: nat)
    requires IdInv(w.nextTask, w.nextTimer, all, reserve) && t.id == w.nextTask && StageWork(t.future.stage) < reserve
    ensures w.nextTask !in all && w.nextTask != ROOT && WrappingSucc(w.nextTask) == w.nextTask + 1
    ensures IdInv(WrappingSucc(w.nextTask), w.nextTimer, all[t.id := t], reserve - StageWork(t.future.stage) - 1)
  {
    LoadUpdate(all, t.id, t, w.nextTask + 1);
    assert Load(all, w.nextTask + 1) == Load(all, w.nextTask);
  }

  ghost function Submitted(w: World, p: Program, g: Ghost): Ghost
    requires Work(p) < g.reserve
  {
    Ghost(g.hist + [Birth(w.nextTask, OUTSIDE, 0, Finish(p, w.now, 0, []))], g.rootFin, g.parkless && NoPark(p),
          g.reserve - Work(p) - 1, g.kept + {|w.joins|}, g.open, g.since, g.faithful)
  }

  function NewTask(w: World, p: Program): LocalTask {
    LocalTask(w.nextTask, |w.schedules|, Some(|w.joins|), Future(Run(p), 0, []))
  }

  // The task is there and has not been woken yet.
  function Enrolled(w: World, p: Program): World {
    w.(joins := w.joins + [JoinState.Pending(None)], origins := w.origins + [Origin(p, w.now)],
        nextTask := WrappingSucc(w.nextTask),
       schedules := w.schedules + [Schedule(w.nextTask, Idle)], pending := w.pending + [NewTask(w, p)])
  }

  lemma EnrolKeeps(w: World, all: Population, p: Program, g: Ghost)
    requires Inv(w, all, NOBODY, g, {}) && Work(p) < g.reserve
    ensures w.nextTask !in all && w.nextTask != ROOT
    ensures Inv(Enrolled(w, p), all[w.nextTask := NewTask(w, p)], NOBODY, Submitted(w, p, g), {|w.schedules|})
  {
    hide SchedInv, OpenInv, FlightInv, WaiterInv, JoinInv, KeptInv, TimerInv, ArmInv, TimeInv, OriginInv, IdInv, Load,
        Potential, Finish, Fins, Tokens;
    var t, v, g1 := NewTask(w, p), Enrolled(w, p), Submitted(w, p, g);
    var birth := g1.hist[|g.hist|];
    SubmitIds(w, all, t, g.reserve);
    TokensSame(w, v);
    AddSched(w.schedules, Tokens(w), all, t);
    AddOpen(w.unsent, all, g.open, t);
    SubmitJoin(w.joins, all, g.hist, t, birth);
    AddFlight(w.unsent, g.open, w.joins, v.joins, all, t);
    AddWaiters(w.joins, v.joins, w.schedules, all, t);
    SubmitRecords(w.joins, w.origins, g.hist, g.kept, g.faithful, birth, Origin(p, w.now));
    AddTimer(w.timers, w.nextTimer, w.now, w.schedules, all, t);
    AddArm(w.schedules, w.joins, w.joins + [JoinState.Pending(None)], w.timers, Tokens(w), all, t);
    SubmitTime(Exact(w, g), w.now, w.joins, all, g.hist, g.rootFin, t, birth);
    if !Exact(w, g1) {
      Loosened(Exact(w, g), w.now, v.joins, all[t.id := t], g1.hist, g.rootFin);
    }
    AddPark(all, t, g.parkless);
  }

  lemma SpawnIsEnrol(w: World, p: Program)
    requires !w.closed && w.nextTask != ROOT
    ensures Spawned(w, p) == (WakeSchedule(Enrolled(w, p), |w.schedules|), |w.joins|)
  {}

  lemma NotClosed(w: World, g: Ghost)
    requires Quiet(w, g)
    ensures !w.closed
  {}

  // A task submitted from outside means what its program means now; the caller holds its handle.
  lemma SubmitKeeps(w: World, p: Program, g: Ghost)
    requires Quiet(w, g) && Work(p) < g.reserve
    ensures var (v, cell) := Spawned(w, p);
      && Quiet(v, Submitted(w, p, g)) && cell == |w.joins| && v.joins == w.joins + [JoinState.Pending(None)]
      && v.now == w.now && v.paused == w.paused && v.overtaken == w.overtaken
          && v.origins == w.origins + [Origin(p, w.now)]
  {
    var all := Admitted(w.tasks, w.pending);
    NotClosed(w, g);
    hide Inv, Spawned, Submitted, Admitted, Distinct, WakeSchedule;
    var t := NewTask(w, p);
    EnrolKeeps(w, all, p, g);
    SpawnIsEnrol(w, p);
    WakeKeeps(Enrolled(w, p), t.sched, all[t.id := t], NOBODY, Submitted(w, p, g), {t.sched});
    assert {t.sched} - {t.sched} == {};
    EnrolTable(w.tasks, w.pending, t);
    WakeLeaves(Enrolled(w, p), t.sched);
  }

  lemma WakeLeaves(w: World, s: nat)
    ensures var v := WakeSchedule(w, s); v == w.(schedules := v.schedules, ready := v.ready)
  {}

  lemma EnrolTable(tasks: map<nat, LocalTask>, pending: seq<LocalTask>, t: LocalTask)
    requires ROOT !in Admitted(tasks, pending) && Distinct(tasks, pending) && t.id !in Admitted(tasks, pending)
        && t.id != ROOT
    ensures Admitted(tasks, pending + [t]) == Admitted(tasks, pending)[t.id := t]
    ensures Distinct(tasks, pending + [t])
  {
    AdmittedAppend(tasks, pending, t);
    AdmittedKeys(tasks, pending);
  }

  // The empty runtime satisfies the invariant.
  lemma NewIsQuiet(paused: bool, now: int, reserve: nat)
    requires reserve < U64 - 1
    ensures Quiet(NewWorld(paused, now), Ghost([], Done(now, Panicked), true, reserve, {}, {}, 0, true))
  {
    assert Load(map[], 1) == 0;
  }

  // Spawns on a new runtime take the ids in their order, however many they are; each queues its
  // task behind those before it.
  lemma SpawnsTakeIdsInOrder(paused: bool, now: int, ps: seq<Program>)
    ensures var v := SpawnAll(NewWorld(paused, now), ps);
      && |v.pending| == |v.ready| == |v.schedules| == |v.joins| == |ps|
      && forall k | 0 <= k < |ps| ::
           && v.pending[k] == LocalTask(IdAt(k + 1), k, Some(k), Future(Run(ps[k]), 0, []))
           && v.ready[k] == IdAt(k + 1) && v.schedules[k] == Schedule(IdAt(k + 1), Queued)
           && v.joins[k] == JoinState.Pending(None)
  {
    SpawnsFrom(NewWorld(paused, now), [], ps);
    assert [] + ps == ps;
  }

  // What is there after the spawns in `done`.
  ghost predicate SpawnedInOrder(w: World, done: seq<Program>) {
    && !w.closed && w.nextTask == CounterAt(|done| + 1)
    && |w.pending| == |w.ready| == |w.schedules| == |w.joins| == |done|
    && forall k | 0 <= k < |done| ::
         && w.pending[k] == LocalTask(IdAt(k + 1), k, Some(k), Future(Run(done[k]), 0, []))
         && w.ready[k] == IdAt(k + 1) && w.schedules[k] == Schedule(IdAt(k + 1), Queued)
         && w.joins[k] == JoinState.Pending(None)
  }

  lemma SpawnOneMore(w: World, done: seq<Program>, p: Program)
    requires SpawnedInOrder(w, done)
    ensures SpawnedInOrder(Spawned(w, p).0, done + [p])
  {}

  lemma {:induction false} SpawnsFrom(w: World, done: seq<Program>, ps: seq<Program>)
    requires SpawnedInOrder(w, done)
    ensures SpawnedInOrder(SpawnAll(w, ps), done + ps)
    decreases |ps|
  {
    hide SpawnedInOrder, Spawned;
    if ps == [] {
      assert done + ps == done;
    } else {
      SpawnOneMore(w, done, ps[0]);
      SpawnsFrom(Spawned(w, ps[0]).0, done + [ps[0]], ps[1..]);
      assert done + [ps[0]] + ps[1..] == done + ps;
    }
  }

  /* ---- One round ---- */

  ghost function Effort(c: Conf, env: seq<Event>): nat {
    Potential(c.w, Whole(c.w, c.root), NOBODY) + EnvWeight(env)
  }

  // If no future parks and no send is outstanding, the executor never waits for a wake that
  // cannot come.
  lemma {:induction false} NoJoinCycle(w: World, all: Population, g: Ghost, c: nat)
    requires Inv(w, all, NOBODY, g, {}) && w.ready == [] && w.unsent == multiset{} && w.timers == map[] && g.parkless
    requires c < |w.joins| && w.joins[c].Pending?
    ensures false
    decreases |w.joins| - c
  {
    var t := all[g.hist[c].owner];
    IdleAll(w, all, g, t.id);
    assert HandleOk(w.joins, g.hist, t, t.future.stage.p.k);
    NoJoinCycle(w, all, g, t.future.handles[t.future.stage.p.k].value);
  }

  lemma NeverStuck(w: World, root: LocalTask, g: Ghost)
    requires root.id == ROOT && Inv(w, Whole(w, root), NOBODY, g, {}) && w.ready == [] && w.timers == map[]
    ensures !g.parkless || w.unsent != multiset{}
  {
    if g.parkless && w.unsent == multiset{} {
      var all := Whole(w, root);
      IdleAll(w, all, g, ROOT);
      assert HandleOk(w.joins, g.hist, root, root.future.stage.p.k);
      NoJoinCycle(w, all, g, root.future.handles[root.future.stage.p.k].value);
    }
  }

  // What any number of rounds guarantees; each round takes at least one unit of effort.
  ghost predicate RunDone(c: Conf, env: seq<Event>, n: nat, g: Ghost, t: TurnResult, g1: Ghost) {
    && g1 == g.(hist := g1.hist, open := g1.open)
    && match t
       case Continue(c1, rest) =>
         && Good(c1, g1) && Effort(c1, rest) + n <= Effort(c, env) && Spent(c.w, env, g, c1.w, rest, g1)
         && Grown(c.w, Whole(c.w, c.root), c1.w, Whole(c1.w, c1.root))
       case Exit(w, o, rest) =>
         && Quiet(w, g1) && Spent(c.w, env, g, w, rest, g1) && Agrees(Exact(w, g), g.rootFin, Done(w.now, o))
         && Grown(c.w, Whole(c.w, c.root), w, Admitted(w.tasks, w.pending))
       case Stuck(c1) =>
         && Good(c1, g1) && c1.w.ready == [] && c1.w.timers == map[] && (!g.parkless || c1.w.unsent != multiset{})
         && Spent(c.w, env, g, c1.w, [], g1) && c.w.origins <= c1.w.origins
  }

  lemma SpentTrans(w: World, env: seq<Event>, g: Ghost, w1: World, env1: seq<Event>, g1: Ghost, v: World,
        rest: seq<Event>, g2: Ghost)
    requires Spent(w, env, g, w1, env1, g1) && Spent(w1, env1, g1, v, rest, g2)
    ensures Spent(w, env, g, v, rest, g2)
  {
    hide OpenAfter, Prompt;
  }

  // The poll spends one event.
  lemma PollSpends(w: World, env: seq<Event>, g: Ghost, v: World, g1: Ghost)
    requires PollFrame(w, v) && g1.open == Opened(g.open, Head(env).acts)
    ensures Spent(w, env, g, v, Tail(env), g1)
  {
    hide OpenAfter, Prompt, Opened;
    HeadSpent(g.open, env);
  }

  lemma TurnKeeps(c: Conf, env: seq<Event>, g: Ghost) returns (g1: Ghost)
    requires Good(c, g)
    ensures RunDone(c, env, 1, g, Turn(c, env), g1)
  {
    hide Inv, Potential, NextReady, PollTask, PollRoot, EnvWeight, Admitted, Spent, Opened, OpenAfter, Prompt;
    g1 := NextReadyKeeps(c.w, env, c.root, g);
    match NextReady(c.w, env)
    case Blocked(w) =>
      NeverStuck(w, c.root, g1);
      NothingPending(w);
    case Received(w, rest, id) =>
      NothingPending(w);
      if id == ROOT {
        g1 := RootTurn(c, env, g, w, rest, g1);
      } else {
        g1 := TaskTurn(c, env, g, w, rest, id, g1);
      }
  }

  lemma TaskTurn(c: Conf, env: seq<Event>, g: Ghost, w: World, rest: seq<Event>, id: nat, g0: Ghost) returns (g1: Ghost)
    requires Good(c, g) && NextReady(c.w, env) == Received(w, rest, id) && id != ROOT
    requires WaitDone(c.w, env, c.root, g, NextReady(c.w, env), g0)
    ensures RunDone(c, env, 1, g, Turn(c, env), g1)
  {
    hide Inv, Potential, NextReady, PollTask, PollRoot, Admitted, Spent, Opened, OpenAfter, Prompt;
    g1 := PollTaskKeeps(w, id, Head(rest), c.root, g0);
    PollSpends(w, rest, g0, PollTask(w, id, Head(rest)), g1);
    SpentTrans(c.w, env, g, w, rest, g0, PollTask(w, id, Head(rest)), Tail(rest), g1);
    WeightOfHead(rest);
  }

  lemma RootTurn(c: Conf, env: seq<Event>, g: Ghost, w: World, rest: seq<Event>, g0: Ghost) returns (g1: Ghost)
    requires Good(c, g) && NextReady(c.w, env) == Received(w, rest, ROOT)
    requires WaitDone(c.w, env, c.root, g, NextReady(c.w, env), g0)
    ensures RunDone(c, env, 1, g, Turn(c, env), g1)
  {
    hide Inv, Potential, NextReady, PollTask, PollRoot, Admitted, Spent, Opened, OpenAfter, Prompt;
    g1 := PollRootKeeps(w, rest, c.root, g0);
    WeightOfHead(rest);
    match PollRoot(w, rest, c.root)
    case Continue(c1, rest1) =>
      PollSpends(w, rest, g0, c1.w, g1);
      SpentTrans(c.w, env, g, w, rest, g0, c1.w, rest1, g1);
    case Exit(v, o, rest1) =>
      PollSpends(w, rest, g0, v, g1);
      SpentTrans(c.w, env, g, w, rest, g0, v, rest1, g1);
    case Stuck(_) =>
  }

  lemma NothingPending(w: World)
    requires w.pending == []
    ensures Admitted(w.tasks, w.pending) == w.tasks
  {}

  /* ---- Whole runs ---- */

  lemma {:induction false} DriveKeeps(c: Conf, env: seq<Event>, n: nat, g: Ghost) returns (g1: Ghost)
    requires Good(c, g)
    ensures RunDone(c, env, n, g, Drive(c, env, n), g1)
    decreases n
  {
    hide Inv, Potential, Turn, EnvWeight, Good, Quiet, Effort, Spent;
    if n == 0 {
      g1 := g;
      SpentNothing(c.w, env, g);
    } else {
      g1 := TurnKeeps(c, env, g);
      match Turn(c, env)
      case Continue(c1, rest) =>
        var g0 := g1;
        g1 := DriveKeeps(c1, rest, n - 1, g0);
        match Drive(c1, rest, n - 1) {
          case Continue(c2, rest1) => SpentTrans(c.w, env, g, c1.w, rest, g0, c2.w, rest1, g1);
          case Exit(w, _, rest1) => SpentTrans(c.w, env, g, c1.w, rest, g0, w, rest1, g1);
          case Stuck(c2) => SpentTrans(c.w, env, g, c1.w, rest, g0, c2.w, [], g1);
        }
      case Exit(w, o, _) =>
      case Stuck(c1) =>
    }
  }

  lemma SpentNothing(w: World, env: seq<Event>, g: Ghost)
    ensures Spent(w, env, g, w, env, g)
  {}

  // Once a run has ended, more rounds change nothing.
  lemma {:induction false} DriveMore(c: Conf, env: seq<Event>, n: nat, m: nat)
    requires n <= m && !Drive(c, env, n).Continue?
    ensures Drive(c, env, m) == Drive(c, env, n)
    decreases n
  {
    hide Turn;
    match Turn(c, env)
    case Continue(c1, rest) => DriveMore(c1, rest, n - 1, m - 1);
    case Exit(w, o, _) =>
    case Stuck(c1) =>
  }

  // An explicit bound on the rounds of a `block_on` call.
  ghost function Rounds(w: World, job: Job, env: seq<Event>): nat {
    Potential(w, Admitted(w.tasks, w.pending), NOBODY) + 4 * Work(job.p) + 2 + EnvWeight(env)
  }

  ghost function BlockOn(w: World, job: Job, env: seq<Event>): TurnResult {
    Drive(Started(w, job), env, Rounds(w, job, env))
  }

  // What a call guarantees: it has ended, with the outcome that the program denotes and not
  // before it is due, or nothing is left that could wake anybody.
  ghost predicate CallDone(w: World, job: Job, env: seq<Event>, g: Ghost, t: TurnResult, g1: Ghost)
    requires Work(job.p) <= g.reserve
  {
    && g1 == Launched(w, job, g).(hist := g1.hist, open := g1.open)
    && match t
       case Continue(_, _) => false
       case Exit(v, o, rest) =>
         && Quiet(v, g1) && !v.fault && Spent(w, env, g, v, rest, g1) && w.origins <= v.origins
         && Agrees(Exact(v, g1), Meaning(job, w.now, g.hist), Done(v.now, o))
       case Stuck(c) =>
         && !c.w.fault && c.w.ready == [] && c.w.timers == map[]
         && (!g1.parkless || (c.w.unsent != multiset{} && OpenAfter(g.open, env) != {}))
  }

  // `block_on` ends within the bound, whatever the futures do, whatever order the channel is
  // emptied in, whatever other threads wake and however long they take to send: the root
  // returns, or it panics, or nothing can run any more because some future parked without
  // arranging a wake or because some thread never performs its send. No `expect`, `assert!` or
  // `unreachable!` of the runtime fires on the way. The outcome is the one the program denotes,
  // never earlier than its critical path; on a paused clock that has overtaken no wake in
  // flight, exactly then.
  lemma BlockOnEnds(w: World, job: Job, env: seq<Event>, g: Ghost) returns (g1: Ghost)
    requires CanStart(w, job, g)
    ensures CallDone(w, job, env, g, BlockOn(w, job, env), g1)
  {
    hide SchedInv, JoinInv, KeptInv, TimerInv, ArmInv, TimeInv, OriginInv, IdInv, Potential, Drive, EnvWeight,
        Admitted, Meaning, Started, Available, Adopted, Surrendered, OpenAfter, Prompt;
    StartKeeps(w, job, g);
    g1 := DriveKeeps(Started(w, job), env, Rounds(w, job, env), Launched(w, job, g));
    if BlockOn(w, job, env).Stuck? {
      NothingOpen(g1.open, BlockOn(w, job, env).c.w.unsent,
          Whole(BlockOn(w, job, env).c.w, BlockOn(w, job, env).c.root));
      OpenAtEnd(g1.open);
    }
  }

  lemma NothingOpen(open: set<nat>, unsent: multiset<nat>, all: Population)
    requires OpenInv(unsent, all, open)
    ensures open == {} ==> unsent == multiset{}
  {
    if open == {} {
      assert forall id :: id !in unsent;
    }
  }

  lemma OpenAtEnd(o: set<nat>)
    ensures OpenAfter(o, []) == o
  {}

  /* ---- Sessions: a whole life of one runtime ---- */

  // Spawn a task from outside and keep its handle, or run a root that gets some of the kept
  // handles; `take` says which, and the others stay with the caller.
  datatype Call = Submit(p: Program) | Execute(p: Program, take: seq<nat>)

  function TotalWork(calls: seq<Call>): nat
    decreases |calls|
  {
    if calls == [] then 0 else Work(calls[0].p) + (if calls[0].Submit? then 1 else 0) + TotalWork(calls[1..])
  }

  function Blanked<T>(slots: seq<Option<T>>, i: nat): seq<Option<T>> {
    if i < |slots| then slots[i := None] else slots
  }

  // What is moved out of the slots, and what stays. A slot can be moved out once only.
  function Moved<T>(slots: seq<Option<T>>, take: seq<nat>): seq<Option<T>>
    decreases |take|
  {
    if take == [] then []
    else [if take[0] < |slots| then slots[take[0]] else None] + Moved(Blanked(slots, take[0]), take[1..])
  }

  function Left<T>(slots: seq<Option<T>>, take: seq<nat>): seq<Option<T>>
    decreases |take|
  {
    if take == [] then slots else Left(Blanked(slots, take[0]), take[1..])
  }

  // Every root returns what its program means and never before the end of its critical path, no
  // matter which detached tasks earlier calls have left behind; it returns exactly then as long
  // as the clock has overtaken no wake in flight, or, if `punctual`, always. The calls share the
  // environment one after the other. `kept` are the kept handles, `fins` what their tasks mean.
  ghost predicate OnTime(w: World, calls: seq<Call>, env: seq<Event>, kept: seq<Option<nat>>,
        fins: seq<Option<Done>>, punctual: bool)
    decreases |calls|
  {
    calls == [] ||
    match calls[0]
    case Submit(p) =>
      var (v, cell) := Spawned(w, p);
      OnTime(v, calls[1..], env, kept + [Some(cell)], fins + [Some(Finish(p, w.now, 0, []))], punctual)
    case Execute(p, take) =>
      var r := BlockOn(w, Job(p, Moved(kept, take)), env);
      var due := Finish(p, w.now, 0, Moved(fins, take));
      && r.Exit? && !r.w.fault
      && Agrees(punctual || r.w.overtaken == 0, due, Done(r.w.now, r.out))
      && OnTime(r.w, calls[1..], r.env, Left(kept, take), Left(fins, take), punctual)
  }

  lemma KeepOne(kept: set<nat>, hist: History, slots: seq<Option<nat>>, birth: Birth)
    requires Available(kept, slots) && forall c | c in kept :: c < |hist|
    ensures Available(kept + {|hist|}, slots + [Some(|hist|)])
    ensures Fins(slots + [Some(|hist|)], hist + [birth]) == Fins(slots, hist) + [Some(birth.fin)]
  {
    FinsExtend(slots, hist, birth);
  }

  lemma {:induction false} MovedFrom(slots: seq<Option<nat>>, take: seq<nat>, kept: set<nat>)
    requires Available(kept, slots)
    ensures forall h | h in Moved(slots, take) && h.Some? :: h in slots && h !in Left(slots, take)
    ensures forall h | h in Left(slots, take) && h.Some? :: h in slots
    ensures Available(kept, Moved(slots, take)) && Available(kept, Left(slots, take))
    decreases |take|
  {
    if take != [] {
      var rest := Blanked(slots, take[0]);
      assert forall h | h in rest && h.Some? :: h in slots;
      MovedFrom(rest, take[1..], kept);
      var h0 := if take[0] < |slots| then slots[take[0]] else None;
      assert h0.Some? ==> h0 !in rest;
      MovedStep(h0, Moved(rest, take[1..]), rest, kept);
    }
  }

  lemma MovedStep(h0: Option<nat>, hs: seq<Option<nat>>, rest: seq<Option<nat>>, kept: set<nat>)
    requires Available(kept, hs) && (h0.Some? ==> h0.value in kept && h0 !in rest)
    requires forall h | h in hs && h.Some? :: h in rest
    ensures Available(kept, [h0] + hs)
  {}

  lemma {:induction false} FinsMoved(slots: seq<Option<nat>>, take: seq<nat>, hist: History)
    ensures Fins(Moved(slots, take), hist) == Moved(Fins(slots, hist), take)
    ensures Fins(Left(slots, take), hist) == Left(Fins(slots, hist), take)
    decreases |take|
  {
    hide Fins, Blanked;
    if take == [] {
      FinsNone(hist);
    } else {
      var rest := Blanked(slots, take[0]);
      FinsMoved(rest, take[1..], hist);
      FinsBlanked(slots, take[0], hist);
      var h0 := if take[0] < |slots| then slots[take[0]] else None;
      FinsCons(h0, Moved(rest, take[1..]), hist);
    }
  }

  lemma FinsNone(hist: History)
    ensures Fins([], hist) == []
  {}

  lemma FinsBlanked(slots: seq<Option<nat>>, i: nat, hist: History)
    ensures Fins(Blanked(slots, i), hist) == Blanked(Fins(slots, hist), i)
    ensures i < |slots| ==> Fins([slots[i]], hist) == [Fins(slots, hist)[i]]
    ensures Fins([None], hist) == [None]
  {}

  lemma FinsCons(h: Option<nat>, hs: seq<Option<nat>>, hist: History)
    ensures Fins([h] + hs, hist) == Fins([h], hist) + Fins(hs, hist)
  {}

  // The run leaves the promises for the kept handles as they were.
  lemma FinsStay(origins: seq<Origin>, hist: History, origins1: seq<Origin>, hist1: History, hs: seq<Option<nat>>)
    requires OriginInv(origins, hist, true) && OriginInv(origins1, hist1, true) && origins <= origins1
    requires forall k | 0 <= k < |hs| && hs[k].Some? :: hs[k].value < |hist|
    ensures Fins(hs, hist1) == Fins(hs, hist)
  {}

  lemma StillAvailable(slots: seq<Option<nat>>, take: seq<nat>, kept: set<nat>)
    requires Available(kept, slots)
    ensures Available(kept, Moved(slots, take))
    ensures Available(Surrendered(kept, Moved(slots, take)), Left(slots, take))
  {
    MovedFrom(slots, take, kept);
    var hs, left := Moved(slots, take), Left(slots, take);
    forall k | 0 <= k < |left| && left[k].Some? ensures left[k].value in Surrendered(kept, hs) {
      assert left[k] in left && left[k] == Some(left[k].value);
    }
  }

  lemma KeptInRange(w: World, g: Ghost, slots: seq<Option<nat>>)
    requires Quiet(w, g) && Available(g.kept, slots)
    ensures |w.joins| == |g.hist| && OriginInv(w.origins, g.hist, g.faithful)
    ensures forall c | c in g.kept :: c < |g.hist|
    ensures forall k | 0 <= k < |slots| && slots[k].Some? :: slots[k].value < |g.hist|
  {}

  lemma ExecuteOnTime(w: World, p: Program, take: seq<nat>, env: seq<Event>, slots: seq<Option<nat>>, g: Ghost)
    returns (g1: Ghost)
    requires Quiet(w, g) && Available(g.kept, slots) && w.paused && g.parkless && NoPark(p) && Work(p) <= g.reserve
    requires OpenAfter(g.open, env) == {} && g.since == 0 && g.faithful
    ensures var r := BlockOn(w, Job(p, Moved(slots, take)), env);
      var due := Finish(p, w.now, 0, Moved(Fins(slots, g.hist), take));
      && r.Exit? && !r.w.fault && Spent(w, env, g, r.w, r.env, g1)
      && Agrees(r.w.overtaken == 0, due, Done(r.w.now, r.out))
      && Quiet(r.w, g1) && Available(g1.kept, Left(slots, take)) && g1.parkless && g1.reserve == g.reserve - Work(p)
          && g1.since == 0 && g1.faithful
      && Fins(Left(slots, take), g1.hist) == Left(Fins(slots, g.hist), take)
  {
    hide Inv, BlockOn, Finish, Available, Fins, Moved, Left, Spent, OpenAfter, Surrendered, Adopted;
    var job := Job(p, Moved(slots, take));
    StillAvailable(slots, take, g.kept);
    g1 := BlockOnEnds(w, job, env, g);
    FinsMoved(slots, take, g.hist);
    var r := BlockOn(w, job, env);
    KeptInRange(w, g, Left(slots, take)) by { MovedFrom(slots, take, g.kept); }
    KeptInRange(r.w, g1, Left(slots, take));
    FinsStay(w.origins, g.hist, r.w.origins, g1.hist, Left(slots, take));
    SpentPaused(w, env, g, r.w, r.env, g1);
  }

  lemma SpentPaused(w: World, env: seq<Event>, g: Ghost, v: World, rest: seq<Event>, g1: Ghost)
    requires Spent(w, env, g, v, rest, g1)
    ensures v.paused == w.paused && OpenAfter(g1.open, rest) == OpenAfter(g.open, env)
    ensures Prompt(env) && g.open == {} && w.overtaken == 0 ==> Prompt(rest) && g1.open == {} && v.overtaken == 0
  {}

  lemma {:induction false} SessionOnTime(w: World, calls: seq<Call>, env: seq<Event>, slots: seq<Option<nat>>,
        g: Ghost, punctual: bool)
    requires Quiet(w, g) && Available(g.kept, slots)
    requires w.paused && g.parkless && TotalWork(calls) <= g.reserve && g.since == 0 && g.faithful
    requires forall i | 0 <= i < |calls| :: NoPark(calls[i].p)
    requires OpenAfter(g.open, env) == {}
    requires punctual ==> Prompt(env) && g.open == {} && w.overtaken == 0
    ensures OnTime(w, calls, env, slots, Fins(slots, g.hist), punctual)
    decreases |calls|
  {
    hide Inv, BlockOn, Finish, Spawned, Fins, Available, Quiet, Moved, Left, Spent, OpenAfter, Prompt;
    if calls != [] {
      assert forall i | 0 <= i < |calls| - 1 :: calls[1..][i] == calls[i + 1];
      match calls[0]
      case Submit(p) =>
        var g1 := Submitted(w, p, g);
        SubmitKeeps(w, p, g);
        var (v, cell) := Spawned(w, p);
        KeptInRange(w, g, slots);
        KeepOne(g.kept, g.hist, slots, g1.hist[|g.hist|]);
        SessionOnTime(v, calls[1..], env, slots + [Some(cell)], g1, punctual);
      case Execute(p, take) =>
        var g1 := ExecuteOnTime(w, p, take, env, slots, g);
        var r := BlockOn(w, Job(p, Moved(slots, take)), env);
        SpentPaused(w, env, g, r.w, r.env, g1);
        SessionOnTime(r.w, calls[1..], r.env, Left(slots, take), g1, punctual);
    }
  }

  // Whoever is prompt leaves no send open.
  lemma {:induction false} PromptLands(env: seq<Event>)
    requires Prompt(env)
    ensures OpenAfter({}, env) == {}
    decreases |env|
  {
    if env != [] {
      PromptLands(env[1..]);
    }
  }

  // On a fresh runtime with a paused clock, any sequence of spawns and `block_on` calls on
  // programs that never park, with fewer than 2^64 steps of work in all, runs to the end,
  // provided that every thread that decides on a send performs it eventually. Each call returns
  // the value its program denotes, never before start plus critical path, and exactly then
  // until the clock overtakes a wake in flight.
  lemma {:induction false} SessionsEnd(now: int, calls: seq<Call>, env: seq<Event>)
    requires TotalWork(calls) < U64 - 1
    requires forall i | 0 <= i < |calls| :: NoPark(calls[i].p)
    requires OpenAfter({}, env) == {}
    ensures OnTime(NewWorld(true, now), calls, env, [], [], false)
  {
    hide Quiet, OnTime;
    NewIsQuiet(true, now, TotalWork(calls));
    SessionOnTime(NewWorld(true, now), calls, env, [],
        Ghost([], Done(now, Panicked), true, TotalWork(calls), {}, {}, 0, true), false);
  }

  // The headline: if every thread gets to its send before the executor's next step, every call
  // returns at exactly start plus critical path.
  lemma {:induction false} VirtualTimeIsCriticalPath(now: int, calls: seq<Call>, env: seq<Event>)
    requires TotalWork(calls) < U64 - 1
    requires forall i | 0 <= i < |calls| :: NoPark(calls[i].p)
    requires Prompt(env)
    ensures OnTime(NewWorld(true, now), calls, env, [], [], true)
  {
    hide Quiet, OnTime, Prompt, OpenAfter;
    PromptLands(env);
    NewIsQuiet(true, now, TotalWork(calls));
    SessionOnTime(NewWorld(true, now), calls, env, [],
        Ghost([], Done(now, Panicked), true, TotalWork(calls), {}, {}, 0, true), true);
  }
}
