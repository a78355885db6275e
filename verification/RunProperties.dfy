/** What holds at every point of every run: nobody is stranded, the channel holds live tasks
    only, finished tasks stay finished, cells resolve once, timers fire in time, and the
    channel is served in order. */
module RunProperties {
  import opened Wrappers
  import opened TimerSpec
  import opened ScheduleState
  import opened JoinSpec
  import opened Programs
  import opened ExecutorSpec
  import opened Invariant
  import opened PollInvariant
  import opened TurnInvariant
  import opened WaitInvariant
  import opened VirtualTime

  // The world and root after `n` rounds of a `block_on` call that is still going on.
  ghost predicate Reaches(w: World, job: Job, env: seq<Event>, n: nat, c: Conf, rest: seq<Event>) {
    Drive(Started(w, job), env, n) == Continue(c, rest)
  }

  lemma ReachedIsGood(w: World, job: Job, env: seq<Event>, n: nat, c: Conf, rest: seq<Event>, g: Ghost)
    returns (g1: Ghost)
    requires CanStart(w, job, g) && Reaches(w, job, env, n, c, rest)
    ensures Good(c, g1) && g1 == Launched(w, job, g).(hist := g1.hist, open := g1.open)
    ensures Spent(w, env, g, c.w, rest, g1) && w.origins <= c.w.origins
  {
    hide CanStart, Good, Drive, Started, Finish, Effort, Adopted, Surrendered, OpenAfter, Prompt;
    StartKeeps(w, job, g);
    g1 := DriveKeeps(Started(w, job), env, n, Launched(w, job, g));
  }

  /* ---- Nobody is stranded ---- */

  // Exactly one token, in the channel or in the hands of a thread that is about to send it, or a
  // live timer with the task's waker at the sleep's deadline, or the task's waker in an
  // unresolved cell it waits for; a parked task has asked for nothing.
  ghost predicate Attended(w: World, t: LocalTask) {
    && t.sched < |w.schedules|
    && match w.schedules[t.sched].state
       case Queued => multiset(w.ready)[t.id] + w.unsent[t.id] == 1
       case Idle => multiset(w.ready)[t.id] + w.unsent[t.id] == 0 && Armed(w.joins, w.timers, t)
       case _ => false
  }

  lemma NobodyStranded(w: World, job: Job, env: seq<Event>, n: nat, c: Conf, rest: seq<Event>, g: Ghost, id: nat)
    requires CanStart(w, job, g) && Reaches(w, job, env, n, c, rest)
    requires id in Whole(c.w, c.root)
    ensures Attended(c.w, Whole(c.w, c.root)[id])
    ensures g.parkless && NoPark(job.p) ==> !Whole(c.w, c.root)[id].future.stage.Parked?
  {
    var g1 := ReachedIsGood(w, job, env, n, c, rest, g);
    assert SchedInv(c.w.schedules, Tokens(c.w), Whole(c.w, c.root), NOBODY);
    assert Tokens(c.w)[id] == multiset(c.w.ready)[id] + c.w.unsent[id];
  }

  /* ---- Admission ---- */

  lemma TokenIsLive(c: Conf, g: Ghost, id: nat)
    requires Good(c, g) && (id in c.w.ready || id in c.w.unsent)
    ensures multiset(c.w.ready)[id] + c.w.unsent[id] == 1 && (id == ROOT || id in Drain(c.w).tasks)
  {
    hide Admitted;
    assert SchedInv(c.w.schedules, Tokens(c.w), Whole(c.w, c.root), NOBODY);
    assert Tokens(c.w)[id] == multiset(c.w.ready)[id] + c.w.unsent[id];
    assert id in c.w.ready ==> multiset(c.w.ready)[id] > 0;
  }

  lemma ReceivedIsAdmitted(w: World, env: seq<Event>, root: LocalTask, g: Ghost)
    requires Good(Conf(w, root), g)
    ensures match NextReady(w, env)
      case Received(v, _, id) => id == ROOT || id in v.tasks
      case Blocked(_) => true
  {
    hide NextReady, PollTask, Inv, Potential, EnvWeight, Admitted, Waited;
    var g1 := NextReadyKeeps(w, env, root, g);
    if NextReady(w, env).Received? && NextReady(w, env).id != ROOT {
      var _ := PollTaskKeeps(NextReady(w, env).w, NextReady(w, env).id, QUIET, root, g1);
    }
  }

  // The channel and the sends in flight name live tasks only, each at most once between them,
  // and the wait loop admits a task before it can hand out its id.
  lemma ChannelNamesLiveTasks(w: World, job: Job, env: seq<Event>, n: nat, c: Conf, rest: seq<Event>, g: Ghost)
    requires CanStart(w, job, g) && Reaches(w, job, env, n, c, rest)
    ensures !c.w.fault
    ensures forall id | id in c.w.ready || id in c.w.unsent ::
      multiset(c.w.ready)[id] + c.w.unsent[id] == 1 && (id == ROOT || id in Drain(c.w).tasks)
    ensures match NextReady(c.w, rest)
      case Received(v, _, id) => id == ROOT || id in v.tasks
      case Blocked(_) => true
  {
    hide Drive, Started, NextReady, PollTask, Good, Drain;
    var g1 := ReachedIsGood(w, job, env, n, c, rest, g);
    forall id | id in c.w.ready || id in c.w.unsent
      ensures multiset(c.w.ready)[id] + c.w.unsent[id] == 1 && (id == ROOT || id in Drain(c.w).tasks)
    {
      TokenIsLive(c, g1, id);
    }
    ReceivedIsAdmitted(c.w, rest, c.root, g1);
    NoFault(c, g1);
  }

  lemma NoFault(c: Conf, g: Ghost)
    requires Good(c, g)
    ensures !c.w.fault
  {}

  // No task, no token.
  lemma GoneHasNoToken(w: World, all: Population, g: Ghost, id: nat)
    requires Inv(w, all, NOBODY, g, {}) && id !in all
    ensures id !in w.ready && id !in w.unsent
  {
    assert Tokens(w)[id] == 0;
    assert id in w.ready ==> multiset(w.ready)[id] > 0;
  }

  // A completed task never comes back: not in the table, not in the channel, not in flight.
  lemma CompletedStaysGone(c: Conf, env: seq<Event>, n: nat, g: Ghost, id: nat)
    requires Good(c, g) && id < c.w.nextTask && id !in Whole(c.w, c.root)
    ensures match Drive(c, env, n)
      case Continue(c1, _) => id !in Whole(c1.w, c1.root) && id !in c1.w.ready && id !in c1.w.unsent
      case Exit(w1, _, _) => id !in Admitted(w1.tasks, w1.pending) && id !in w1.ready && id !in w1.unsent
      case Stuck(_) => true
  {
    hide Drive, Whole, Admitted, Inv, Spent;
    var g1 := DriveKeeps(c, env, n, g);
    match Drive(c, env, n)
    case Continue(c1, _) => GoneHasNoToken(c1.w, Whole(c1.w, c1.root), g1, id);
    case Exit(w1, _, _) => GoneHasNoToken(w1, Admitted(w1.tasks, w1.pending), g1, id);
    case Stuck(_) =>
  }

  // At every point of every run: a waker whose task is gone enqueues nothing and touches no live
  // task, whichever thread uses it. This covers the waker of the root of an earlier call, whose
  // id the current root shares.
  lemma DeadWakerIsInert(w: World, job: Job, env: seq<Event>, n: nat, c: Conf, rest: seq<Event>, g: Ghost, s: nat)
    requires CanStart(w, job, g) && Reaches(w, job, env, n, c, rest)
    requires forall id | id in Whole(c.w, c.root) :: Whole(c.w, c.root)[id].sched != s
    ensures Untouched(c, WakeSchedule(c.w, s)) && Untouched(c, Acted(c.w, Lock(s))) && Untouched(c, Acted(c.w, Send(s)))
  {
    hide CanStart, Reaches;
    var g1 := ReachedIsGood(w, job, env, n, c, rest, g);
    DeadIsInert(c, g1, s);
  }

  ghost predicate Untouched(c: Conf, v: World) {
    && v.ready == c.w.ready && v.unsent == c.w.unsent && v.tasks == c.w.tasks && v.joins == c.w.joins
        && v.timers == c.w.timers
    && |v.schedules| == |c.w.schedules|
    && forall id | id in Whole(c.w, c.root) && Whole(c.w, c.root)[id].sched < |v.schedules| ::
         v.schedules[Whole(c.w, c.root)[id].sched] == c.w.schedules[Whole(c.w, c.root)[id].sched]
  }

  lemma DeadIsInert(c: Conf, g: Ghost, s: nat)
    requires Good(c, g) && forall id | id in Whole(c.w, c.root) :: Whole(c.w, c.root)[id].sched != s
    ensures Untouched(c, WakeSchedule(c.w, s)) && Untouched(c, Acted(c.w, Lock(s))) && Untouched(c, Acted(c.w, Send(s)))
  {
    hide Whole, Inv;
    DeadIsSilent(c.w, Whole(c.w, c.root), g, s);
  }

  lemma DeadIsSilent(w: World, all: Population, g: Ghost, s: nat)
    requires Inv(w, all, NOBODY, g, {}) && forall id | id in all :: all[id].sched != s
    ensures s < |w.schedules| ==> !w.schedules[s].state.Idle? && !w.schedules[s].state.Queued?
  {}

  // When `block_on` returns, no root id is in the channel or in flight, and the old root's
  // schedule can never enqueue again.
  lemma RootLeavesNoToken(w: World, job: Job, env: seq<Event>, g: Ghost)
    requires CanStart(w, job, g) && BlockOn(w, job, env).Exit?
    ensures var v := BlockOn(w, job, env).w;
      && ROOT !in v.ready && ROOT !in v.unsent && ROOT !in v.tasks
      && forall s | 0 <= s < |v.schedules| && v.schedules[s].id == ROOT :: !WakeEnqueues(v.schedules[s].state)
          && !v.schedules[s].state.Queued?
  {
    hide BlockOn, Finish, Quiet, CanStart;
    var g1 := BlockOnEnds(w, job, env, g);
    QuietRoot(BlockOn(w, job, env).w, g1);
  }

  lemma QuietRoot(v: World, g: Ghost)
    requires Quiet(v, g)
    ensures ROOT !in v.ready && ROOT !in v.unsent && ROOT !in v.tasks
    ensures forall s | 0 <= s < |v.schedules| && v.schedules[s].id == ROOT ::
      !WakeEnqueues(v.schedules[s].state) && !v.schedules[s].state.Queued?
  {
    GoneHasNoToken(v, Admitted(v.tasks, v.pending), g, ROOT);
    QuietTasks(v);
  }

  lemma QuietTasks(w: World)
    requires ROOT !in Admitted(w.tasks, w.pending)
    ensures ROOT !in w.tasks
  {
    AdmittedKeys(w.tasks, w.pending);
  }

  /* ---- Join cells ---- */

  // Cells are created unresolved, resolve once, are consumed once, and never go back.
  ghost predicate Forward(a: Cells, b: Cells) {
    && |a| <= |b|
    && forall c | 0 <= c < |a| ::
         (a[c].Ready? ==> b[c] == a[c] || b[c].Consumed?) && (a[c].Consumed? ==> b[c].Consumed?)
  }

  // Cells and the clock go forward; the channel and the record of spawns only grow at their ends.
  ghost predicate Onward(w: World, v: World) {
    Forward(w.joins, v.joins) && w.ready <= v.ready && w.now <= v.now && w.origins <= v.origins
  }

  lemma OnwardTrans(w: World, w1: World, v: World)
    requires Onward(w, w1) && Onward(w1, v)
    ensures Onward(w, v)
  {
    forall c | 0 <= c < |w.joins|
      ensures (w.joins[c].Ready? ==> v.joins[c] == w.joins[c] || v.joins[c].Consumed?)
          && (w.joins[c].Consumed? ==> v.joins[c].Consumed?)
    {
      assert w1.joins[c] == w1.joins[c];
    }
  }

  lemma OnwardSame(w: World, v: World)
    requires v.joins == w.joins && w.ready <= v.ready && w.now <= v.now && w.origins <= v.origins
    ensures Onward(w, v)
  {}

  lemma OnwardCell(w: World, c: nat, j: JoinState<int>)
    requires c < |w.joins| && (w.joins[c].Pending? || (w.joins[c].Ready? && j.Consumed?))
    ensures Onward(w, w.(joins := w.joins[c := j]))
  {}

  lemma OnwardSpawn(w: World, p: Program)
    ensures Onward(w, Spawned(w, p).0)
  {}

  lemma {:induction false} PollOnward(w: World, me: nat, f: Future)
    ensures Onward(w, Poll(w, me, f).w)
    decreases StageWork(f.stage), if f.stage.Run? then 0 else 1
  {
    hide Onward, Spawned, WakeSchedule;
    match f.stage
    case Sleeping(deadline, reg, next) =>
      if w.now >= deadline {
        PollVia(w, w.(timers := w.timers - {reg}), me, f, f.(stage := Run(next)));
      } else {
        OnwardSame(w, Poll(w, me, f).w);
      }
    case Yielded(next) => PollVia(w, w, me, f, f.(stage := Run(next)));
    case Parked(next) => PollVia(w, w, me, f, f.(stage := Run(next)));
    case Run(p) => PollOnwardRun(w, me, f);
  }

  lemma PollOnwardRun(w: World, me: nat, f: Future)
    requires f.stage.Run?
    ensures Onward(w, Poll(w, me, f).w)
    decreases StageWork(f.stage), 0, 1
  {
    hide Onward, Spawned, WakeSchedule;
    match f.stage.p
    case Sleep(d, next) =>
      if d == 0 { PollVia(w, w, me, f, f.(stage := Run(next))); } else { OnwardSame(w, Poll(w, me, f).w); }
    case Spawn(child, next) => PollOnwardSpawn(w, me, f);
    case Join(k, ok, err) => PollOnwardJoin(w, me, f);
    case Yield(next) => WokenAppends(w, me); OnwardSame(w, WakeSchedule(w, me));
    case Wake(target, next) => WokenAppends(w, target);
        PollVia(w, WakeSchedule(w, target), me, f, f.(stage := Run(next)));
    case Busy(d, next) => PollVia(w, Elapse(w, d), me, f, f.(stage := Run(next)));
    case _ => OnwardSame(w, Poll(w, me, f).w);
  }

  lemma PollOnwardSpawn(w: World, me: nat, f: Future)
    requires f.stage.Run? && f.stage.p.Spawn?
    ensures Onward(w, Poll(w, me, f).w)
    decreases StageWork(f.stage), 0, 0
  {
    hide Onward, Spawned;
    var (w1, cell) := Spawned(w, f.stage.p.child);
    OnwardSpawn(w, f.stage.p.child);
    PollOnward(w1, me, f.(stage := Run(f.stage.p.next), handles := f.handles + [Some(cell)]));
    OnwardTrans(w, w1, Poll(w, me, f).w);
  }

  lemma WokenAppends(w: World, s: nat)
    ensures WakeSchedule(w, s).joins == w.joins && w.ready <= WakeSchedule(w, s).ready
        && WakeSchedule(w, s).now == w.now && WakeSchedule(w, s).origins == w.origins
  {}

  lemma PollVia(w: World, w1: World, me: nat, f: Future, f1: Future)
    requires w1.joins == w.joins && w.ready <= w1.ready && w.now <= w1.now && w.origins <= w1.origins
    requires StageWork(f1.stage) < StageWork(f.stage)
        || (StageWork(f1.stage) == StageWork(f.stage) && f1.stage.Run? && !f.stage.Run?)
    ensures Onward(w, Poll(w1, me, f1).w)
    decreases StageWork(f.stage), if f.stage.Run? then 0 else 1, 0
  {
    hide Onward, Poll;
    OnwardSame(w, w1);
    PollOnward(w1, me, f1);
    OnwardTrans(w, w1, Poll(w1, me, f1).w);
  }

  lemma PollOnwardJoin(w: World, me: nat, f: Future)
    requires f.stage.Run? && f.stage.p.Join?
    ensures Onward(w, Poll(w, me, f).w)
    decreases StageWork(f.stage), 0, 0
  {
    hide Onward;
    var p, k := f.stage.p, f.stage.p.k;
    if k < |f.handles| && f.handles[k].Some? && f.handles[k].value < |w.joins| {
      var c := f.handles[k].value;
      match w.joins[c]
      case Pending(_) => OnwardCell(w, c, JoinState.Pending(Some(me)));
      case Ready(r) =>
        OnwardCell(w, c, Consumed);
        var w1 := w.(joins := w.joins[c := Consumed]);
        var hs := f.handles[k := None];
        match r {
          case Ok(v) => PollOnward(w1, me, f.(stage := Run(p.ok), acc := f.acc + v, handles := hs));
          case Err(_) => PollOnward(w1, me, f.(stage := Run(p.err), handles := hs));
        }
        OnwardTrans(w, w1, Poll(w, me, f).w);
      case Consumed => OnwardSame(w, Poll(w, me, f).w);
    } else {
      OnwardSame(w, w);
    }
  }

  lemma ResolveOnward(w: World, t: LocalTask, f: Future, o: Outcome)
    ensures Onward(w, Resolve(w, t, f, o))
  {
    hide WakeSchedule;
    var w1 := w.(joins := Detached(w.joins, f.handles));
    if t.out.Some? && t.out.value < |w1.joins| && w1.joins[t.out.value].Pending? && w1.joins[t.out.value].waker.Some? {
      WokenAppends(w1.(joins := w1.joins[t.out.value := Ready(ResultOf(o))]), w1.joins[t.out.value].waker.value);
    }
  }

  lemma FinishAppends(w: World, s: nat, ready: bool)
    ensures FinishPoll(w, s, ready).joins == w.joins && w.ready <= FinishPoll(w, s, ready).ready
        && FinishPoll(w, s, ready).now == w.now && FinishPoll(w, s, ready).origins == w.origins
  {}

  lemma BegunOnward(w: World, s: nat, e: Event)
    ensures Onward(w, Outside(BeginPoll(w, s), e))
  {
    hide Onward, ActAll;
    var w1 := BeginPoll(w, s);
    assert w1.joins == w.joins && w1.ready == w.ready && w1.now == w.now && w1.origins == w.origins;
    hide BeginPoll;
    ActAllFrame(Elapse(w1, e.elapse), e.acts);
    OnwardSame(w, Outside(w1, e));
  }

  lemma PollTaskOnward(w: World, id: nat, e: Event)
    ensures Onward(w, PollTask(w, id, e))
  {
    hide Poll, Resolve, FinishPoll, Onward, Outside;
    if id in w.tasks {
      var t := w.tasks[id];
      var w1 := Outside(BeginPoll(w, t.sched), e);
      BegunOnward(w, t.sched, e);
      PollOnward(w1, t.sched, t.future);
      var r := Poll(w1, t.sched, t.future);
      OnwardTrans(w, w1, r.w);
      match r.res
      case Suspended =>
        FinishAppends(r.w.(tasks := r.w.tasks[id := t.(future := r.f)]), t.sched, false);
        OnwardSame(r.w, PollTask(w, id, e));
        OnwardTrans(w, r.w, PollTask(w, id, e));
      case Resolved(o) =>
        var v := Resolve(r.w, t, r.f, o);
        ResolveOnward(r.w, t, r.f, o);
        FinishAppends(v, t.sched, true);
        OnwardSame(v, PollTask(w, id, e));
        OnwardTrans(w, r.w, v);
        OnwardTrans(w, v, PollTask(w, id, e));
    } else {
      OnwardSame(w, PollTask(w, id, e));
    }
  }

  ghost function WorldOf(t: TurnResult): World {
    match t
    case Continue(c, _) => c.w
    case Exit(w, _, _) => w
    case Stuck(c) => c.w
  }

  lemma PollRootOnward(w: World, env: seq<Event>, root: LocalTask)
    ensures Onward(w, WorldOf(PollRoot(w, env, root)))
  {
    hide Poll, Resolve, FinishPoll, Onward, Outside;
    var w1 := Outside(BeginPoll(w, root.sched), Head(env));
    BegunOnward(w, root.sched, Head(env));
    PollOnward(w1, root.sched, root.future);
    var r := Poll(w1, root.sched, root.future);
    OnwardTrans(w, w1, r.w);
    match r.res
    case Suspended =>
      FinishAppends(r.w, root.sched, false);
      OnwardSame(r.w, FinishPoll(r.w, root.sched, false));
      OnwardTrans(w, r.w, FinishPoll(r.w, root.sched, false));
    case Resolved(o) =>
      var v := Resolve(r.w, root, r.f, o);
      ResolveOnward(r.w, root, r.f, o);
      OnwardTrans(w, r.w, v);
      FinishAppends(v, root.sched, true);
      OnwardSame(v, FinishPoll(v, root.sched, true));
      OnwardTrans(w, v, FinishPoll(v, root.sched, true));
  }

  // Over any number of rounds, no cell goes back.
  lemma {:induction false} CellsGoForward(c: Conf, env: seq<Event>, n: nat)
    ensures Forward(c.w.joins, WorldOf(Drive(c, env, n)).joins)
    decreases n
  {
    hide NextReady, PollTask, PollRoot;
    if n > 0 {
      PollsBeginTimely(c.w, env);
      match NextReady(c.w, env)
      case Blocked(_) =>
      case Received(w, rest, id) =>
        if id == ROOT { PollRootOnward(w, rest, c.root); } else { PollTaskOnward(w, id, Head(rest)); }
        match Turn(c, env)
        case Continue(c1, rest1) =>
          CellsGoForward(c1, rest1, n - 1);
          ForwardTrans(c.w.joins, c1.w.joins, WorldOf(Drive(c1, rest1, n - 1)).joins);
        case Exit(_, _, _) =>
        case Stuck(_) =>
    }
  }

  lemma ForwardTrans(a: Cells, b: Cells, c: Cells)
    requires Forward(a, b) && Forward(b, c)
    ensures Forward(a, c)
  {
    forall i | 0 <= i < |a|
      ensures (a[i].Ready? ==> c[i] == a[i] || c[i].Consumed?) && (a[i].Consumed? ==> c[i].Consumed?)
    {
      assert b[i] == b[i];
    }
  }

  // The live tasks when a number of rounds is over.
  ghost function PopulationOf(t: TurnResult): Population {
    match t
    case Continue(c, _) => Whole(c.w, c.root)
    case Exit(w, _, _) => Admitted(w.tasks, w.pending)
    case Stuck(c) => Whole(c.w, c.root)
  }

  // What the program denotes that the task of a cell was spawned with, from the time it was.
  ghost function DueOf(w: World, cell: nat): Done
    requires cell < |w.origins|
  {
    Finish(w.origins[cell].p, w.origins[cell].at, 0, [])
  }

  // Unresolved exactly while its task is live, and not beyond the time it is due if ends are
  // exact; once resolved, not before it is due, and with the outcome that is due: the value, or
  // the news that the task panicked. None says that its task was cancelled.
  ghost predicate TellsTheTruth(w: World, all: Population, cell: nat, exact: bool)
    requires cell < |w.origins| == |w.joins|
  {
    && (w.joins[cell].Pending? <==> exists id :: id in all && all[id].out == Some(cell))
    && (w.joins[cell].Pending? && exact ==> w.now <= DueOf(w, cell).at)
    && (!w.joins[cell].Pending? ==> DueOf(w, cell).at <= w.now)
    && (w.joins[cell].Ready? ==>
          w.joins[cell].result == (match DueOf(w, cell).out
                                   case Value(v) => Ok(v)
                                   case Panicked => Err(JoinError.Panic)))
    && w.joins[cell] != Ready(Err(Cancelled))
  }

  lemma CellTruth(w: World, all: Population, cur: int, g: Ghost, cell: nat)
    requires Inv(w, all, cur, g, {}) && cell < |w.joins| && g.faithful
    ensures |w.origins| == |w.joins| && TellsTheTruth(w, all, cell, Exact(w, g))
  {
    hide SchedInv, OpenInv, FlightInv, WaiterInv, KeptInv, TimerInv, ArmInv, IdInv, Finish, Predict;
    if w.joins[cell].Pending? {
      var t := all[g.hist[cell].owner];
      assert g.hist[cell].owner in all && t.out == Some(cell);
      PredictMonotone(t.future, w.now, w.now, g.hist);
    }
  }

  lemma DriveIsSound(w: World, job: Job, env: seq<Event>, n: nat, g: Ghost) returns (g1: Ghost)
    requires CanStart(w, job, g)
    ensures var t := Drive(Started(w, job), env, n);
      && Inv(WorldOf(t), PopulationOf(t), NOBODY, g1, {}) && w.origins <= WorldOf(t).origins
      && g1 == Launched(w, job, g).(hist := g1.hist, open := g1.open)
  {
    hide Inv, CanStart, Drive, Started, Finish, Effort, Adopted, Surrendered, OpenAfter, Prompt, Whole, Admitted;
    StartKeeps(w, job, g);
    g1 := DriveKeeps(Started(w, job), env, n, Launched(w, job, g));
  }

  // After any number of rounds of any call, whether it has returned or not, every cell tells the
  // truth about the program its task was spawned with, be it by a task or from outside.
  lemma CellsTellTheTruth(w: World, job: Job, env: seq<Event>, n: nat, g: Ghost, cell: nat)
    requires CanStart(w, job, g) && cell < |WorldOf(Drive(Started(w, job), env, n)).joins|
    ensures var t := Drive(Started(w, job), env, n);
      var v := WorldOf(t);
      && w.origins <= v.origins && |v.origins| == |v.joins|
      && TellsTheTruth(v, PopulationOf(t), cell, v.paused && v.overtaken == g.since && g.parkless && NoPark(job.p))
  {
    assert g.faithful;
    hide Inv, CanStart, Drive, Started, Adopted, Surrendered, TellsTheTruth;
    var g1 := DriveIsSound(w, job, env, n, g);
    var t := Drive(Started(w, job), env, n);
    CellTruth(WorldOf(t), PopulationOf(t), NOBODY, g1, cell);
    assert Exact(WorldOf(t), g1)
        == (WorldOf(t).paused && WorldOf(t).overtaken == g.since && g.parkless && NoPark(job.p));
  }

  // A cell that resolves in a round of a run on a paused clock that has overtaken no wake in
  // flight does so at the very time it is due.
  lemma ResolvesWhenDue(w: World, job: Job, env: seq<Event>, n: nat, c: Conf, rest: seq<Event>, g: Ghost, cell: nat)
    requires CanStart(w, job, g) && Reaches(w, job, env, n, c, rest)
    requires g.parkless && NoPark(job.p) && c.w.paused
    requires cell < |c.w.joins| && c.w.joins[cell].Pending?
    ensures var v := WorldOf(Turn(c, rest));
      && |c.w.origins| == |c.w.joins| && cell < |v.joins|
      && (v.overtaken == g.since && !v.joins[cell].Pending? ==> v.now == DueOf(c.w, cell).at)
  {
    assert g.faithful;
    hide CanStart, Reaches, Adopted, Surrendered, Turn, Good;
    var g1 := ReachedIsGood(w, job, env, n, c, rest, g);
    TurnResolvesWhenDue(c, rest, g1, cell);
  }

  lemma TurnResolvesWhenDue(c: Conf, env: seq<Event>, g: Ghost, cell: nat)
    requires Good(c, g) && g.parkless && g.faithful && c.w.paused && cell < |c.w.joins| && c.w.joins[cell].Pending?
    ensures var v := WorldOf(Turn(c, env));
      && |c.w.origins| == |c.w.joins| && cell < |v.joins|
      && (v.overtaken == g.since && !v.joins[cell].Pending? ==> v.now == DueOf(c.w, cell).at)
  {
    hide Inv, NextReady, PollTask, PollRoot, Finish, EnvWeight, Potential, Admitted, Spent, DueOf;
    CellTruth(c.w, Whole(c.w, c.root), NOBODY, g, cell);
    var g0 := NextReadyKeeps(c.w, env, c.root, g);
    match NextReady(c.w, env)
    case Blocked(_) =>
    case Received(w, rest, id) =>
      WaitedFacts(c.w, env, g, w, rest, g0);
      CellTruth(Held(w, id), Whole(w, c.root), NOBODY, g0, cell);
      assert DueOf(Held(w, id), cell) == DueOf(c.w, cell) by { DueSame(c.w, Held(w, id), cell); }
      NothingPending(w);
      if id == ROOT {
        var g1 := PollRootKeeps(w, rest, c.root, g0);
        RootPollIsTrue(c, w, rest, g0, g1, cell);
      } else {
        var g1 := PollTaskKeeps(w, id, Head(rest), c.root, g0);
        var v := PollTask(w, id, Head(rest));
        PollTaskOnward(w, id, Head(rest));
        CellTruth(v, Whole(v, c.root), NOBODY, g1, cell);
        DueSame(c.w, v, cell);
      }
  }

  lemma RootPollIsTrue(c: Conf, w: World, env: seq<Event>, g: Ghost, g1: Ghost, cell: nat)
    requires cell < |c.w.joins| == |c.w.origins| && c.w.origins <= w.origins && cell < |w.joins| && g1.faithful
    requires match PollRoot(w, env, c.root)
      case Continue(c1, _) => Good(c1, g1)
      case Exit(v, _, _) => Quiet(v, g1)
      case Stuck(_) => false
    ensures var v := WorldOf(PollRoot(w, env, c.root));
      cell < |v.joins| && (!v.joins[cell].Pending? ==> DueOf(c.w, cell).at <= v.now)
  {
    hide Inv, PollRoot, Finish, DueOf;
    PollRootOnward(w, env, c.root);
    var v := WorldOf(PollRoot(w, env, c.root));
    match PollRoot(w, env, c.root)
    case Continue(c1, _) => CellTruth(v, Whole(v, c1.root), NOBODY, g1, cell); DueSame(c.w, v, cell);
    case Exit(_, _, _) => CellTruth(v, Admitted(v.tasks, v.pending), NOBODY, g1, cell); DueSame(c.w, v, cell);
  }

  lemma WaitedFacts(w: World, env: seq<Event>, g: Ghost, v: World, rest: seq<Event>, g1: Ghost)
    requires Waited(w, env, g, v, rest, g1)
    ensures v.paused == w.paused && v.joins == w.joins && v.origins == w.origins && g1.parkless == g.parkless
        && g1.since == g.since && g1.faithful == g.faithful && w.now <= v.now
  {}

  lemma DueSame(w: World, v: World, cell: nat)
    requires cell < |w.origins| && w.origins <= v.origins
    ensures DueOf(v, cell) == DueOf(w, cell)
  {}

  /* ---- Timers ---- */

  // When a poll begins, every live registration's deadline lies after the moment the wait
  // began; with a paused clock, even after the present. No registration appears during the wait.
  ghost predicate TimelyReceipt(w: World, r: Received) {
    match r
    case Received(v, _, _) =>
      && (forall t | t in v.timers :: t in w.timers && v.timers[t] == w.timers[t] && v.timers[t].deadline > w.now)
      && (w.paused ==> NoneDue(v.timers, v.now)) && v.paused == w.paused && w.now <= v.now && v.joins == w.joins
    case Blocked(v) => v.timers == map[] && v.joins == w.joins
  }

  lemma TimelyOnward(w: World, w1: World, r: Received)
    requires TimelyReceipt(w1, r) && w1.paused == w.paused && w.now <= w1.now && w1.joins == w.joins
    requires forall t | t in w1.timers :: t in w.timers && w1.timers[t] == w.timers[t]
    ensures TimelyReceipt(w, r)
  {}

  lemma TidyFrame(w: World, e: Event)
    ensures var w1 := Expire(Drain(Outside(w, e)));
      && w1.timers == Remaining(w.timers, w1.now) && w1.paused == w.paused && w.now <= w1.now && w1.joins == w.joins
  {
    ActAllFrame(Elapse(w, e.elapse), e.acts);
    var v := Drain(Outside(w, e));
    WakeAllFrame(v.(timers := Remaining(v.timers, v.now)), Wakers(v.timers, Due(v.timers, v.now)));
  }

  lemma {:induction false} PollsBeginTimely(w: World, env: seq<Event>)
    ensures TimelyReceipt(w, NextReady(w, env))
    decreases |env|, |Remaining(w.timers, w.now)|, 1
  {
    hide Outside, Expire, Drain;
    var w1 := Expire(Drain(Outside(w, Head(env))));
    TidyFrame(w, Head(env));
    TidyTimers(w, env);
    if w1.ready != [] {
    } else if w1.paused && w1.timers != map[] {
      var d := NextDeadline(w1.timers).value;
      EarliestLeaves(w1.timers, w1.now, d);
      PollsBeginTimely(Jumped(w1), Tail(env));
      TimelyOnward(w, Jumped(w1), NextReady(Jumped(w1), Tail(env)));
    } else {
      WaitsTimely(w1, Tail(env));
      TimelyOnward(w, w1, Wait(w1, Tail(env)));
    }
  }

  lemma {:induction false} WaitsTimely(w: World, env: seq<Event>)
    requires NoneDue(w.timers, w.now) && (w.paused ==> w.timers == map[])
    ensures TimelyReceipt(w, Wait(w, env))
    decreases |env|, |Remaining(w.timers, w.now)|, 0
  {
    if env == [] {
      if w.timers != map[] {
        var d := NextDeadline(w.timers).value;
        EarliestLeaves(w.timers, w.now, d);
        PollsBeginTimely(w.(now := d), []);
        TimelyOnward(w, w.(now := d), NextReady(w.(now := d), []));
      }
    } else {
      var w1 := Outside(w, env[0]);
      ActAllFrame(Elapse(w, env[0].elapse), env[0].acts);
      if w1.ready != [] {
      } else if NoneDue(w1.timers, w1.now) {
        WaitsTimely(w1, env[1..]);
        TimelyOnward(w, w1, Wait(w1, env[1..]));
      } else {
        PollsBeginTimely(w1, env[1..]);
        TimelyOnward(w, w1, NextReady(w1, env[1..]));
      }
    }
  }

  // No oversleeping: a deadline that has passed when a poll begins is dealt with before the
  // next poll begins, so a registration is overdue for at most one poll.
  lemma OverdueForOnePollAtMost(c: Conf, env: seq<Event>, c1: Conf, rest: seq<Event>)
    requires Turn(c, env) == Continue(c1, rest) && NextReady(c1.w, rest).Received?
    ensures NextReady(c.w, env).Received?
    ensures forall t | t in NextReady(c1.w, rest).w.timers ::
      NextReady(c1.w, rest).w.timers[t].deadline > NextReady(c.w, env).w.now
  {
    hide NextReady, PollTask, PollRoot;
    var r := NextReady(c.w, env);
    PollsBeginTimely(c1.w, rest);
    PollRootOnward(r.w, r.env, c.root);
    PollTaskOnward(r.w, r.id, Head(r.env));
    PollRootMoves(r.w, r.env, c.root);
  }

  // A paused clock jumps only to the earliest live deadline, which lies ahead, so the check in
  // `advance_to` never fails and no deadline is passed; the next expiry then removes at least
  // one registration.
  lemma AutoAdvanceIsSafe(w: World)
    requires NoneDue(w.timers, w.now) && w.timers != map[]
    ensures var d := NextDeadline(w.timers).value;
      && w.now < d && (exists r :: r in w.timers && w.timers[r].deadline == d)
      && (forall r | r in w.timers :: d <= w.timers[r].deadline)
      && |Expire(Jumped(w)).timers| < |w.timers| && Jumped(w).now == d
  {
    var d := NextDeadline(w.timers).value;
    EarliestLeaves(w.timers, w.now, d);
    assert Remaining(w.timers, w.now) == w.timers;
    var v := Jumped(w);
    WakeAllFrame(v.(timers := Remaining(v.timers, v.now)), Wakers(v.timers, Due(v.timers, v.now)));
    assert w.timers[Earliest(w.timers)].deadline == d;
  }

  /* ---- The channel is a queue ---- */

  ghost predicate InOrder(env: seq<Event>) {
    forall i | 0 <= i < |env| :: env[i].pick == 0
  }

  // The wait loop takes the head and leaves the rest in place.
  ghost predicate TakesHead(w: World, r: Received) {
    w.ready != [] ==> r.Received? && r.id == w.ready[0] && w.ready[1..] <= r.w.ready
  }

  lemma NextReadyTakesHead(w: World, env: seq<Event>)
    requires InOrder(env)
    ensures TakesHead(w, NextReady(w, env))
  {
    if w.ready != [] {
      var e := Head(env);
      assert e.pick == 0;
      ActAllFrame(Elapse(w, e.elapse), e.acts);
      var v := Drain(Outside(w, e));
      WakeAllFrame(v.(timers := Remaining(v.timers, v.now)), Wakers(v.timers, Due(v.timers, v.now)));
      var w1 := Expire(v);
      assert w.ready <= w1.ready;
      assert w1.ready[..0] + w1.ready[1..] == w1.ready[1..];
    }
  }

  lemma TurnTakesHead(c: Conf, env: seq<Event>)
    requires InOrder(env) && c.w.ready != []
    ensures !Turn(c, env).Stuck?
    ensures NextReady(c.w, env).Received? && NextReady(c.w, env).id == c.w.ready[0]
    ensures c.w.ready[1..] <= WorldOf(Turn(c, env)).ready
  {
    hide NextReady, PollTask, PollRoot;
    NextReadyTakesHead(c.w, env);
    var r := NextReady(c.w, env);
    PollRootOnward(r.w, r.env, c.root);
    PollTaskOnward(r.w, r.id, Head(r.env));
    PollRootMoves(r.w, r.env, c.root);
  }

  lemma PollRootMoves(w: World, env: seq<Event>, root: LocalTask)
    ensures !PollRoot(w, env, root).Stuck?
  {}

  // The ids received in the first `n` rounds.
  ghost function Served(c: Conf, env: seq<Event>, n: nat): seq<nat>
    decreases n
  {
    if n == 0 then []
    else
      match NextReady(c.w, env)
      case Blocked(_) => []
      case Received(_, _, id) =>
        [id] + match Turn(c, env)
               case Continue(c1, rest) => Served(c1, rest, n - 1)
               case Exit(_, _, _) => []
               case Stuck(_) => []
  }

  lemma {:induction false} WaitKeepsOrder(w: World, env: seq<Event>)
    requires InOrder(env)
    ensures NextReady(w, env).Received? ==> InOrder(NextReady(w, env).env)
    decreases |env|, |Remaining(w.timers, w.now)|, 1
  {
    hide Outside, Expire, Drain;
    var w1 := Expire(Drain(Outside(w, Head(env))));
    TidyFrame(w, Head(env));
    TidyTimers(w, env);
    if w1.ready != [] {
    } else if w1.paused && w1.timers != map[] {
      var d := NextDeadline(w1.timers).value;
      EarliestLeaves(w1.timers, w1.now, d);
      WaitKeepsOrder(Jumped(w1), Tail(env));
    } else {
      WaitOrder(w1, Tail(env));
    }
  }

  lemma {:induction false} WaitOrder(w: World, env: seq<Event>)
    requires InOrder(env) && NoneDue(w.timers, w.now)
    ensures Wait(w, env).Received? ==> InOrder(Wait(w, env).env)
    decreases |env|, |Remaining(w.timers, w.now)|, 0
  {
    if env == [] {
      if w.timers != map[] {
        var d := NextDeadline(w.timers).value;
        EarliestLeaves(w.timers, w.now, d);
        WaitKeepsOrder(w.(now := d), []);
      }
    } else {
      var w1 := Outside(w, env[0]);
      ActAllFrame(Elapse(w, env[0].elapse), env[0].acts);
      if w1.ready != [] {
      } else if NoneDue(w1.timers, w1.now) {
        WaitOrder(w1, env[1..]);
      } else {
        WaitKeepsOrder(w1, env[1..]);
      }
    }
  }

  // Bounded waiting: the entry at position k is received after exactly k others, however many
  // tasks those polls wake or spawn; entries not reached are still in place, in order, when
  // the call ends.
  lemma {:induction false} ServedInOrder(c: Conf, env: seq<Event>, n: nat)
    requires InOrder(env)
    ensures var s := Served(c, env, n);
      && |s| <= n
      && (forall k | 0 <= k < |s| && k < |c.w.ready| :: s[k] == c.w.ready[k])
      && (|s| < |c.w.ready| ==> c.w.ready[|s|..] <= WorldOf(Drive(c, env, n)).ready)
      && (|s| < n && |s| < |c.w.ready| ==> Drive(c, env, n).Exit?)
    decreases n
  {
    hide NextReady, PollTask, PollRoot;
    if n > 0 {
      WaitKeepsOrder(c.w, env);
      if c.w.ready != [] { TurnTakesHead(c, env); }
      if NextReady(c.w, env).Received? {
        match Turn(c, env)
        case Continue(c1, rest) =>
          TurnEnv(c, env);
          TailInOrder(NextReady(c.w, env).env);
          ServedInOrder(c1, rest, n - 1);
          ServedStep(c, env, n, c1, rest);
        case Exit(_, _, _) =>
        case Stuck(_) =>
      }
    }
  }

  lemma TailInOrder(env: seq<Event>)
    requires InOrder(env)
    ensures InOrder(Tail(env)) && Head(env).pick == 0
  {}

  lemma TurnEnv(c: Conf, env: seq<Event>)
    ensures Turn(c, env).Continue? ==>
      NextReady(c.w, env).Received? && Turn(c, env).env == Tail(NextReady(c.w, env).env)
  {}

  lemma ServedStep(c: Conf, env: seq<Event>, n: nat, c1: Conf, rest: seq<Event>)
    requires n > 0 && Turn(c, env) == Continue(c1, rest) && NextReady(c.w, env).Received?
    requires c.w.ready != [] ==> NextReady(c.w, env).id == c.w.ready[0] && c.w.ready[1..] <= c1.w.ready
    requires var s := Served(c1, rest, n - 1);
      && (forall k | 0 <= k < |s| && k < |c1.w.ready| :: s[k] == c1.w.ready[k])
      && (|s| < |c1.w.ready| ==> c1.w.ready[|s|..] <= WorldOf(Drive(c1, rest, n - 1)).ready)
    ensures var s := Served(c, env, n);
      && s == [NextReady(c.w, env).id] + Served(c1, rest, n - 1)
      && (forall k | 0 <= k < |s| && k < |c.w.ready| :: s[k] == c.w.ready[k])
      && (|s| < |c.w.ready| ==> c.w.ready[|s|..] <= WorldOf(Drive(c, env, n)).ready)
  {
    hide NextReady, Turn;
    var s1 := Served(c1, rest, n - 1);
    if 1 + |s1| < |c.w.ready| {
      assert c.w.ready[1 + |s1|..] == c.w.ready[1..][|s1|..];
      assert c.w.ready[1..][|s1|..] <= c1.w.ready[|s1|..];
    }
  }

  // This carries over into the next call: whatever earlier calls have left in the channel is
  // served first, in order, and the new root comes right after it.
  lemma LeftoversGoFirst(w: World, job: Job, env: seq<Event>, n: nat)
    requires InOrder(env)
    ensures var s := Served(Started(w, job), env, n);
      && (forall k | 0 <= k < |s| && k < |w.ready| :: s[k] == w.ready[k])
      && (|s| > |w.ready| ==> s[|w.ready|] == ROOT)
  {
    hide Served;
    ServedInOrder(Started(w, job), env, n);
    assert Started(w, job).w.ready == w.ready + [ROOT];
  }
}
