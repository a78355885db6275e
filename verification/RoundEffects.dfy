/** One round of the executor's loop as its tasks see it: the received task's future follows its
    program, everything that program asks for reaches the others, and nothing else does. */
module RoundEffects {
  import opened Wrappers
  import opened TimerSpec
  import opened ScheduleState
  import opened JoinSpec
  import opened Programs
  import opened ExecutorSpec
  import opened Invariant
  import opened PollInvariant
  import opened TurnInvariant
  import opened WaitInvariant
  import opened VirtualTime
  import opened RunProperties
  import opened PollEffects

  /* ---- The world in which a future is called ---- */

  // The task is being polled, and `d` has passed since it was received.
  function Called(w: World, s: nat, d: nat): World
    requires s < |w.schedules|
  {
    w.(now := if w.paused then w.now else w.now + d,
       schedules := w.schedules[s := w.schedules[s].(state := State.Running(false))])
  }

  // Other threads wake, and send what has been decided on: a schedule whose lock was taken is
  // queued if it was idle and has noted the wake if it was running; no other has changed.
  ghost predicate Meddled(w: World, acts: seq<Act>, v: World) {
    && v == w.(schedules := v.schedules, ready := v.ready, unsent := v.unsent)
    && w.ready <= v.ready && |v.schedules| == |w.schedules|
    && forall s | 0 <= s < |w.schedules| ::
         && v.schedules[s].id == w.schedules[s].id
         && if Lock(s) in acts then
              && (w.schedules[s].state.Idle? ==> v.schedules[s].state.Queued?)
              && (w.schedules[s].state.Running? ==> v.schedules[s].state == State.Running(true))
              && (w.schedules[s].state.Queued? || w.schedules[s].state.Complete? ==>
                    v.schedules[s].state == w.schedules[s].state)
            else v.schedules[s].state == w.schedules[s].state
  }

  lemma {:induction false} ActsMeddle(w: World, acts: seq<Act>)
    ensures Meddled(w, acts, ActAll(w, acts))
    decreases |acts|
  {
    if acts != [] {
      ActMeddles(w, acts[0]);
      ActsMeddle(Acted(w, acts[0]), acts[1..]);
      hide Acted;
      MeddledTrans(w, acts[0], Acted(w, acts[0]), acts[1..], ActAll(w, acts));
      assert [acts[0]] + acts[1..] == acts;
    }
  }

  lemma ActMeddles(w: World, a: Act)
    ensures Meddled(w, [a], Acted(w, a))
  {}

  lemma MeddledTrans(u: World, a: Act, v: World, acts: seq<Act>, w: World)
    requires Meddled(u, [a], v) && Meddled(v, acts, w)
    ensures Meddled(u, [a] + acts, w)
  {
    forall s: nat ensures Lock(s) in [a] + acts <==> Lock(s) in [a] || Lock(s) in acts {}
  }

  // How a received task's poll begins.
  ghost predicate Begins(w: World, s: nat, e: Event, w0: World) {
    s < |w.schedules| && Meddled(Called(w, s, e.elapse), e.acts, w0) && (e.acts == [] ==> w0 == Called(w, s, e.elapse))
  }

  lemma PollBegins(w: World, s: nat, e: Event)
    requires s < |w.schedules| && w.schedules[s].state.Queued?
    ensures Begins(w, s, e, Outside(BeginPoll(w, s), e))
  {
    ActsMeddle(Called(w, s, e.elapse), e.acts);
  }

  /* ---- The end of the round ---- */

  // `s` waits for the result of the task.
  predicate WaitsFor(w: World, t: LocalTask, s: nat) {
    t.out.Some? && t.out.value < |w.joins| && w.joins[t.out.value] == JoinState.Pending(Some(s))
  }

  // The future has returned `r`. A task that suspends is stored back; it is queued behind all
  // others if a wake was noted during the poll, and rests otherwise. A task that ends leaves for
  // good, its cell says how it ended, and whoever waits for it is queued if it is idle; a root
  // that panics unwinds and leaves its schedule as it is.
  ghost predicate Ends(c: Conf, t: LocalTask, r: PollResult, x: TurnResult)
    requires t.sched < |r.w.schedules|
  {
    var v, before := WorldOf(x), r.w.schedules[t.sched];
    match r.res
    case Suspended =>
      && x.Continue? && x.c.root == (if t.id == ROOT then t.(future := r.f) else c.root)
      && v.tasks == (if t.id == ROOT then r.w.tasks else r.w.tasks[t.id := t.(future := r.f)])
      && v.schedules ==
         r.w.schedules[t.sched := before.(state := if before.state == State.Running(true) then Queued else Idle)]
      && v.ready == r.w.ready + (if before.state == State.Running(true) then [t.id] else [])
      && v.joins == r.w.joins && v.timers == r.w.timers && v.pending == r.w.pending && v.now == r.w.now
    case Resolved(o) =>
      && (if t.id == ROOT then x.Exit? && x.out == o else x.Continue? && x.c.root == c.root)
      && v.tasks == r.w.tasks - {t.id}
      && |v.schedules| == |r.w.schedules| && |v.joins| == |r.w.joins|
      && v.schedules[t.sched] ==
         before.(state := if t.id == ROOT && o.Panicked? then before.state else Complete)
      && (t.id != ROOT ==> t.out.Some? && t.out.value < |v.joins| && v.joins[t.out.value] == match o
            case Value(a) => Ready(Ok(a))
            case Panicked => Ready(Err(JoinError.Panic)))
      && r.w.ready <= v.ready && |v.ready| <= |r.w.ready| + 1
      && (forall s | 0 <= s < |r.w.schedules| && s != t.sched :: Rested(r.w, t, s, v))
      && v.timers == r.w.timers && v.pending == r.w.pending && v.now == r.w.now
  }

  // What the end of a task means to the schedule `s` of another one.
  ghost predicate Rested(w: World, t: LocalTask, s: nat, v: World)
    requires s < |w.schedules| == |v.schedules|
  {
    if WaitsFor(w, t, s) && w.schedules[s].state.Idle? then
      v.schedules[s] == w.schedules[s].(state := Queued) && v.ready == w.ready + [w.schedules[s].id]
    else v.schedules[s] == w.schedules[s]
  }

  // One round: a sleep whose deadline lies ahead stays as it is, any other future follows its
  // program.
  ghost predicate Follows(w0: World, t: LocalTask, ds: seq<Deed>, q: Program, at: seq<nat>, r: PollResult) {
    var st := t.future.stage;
    if st.Sleeping? && w0.now < st.deadline then
      ds == [] && at == [] && r == PollResult(w0, t.future, Suspended)
    else Course(w0, t.sched, t.future, Onset(st), ds, q, at, r)
  }

  /* ---- Proofs ---- */

  lemma SleeperStays(w: World, me: nat, f: Future)
    requires f.stage.Sleeping? && w.now < f.stage.deadline
    requires f.stage.reg in w.timers && w.timers[f.stage.reg].waker == me
    ensures Poll(w, me, f) == PollResult(w, f, Suspended)
  {
    assert w.timers[f.stage.reg := w.timers[f.stage.reg].(waker := me)] == w.timers;
  }

  // What the invariant says of a received task.
  lemma ReceivedTask(w: World, id: nat, root: LocalTask, g: Ghost)
    requires root.id == ROOT && w.pending == [] && ROOT !in w.tasks
    requires Inv(Held(w, id), Whole(w, root), NOBODY, g, {})
    ensures (id == ROOT || id in w.tasks) && id in Whole(w, root)
    ensures var t := if id == ROOT then root else w.tasks[id];
      && t == Whole(w, root)[id] && t.id == id && t.sched < |w.schedules| && w.schedules[t.sched].state.Queued?
      && w.schedules[t.sched].id == id && !w.closed && !w.fault && (t.out.Some? <==> id != ROOT)
      && (t.future.stage.Sleeping? && w.now < t.future.stage.deadline ==>
            t.future.stage.reg in w.timers && w.timers[t.future.stage.reg].waker == t.sched)
  {
    assert Tokens(Held(w, id)) == Tokens(w) + multiset{id};
    BeginSched(w.schedules, Tokens(w), Whole(w, root), id);
    var t := Whole(w, root)[id];
    if t.future.stage.Sleeping? {
      assert SleepOk(w.timers, w.nextTimer, w.now, t);
    }
  }

  lemma FutureFollows(w0: World, t: LocalTask) returns (ds: seq<Deed>, q: Program, at: seq<nat>)
    requires UnderPoll(w0, t.sched)
    requires t.future.stage.Sleeping? && w0.now < t.future.stage.deadline ==>
      t.future.stage.reg in w0.timers && w0.timers[t.future.stage.reg].waker == t.sched
    ensures Follows(w0, t, ds, q, at, Poll(w0, t.sched, t.future))
    ensures t.sched < |Poll(w0, t.sched, t.future).w.schedules|
    ensures Poll(w0, t.sched, t.future).w.schedules[t.sched].state.Running?
  {
    hide Passes, InTurn, Taken, Timed, Stops, Peopled, Poll;
    if t.future.stage.Sleeping? && w0.now < t.future.stage.deadline {
      ds, q, at := [], t.future.stage.next, [];
      SleeperStays(w0, t.sched, t.future);
    } else {
      ds, q, at := PollCourse(w0, t.sched, t.future);
    }
  }

  lemma SuspendEnds(w: World, s: nat)
    requires s < |w.schedules| && w.schedules[s].state.Running?
    ensures var v, x := FinishPoll(w, s, false), w.schedules[s];
      && v.schedules == w.schedules[s := x.(state := if x.state == State.Running(true) then Queued else Idle)]
      && v.ready == w.ready + (if x.state == State.Running(true) then [x.id] else [])
      && v == w.(schedules := v.schedules, ready := v.ready)
  {}

  // The task's own cell is unresolved and it holds no handle to it.
  lemma OwnCell(w: World, all: Population, cur: int, g: Ghost, f: Future)
    requires Inside(w, all, cur, g, f)
    ensures all[cur].out.Some? <==> cur != ROOT
    ensures cur != ROOT ==>
      && all[cur].out.value < |w.joins| && w.joins[all[cur].out.value].Pending?
      && Some(all[cur].out.value) !in f.handles && all[cur].out.value < |Detached(w.joins, f.handles)|
      && Detached(w.joins, f.handles)[all[cur].out.value] == w.joins[all[cur].out.value]
  {
    if cur != ROOT {
      forall k | 0 <= k < |f.handles| ensures f.handles[k] != Some(all[cur].out.value) {
        assert HandleOk(w.joins, g.hist, all[cur], k);
      }
    }
  }

  // A waiter is not the task itself.
  lemma WaiterIsOther(w: World, all: Population, cur: int, g: Ghost, f: Future, s: nat)
    requires Inside(w, all, cur, g, f) && all[cur].out.Some? && WaitsFor(w, all[cur], s)
    ensures s != all[cur].sched && s < |w.schedules| && !w.schedules[s].state.Running?
  {
    OwnCell(w, all, cur, g, f);
    var c := all[cur].out.value;
    assert Awaited(w.joins, w.schedules, all, c);
    var f1 := all[w.schedules[s].id].future;
    assert f1.handles[f1.stage.p.k] == Some(c);
  }

  lemma PublishEnds(w: World, c: nat, res: Result<int, JoinError>)
    requires c < |w.joins| && w.joins[c].Pending?
    requires w.joins[c].waker.Some? ==>
      w.joins[c].waker.value < |w.schedules| && !w.schedules[w.joins[c].waker.value].state.Running?
    ensures var v := Publish(w, c, res);
      && v == w.(schedules := v.schedules, joins := w.joins[c := Ready(res)], ready := v.ready)
      && |v.schedules| == |w.schedules| && w.ready <= v.ready && |v.ready| <= |w.ready| + 1
      && forall s | 0 <= s < |w.schedules| ::
           if w.joins[c].waker == Some(s) && w.schedules[s].state.Idle? then
             v.schedules[s] == w.schedules[s].(state := Queued) && v.ready == w.ready + [w.schedules[s].id]
           else v.schedules[s] == w.schedules[s]
  {}

  lemma CompleteEnds(w: World, s: nat)
    requires s < |w.schedules| && w.schedules[s].state.Running?
    ensures FinishPoll(w, s, true) == w.(schedules := w.schedules[s := w.schedules[s].(state := Complete)])
  {}

  lemma ResolveEnds(w: World, t: LocalTask, f: Future, o: Outcome)
    requires t.sched < |w.schedules| && w.schedules[t.sched].state.Running?
    requires t.out.Some? ==>
      && t.out.value < |w.joins| && w.joins[t.out.value].Pending?
      && Detached(w.joins, f.handles)[t.out.value] == w.joins[t.out.value]
    requires forall s: nat | WaitsFor(w, t, s) ::
      s != t.sched && s < |w.schedules| && !w.schedules[s].state.Running?
    ensures var v := FinishPoll(Resolve(w, t, f, o), t.sched, true);
      && |v.schedules| == |w.schedules| && |v.joins| == |w.joins| && v.timers == w.timers && v.now == w.now
      && v.tasks == w.tasks && v.pending == w.pending
      && v.schedules[t.sched] == w.schedules[t.sched].(state := Complete)
      && (t.out.Some? ==> v.joins[t.out.value] == match o
            case Value(a) => Ready(Ok(a))
            case Panicked => Ready(Err(JoinError.Panic)))
      && w.ready <= v.ready && |v.ready| <= |w.ready| + 1
      && (forall s | 0 <= s < |w.schedules| && s != t.sched :: Rested(w, t, s, v))
  {
    hide Detached, Publish, FinishPoll;
    var w1 := w.(joins := Detached(w.joins, f.handles));
    if t.out.Some? {
      var c := t.out.value;
      if w.joins[c].waker.Some? { assert WaitsFor(w, t, w.joins[c].waker.value); }
      PublishEnds(w1, c, ResultOf(o));
    }
    CompleteEnds(Resolve(w, t, f, o), t.sched);
  }

  // The poll of a received task, from the call of its future to its return.
  lemma PollOfReceived(w: World, id: nat, e: Event, root: LocalTask, g: Ghost)
    returns (ds: seq<Deed>, q: Program, at: seq<nat>, all1: Population, g1: Ghost)
    requires root.id == ROOT && w.pending == [] && ROOT !in w.tasks
    requires Inv(Held(w, id), Whole(w, root), NOBODY, g, {})
    ensures id in Whole(w, root)
    ensures var t := Whole(w, root)[id];
      var w0 := Outside(BeginPoll(w, t.sched), e);
      var r := Poll(w0, t.sched, t.future);
      && Begins(w, t.sched, e, w0) && Follows(w0, t, ds, q, at, r)
      && t.sched < |r.w.schedules| && r.w.schedules[t.sched].state.Running?
      && Inside(r.w, all1, id, g1, r.f) && all1[id] == t.(future := r.f) && r.w.tasks == w.tasks
  {
    hide SchedInv, OpenInv, FlightInv, WaiterInv, JoinInv, KeptInv, TimerInv, ArmInv, TimeInv, OriginInv, IdInv,
        Predict, Load, Potential, Armed, Poll, Outside, Follows, Whole;
    ReceivedTask(w, id, root, g);
    BegunKeeps(w, id, e, Whole(w, root), g, root);
    var t := Whole(w, root)[id];
    var w0 := Outside(BeginPoll(w, t.sched), e);
    PollBegins(w, t.sched, e);
    ds, q, at := FutureFollows(w0, t);
    all1, g1 := PollKeeps(w0, Whole(w, root), id, g.(open := Opened(g.open, e.acts)), t.future, root);
    BegunTasks(w, t.sched, e);
  }

  lemma BegunTasks(w: World, s: nat, e: Event)
    ensures Outside(BeginPoll(w, s), e).tasks == w.tasks
  {
    ActAllFrame(Elapse(BeginPoll(w, s), e.elapse), e.acts);
  }

  lemma PollEnds(w: World, t: LocalTask, r: PollResult, all1: Population, g1: Ghost)
    requires Inside(r.w, all1, t.id, g1, r.f) && all1[t.id] == t.(future := r.f)
    requires t.sched < |r.w.schedules| && r.w.schedules[t.sched].state.Running?
    ensures !r.w.fault && r.w.schedules[t.sched].id == t.id && (t.out.Some? <==> t.id != ROOT)
    ensures t.out.Some? ==>
      && t.out.value < |r.w.joins| && r.w.joins[t.out.value].Pending?
      && Detached(r.w.joins, r.f.handles)[t.out.value] == r.w.joins[t.out.value]
    ensures forall s: nat | WaitsFor(r.w, t, s) ::
      s != t.sched && s < |r.w.schedules| && !r.w.schedules[s].state.Running?
  {
    assert all1[t.id as int].sched == t.sched;
    OwnCell(r.w, all1, t.id, g1, r.f);
    forall s: nat | WaitsFor(r.w, t, s)
      ensures s != t.sched && s < |r.w.schedules| && !r.w.schedules[s].state.Running?
    {
      WaiterIsOther(r.w, all1, t.id, g1, r.f, s);
    }
  }

  lemma TaskEnds(c: Conf, w: World, rest: seq<Event>, t: LocalTask, e: Event)
    requires t.id != ROOT && t.id in w.tasks && w.tasks[t.id] == t
    requires var r := Poll(Outside(BeginPoll(w, t.sched), e), t.sched, t.future);
      && r.w.tasks == w.tasks && t.sched < |r.w.schedules| && r.w.schedules[t.sched].state.Running?
      && r.w.schedules[t.sched].id == t.id && t.out.Some?
      && t.out.value < |r.w.joins| && r.w.joins[t.out.value].Pending?
      && Detached(r.w.joins, r.f.handles)[t.out.value] == r.w.joins[t.out.value]
      && forall s: nat | WaitsFor(r.w, t, s) ::
           s != t.sched && s < |r.w.schedules| && !r.w.schedules[s].state.Running?
    ensures var r := Poll(Outside(BeginPoll(w, t.sched), e), t.sched, t.future);
      Ends(c, t, r, Continue(c.(w := PollTask(w, t.id, e)), rest))
  {
    hide Poll, Outside, BeginPoll, Resolve, FinishPoll, Detached;
    var r := Poll(Outside(BeginPoll(w, t.sched), e), t.sched, t.future);
    match r.res
    case Suspended => SuspendEnds(r.w.(tasks := r.w.tasks[t.id := t.(future := r.f)]), t.sched);
    case Resolved(o) =>
      ResolveEnds(r.w, t, r.f, o);
      RestedSame(r.w, t, FinishPoll(Resolve(r.w, t, r.f, o), t.sched, true));
  }

  // Leaving the table is no matter to the others.
  lemma RestedSame(w: World, t: LocalTask, u: World)
    requires |u.schedules| == |w.schedules| && forall s | 0 <= s < |w.schedules| && s != t.sched :: Rested(w, t, s, u)
    ensures forall s | 0 <= s < |w.schedules| && s != t.sched :: Rested(w, t, s, u.(tasks := u.tasks - {t.id}))
  {
    forall s | 0 <= s < |w.schedules| && s != t.sched ensures Rested(w, t, s, u.(tasks := u.tasks - {t.id})) {
      assert Rested(w, t, s, u);
    }
  }

  lemma RootEnds(c: Conf, w: World, rest: seq<Event>)
    requires var t := c.root;
      var r := Poll(Outside(BeginPoll(w, t.sched), Head(rest)), t.sched, t.future);
      && t.id == ROOT && ROOT !in w.tasks && t.out.None?
      && r.w.tasks == w.tasks && t.sched < |r.w.schedules| && r.w.schedules[t.sched].state.Running?
      && r.w.schedules[t.sched].id == t.id
    ensures var r := Poll(Outside(BeginPoll(w, c.root.sched), Head(rest)), c.root.sched, c.root.future);
      Ends(c, c.root, r, PollRoot(w, rest, c.root))
  {
    hide Poll, Outside, BeginPoll, FinishPoll, Detached;
    var t := c.root;
    var r := Poll(Outside(BeginPoll(w, t.sched), Head(rest)), t.sched, t.future);
    match r.res
    case Suspended => SuspendEnds(r.w, t.sched);
    case Resolved(o) => ResolveEnds(r.w, t, r.f, o);
  }

  // The task whose id was received.
  function TaskOf(w: World, root: LocalTask, id: nat): LocalTask {
    if id in w.tasks then w.tasks[id] else root
  }

  // Between two points of a run lies one round: the wait hands out a task, its future is called,
  // follows its program, and returns.
  ghost predicate OneRound(c: Conf, env: seq<Event>, w0: World, ds: seq<Deed>, q: Program, at: seq<nat>, r: PollResult)
  {
    var x := NextReady(c.w, env);
    && x.Received? && (x.id == ROOT || x.id in x.w.tasks)
    && var t := TaskOf(x.w, c.root, x.id);
       && t.id == x.id && t.sched < |r.w.schedules| && !r.w.fault
       && Begins(x.w, t.sched, Head(x.env), w0) && Follows(w0, t, ds, q, at, r) && Ends(c, t, r, Turn(c, env))
  }

  lemma TurnIsOneRound(c: Conf, env: seq<Event>, g: Ghost)
    returns (w0: World, ds: seq<Deed>, q: Program, at: seq<nat>, r: PollResult)
    requires Good(c, g) && NextReady(c.w, env).Received?
    ensures OneRound(c, env, w0, ds, q, at, r)
  {
    hide Inv, Potential, NextReady, PollTask, PollRoot, EnvWeight, Admitted, Waited, Follows, Begins, Ends, Poll,
        BeginPoll, Outside, Inside, Detached;
    var g0 := NextReadyKeeps(c.w, env, c.root, g);
    var x := NextReady(c.w, env);
    ReceivedTask(x.w, x.id, c.root, g0);
    var t := TaskOf(x.w, c.root, x.id);
    var all1, g1;
    ds, q, at, all1, g1 := PollOfReceived(x.w, x.id, Head(x.env), c.root, g0);
    w0 := Outside(BeginPoll(x.w, t.sched), Head(x.env));
    r := Poll(w0, t.sched, t.future);
    PollEnds(x.w, t, r, all1, g1);
    if x.id == ROOT { RootEnds(c, x.w, x.env); } else { TaskEnds(c, x.w, Tail(x.env), t, Head(x.env)); }
  }

  /* ---- No wake is dropped, none overtakes another ---- */

  // What the invariant says of a live task that was not received.
  lemma BystanderWaits(w: World, id: nat, root: LocalTask, g: Ghost, other: nat)
    requires Inv(Held(w, id), Whole(w, root), NOBODY, g, {}) && other in Whole(w, root) && other != id
    requires id in Whole(w, root)
    ensures var s := Whole(w, root)[other].sched;
      && s < |w.schedules| && s != Whole(w, root)[id].sched && w.schedules[s].id == other
      && (w.schedules[s].state.Idle? || w.schedules[s].state.Queued?)
  {}

  lemma StirredStays(w: World, t: LocalTask, e: Event, w0: World, ds: seq<Deed>, q: Program, at: seq<nat>,
        r: PollResult, s: nat)
    requires Begins(w, t.sched, e, w0) && Follows(w0, t, ds, q, at, r) && s < |w.schedules| && s != t.sched
    requires w.schedules[s].state.Idle? || w.schedules[s].state.Queued?
    requires Woke(s) in ds || Lock(s) in e.acts
    ensures s < |r.w.schedules| && r.w.schedules[s] == Schedule(w.schedules[s].id, Queued)
  {
    hide Passes, InTurn, Taken, Timed, Stops, Peopled;
    assert w0.schedules[s].state.Idle? || w0.schedules[s].state.Queued?;
  }

  lemma QueuedStays(c: Conf, t: LocalTask, r: PollResult, x: TurnResult, s: nat)
    requires t.sched < |r.w.schedules| && Ends(c, t, r, x) && s < |r.w.schedules| && s != t.sched
    requires r.w.schedules[s].state.Queued?
    ensures s < |WorldOf(x).schedules| && WorldOf(x).schedules[s] == r.w.schedules[s] && r.w.ready <= WorldOf(x).ready
  {
    if r.res.Resolved? { assert Rested(r.w, t, s, WorldOf(x)); }
  }

  lemma QueuedHasToken(w: World, all: Population, g: Ghost, s: nat)
    requires Inv(w, all, NOBODY, g, {}) && s < |w.schedules| && w.schedules[s].state.Queued?
    ensures var id := w.schedules[s].id;
      id in all && all[id].sched == s && multiset(w.ready)[id] + w.unsent[id] == 1
  {
    assert Tokens(w)[w.schedules[s].id] == 1;
  }

  // A wake during the round, by the polled future or by another thread.
  predicate WokenDuring(s: nat, ds: seq<Deed>, acts: seq<Act>) {
    Woke(s) in ds || Lock(s) in acts
  }

  // A wake of the polled task itself is noted, and if the task suspends, puts it into the channel.
  lemma NotedHasToken(c: Conf, env: seq<Event>, g: Ghost, w0: World, ds: seq<Deed>, q: Program, at: seq<nat>,
        r: PollResult)
    requires Good(c, g) && OneRound(c, env, w0, ds, q, at, r)
    requires var x := NextReady(c.w, env);
      && x.id in Whole(x.w, c.root) && WokenDuring(Whole(x.w, c.root)[x.id].sched, ds, Head(x.env).acts)
      && Stays(x.id, Turn(c, env))
    ensures multiset(WorldOf(Turn(c, env)).ready)[NextReady(c.w, env).id] == 1
  {
    hide Inv, Potential, NextReady, PollTask, PollRoot, EnvWeight, Waited, Follows, Begins, Ends, Turn, Admitted,
        Spent, Passes;
    var x := NextReady(c.w, env);
    var t := TaskOf(x.w, c.root, x.id);
    var g0 := NextReadyKeeps(c.w, env, c.root, g);
    ReceivedTask(x.w, x.id, c.root, g0);
    NoteLasts(x.w, t, Head(x.env), w0, ds, q, at, r);
    NotedIsQueued(c, t, r, Turn(c, env));
    var g1 := TurnKeeps(c, env, g);
    QueuedHasToken(WorldOf(Turn(c, env)), PopulationOf(Turn(c, env)), g1, t.sched);
  }

  lemma NoteLasts(w: World, t: LocalTask, e: Event, w0: World, ds: seq<Deed>, q: Program, at: seq<nat>,
        r: PollResult)
    requires Begins(w, t.sched, e, w0) && Follows(w0, t, ds, q, at, r) && WokenDuring(t.sched, ds, e.acts)
    ensures t.sched < |r.w.schedules|
        && r.w.schedules[t.sched] == Schedule(w.schedules[t.sched].id, State.Running(true))
  {
    hide Passes, InTurn, Taken, Timed, Stops, Peopled;
    assert w0.schedules[t.sched].state.Running?;
  }

  lemma NotedIsQueued(c: Conf, t: LocalTask, r: PollResult, x: TurnResult)
    requires t.sched < |r.w.schedules| && Ends(c, t, r, x) && Stays(t.id, x)
    requires r.w.schedules[t.sched] == Schedule(t.id, State.Running(true))
    ensures t.sched < |WorldOf(x).schedules| && WorldOf(x).schedules[t.sched] == Schedule(t.id, Queued)
        && t.id in WorldOf(x).ready
  {}

  // A live task that is woken during the round, whatever it waits for and even if it has
  // parked, has one token when it ends, in the channel or with a thread that is about to send.
  lemma WokenHasToken(c: Conf, env: seq<Event>, g: Ghost, w0: World, ds: seq<Deed>, q: Program, at: seq<nat>,
        r: PollResult, id: nat)
    requires Good(c, g) && OneRound(c, env, w0, ds, q, at, r)
    requires var x := NextReady(c.w, env);
      id in Whole(x.w, c.root) && id != x.id && WokenDuring(Whole(x.w, c.root)[id].sched, ds, Head(x.env).acts)
    ensures var x, v := NextReady(c.w, env), WorldOf(Turn(c, env));
      && id in PopulationOf(Turn(c, env)) && PopulationOf(Turn(c, env))[id].sched == Whole(x.w, c.root)[id].sched
      && multiset(v.ready)[id] + v.unsent[id] == 1
      && r.w.ready <= v.ready
  {
    hide Inv, Potential, NextReady, PollTask, PollRoot, EnvWeight, Waited, Follows, Begins, Ends, Turn, Admitted,
        Spent, Passes;
    var x := NextReady(c.w, env);
    var t := TaskOf(x.w, c.root, x.id);
    var g0 := NextReadyKeeps(c.w, env, c.root, g);
    ReceivedTask(x.w, x.id, c.root, g0);
    BystanderWaits(x.w, x.id, c.root, g0, id);
    var s := Whole(x.w, c.root)[id].sched;
    StirredStays(x.w, t, Head(x.env), w0, ds, q, at, r, s);
    QueuedStays(c, t, r, Turn(c, env), s);
    var g1 := TurnKeeps(c, env, g);
    QueuedHasToken(WorldOf(Turn(c, env)), PopulationOf(Turn(c, env)), g1, s);
  }

  // The deeds that put an id into the channel are the same for the received world and for the one
  // in which the future is called: they differ in the schedule of the polled task alone.
  lemma RousesAsReceived(w: World, s: nat, e: Event, w0: World, ds: seq<Deed>, i: nat)
    requires Begins(w, s, e, w0) && e.acts == [] && w.schedules[s].state.Queued?
    ensures Rouses(w0.schedules, ds, i) <==> Rouses(w.schedules, ds, i)
    ensures Rouses(w.schedules, ds, i) ==> Roused(w0.schedules, ds, i) == Roused(w.schedules, ds, i)
  {}

  // With no other thread acting during the poll, the channel holds what it held when the task was
  // received, then one id for each deed that rouses somebody, in the order of the deeds.
  ghost predicate RousedInOrder(w: World, ds: seq<Deed>, at: seq<nat>, v: World) {
    && w.ready <= v.ready && |w.ready| + |at| <= |v.ready| <= |w.ready| + |at| + 1
    && (forall j | 0 < j < |at| :: at[j - 1] < at[j])
    && (forall i: nat :: i in at <==> Rouses(w.schedules, ds, i))
    && (forall j | 0 <= j < |at| :: Rouses(w.schedules, ds, at[j])
          && v.ready[|w.ready| + j] == Roused(w.schedules, ds, at[j]))
  }

  lemma FollowsInOrder(w: World, s: nat, e: Event, w0: World, t: LocalTask, ds: seq<Deed>, q: Program,
        at: seq<nat>, r: PollResult)
    requires Begins(w, s, e, w0) && e.acts == [] && w.schedules[s].state.Queued? && t.sched == s
    requires Follows(w0, t, ds, q, at, r)
    ensures w.ready <= r.w.ready && |r.w.ready| == |w.ready| + |at|
    ensures forall j | 0 < j < |at| :: at[j - 1] < at[j]
    ensures forall i: nat :: i in at <==> Rouses(w.schedules, ds, i)
    ensures forall j | 0 <= j < |at| ::
      Rouses(w.schedules, ds, at[j]) && r.w.ready[|w.ready| + j] == Roused(w.schedules, ds, at[j])
  {
    hide Passes, Stirred, Taken, Timed, Stops, Peopled, Rouses, Roused;
    forall i: nat ensures !Rouses(w0.schedules, [], i) { NoDeed(w0.schedules, i); }
    forall i: nat ensures i in at <==> Rouses(w.schedules, ds, i) {
      RousesAsReceived(w, s, e, w0, ds, i);
    }
    forall j | 0 <= j < |at|
      ensures Rouses(w.schedules, ds, at[j]) && r.w.ready[|w.ready| + j] == Roused(w.schedules, ds, at[j])
    {
      RousesAsReceived(w, s, e, w0, ds, at[j]);
    }
  }

  lemma NoDeed(ss: seq<Schedule>, i: nat)
    ensures !Rouses(ss, [], i)
  {}

  lemma EndsAppends(c: Conf, t: LocalTask, r: PollResult, x: TurnResult)
    requires t.sched < |r.w.schedules| && Ends(c, t, r, x)
    ensures r.w.ready <= WorldOf(x).ready && |WorldOf(x).ready| <= |r.w.ready| + 1
  {}

  lemma RoundRousesInOrder(c: Conf, env: seq<Event>, g: Ghost, w0: World, ds: seq<Deed>, q: Program, at: seq<nat>,
        r: PollResult)
    requires Good(c, g) && OneRound(c, env, w0, ds, q, at, r) && Head(NextReady(c.w, env).env).acts == []
    ensures RousedInOrder(NextReady(c.w, env).w, ds, at, WorldOf(Turn(c, env)))
  {
    hide Inv, Potential, NextReady, PollTask, PollRoot, EnvWeight, Waited, Follows, Begins, Ends, Turn, Admitted,
        Rouses, Roused;
    var x := NextReady(c.w, env);
    var t := TaskOf(x.w, c.root, x.id);
    var g0 := NextReadyKeeps(c.w, env, c.root, g);
    ReceivedTask(x.w, x.id, c.root, g0);
    FollowsInOrder(x.w, t.sched, Head(x.env), w0, t, ds, q, at, r);
    EndsAppends(c, t, r, Turn(c, env));
  }

  // Each live task that the polled future or another thread wakes has one token afterwards,
  // whatever it waits for; so has the polled task if it stays.
  ghost predicate WakesLast(c: Conf, env: seq<Event>, ds: seq<Deed>)
    requires NextReady(c.w, env).Received?
  {
    var x, v := NextReady(c.w, env), WorldOf(Turn(c, env));
    forall id | id in Whole(x.w, c.root) && WokenDuring(Whole(x.w, c.root)[id].sched, ds, Head(x.env).acts) ::
      if id == x.id then Stays(id, Turn(c, env)) ==> multiset(v.ready)[id] == 1
      else id in PopulationOf(Turn(c, env)) && multiset(v.ready)[id] + v.unsent[id] == 1
  }

  // The polled task has suspended.
  ghost predicate Stays(id: nat, x: TurnResult) {
    x.Continue? && (id == ROOT || id in x.c.w.tasks)
  }

  // At every point of every run, whatever other threads do: the round polls the received task,
  // its future follows its program, and the round ends as the future returns. Every live task
  // that it has woken has one token, in the channel or with another thread that was about to
  // enqueue it; and if no other thread acts during the poll, the channel gets the ids of those it
  // rouses in the order in which it rouses them.
  lemma RoundsFollowPrograms(w: World, job: Job, env: seq<Event>, n: nat, c: Conf, rest: seq<Event>, g: Ghost)
    returns (w0: World, ds: seq<Deed>, q: Program, at: seq<nat>, r: PollResult)
    requires CanStart(w, job, g) && Reaches(w, job, env, n, c, rest) && NextReady(c.w, rest).Received?
    ensures OneRound(c, rest, w0, ds, q, at, r) && WakesLast(c, rest, ds)
    ensures Head(NextReady(c.w, rest).env).acts == [] ==>
      RousedInOrder(NextReady(c.w, rest).w, ds, at, WorldOf(Turn(c, rest)))
  {
    hide CanStart, Reaches, Good, OneRound, NextReady, RousedInOrder, Turn, Whole, PopulationOf;
    var g1 := ReachedIsGood(w, job, env, n, c, rest, g);
    w0, ds, q, at, r := TurnIsOneRound(c, rest, g1);
    if Head(NextReady(c.w, rest).env).acts == [] { RoundRousesInOrder(c, rest, g1, w0, ds, q, at, r); }
    var x, v := NextReady(c.w, rest), WorldOf(Turn(c, rest));
    forall id | id in Whole(x.w, c.root) && WokenDuring(Whole(x.w, c.root)[id].sched, ds, Head(x.env).acts)
      ensures if id == x.id then Stays(id, Turn(c, rest)) ==> multiset(v.ready)[id] == 1
          else id in PopulationOf(Turn(c, rest)) && multiset(v.ready)[id] + v.unsent[id] == 1
    {
      if id == x.id {
        if Stays(id, Turn(c, rest)) { NotedHasToken(c, rest, g1, w0, ds, q, at, r); }
      } else {
        WokenHasToken(c, rest, g1, w0, ds, q, at, r, id);
      }
    }
  }

  // The first wake of an idle schedule rouses it.
  lemma FirstWake(ss: seq<Schedule>, ds: seq<Deed>, s: nat) returns (i: nat)
    requires s < |ss| && ss[s].state.Idle? && Woke(s) in ds
    ensures Rouses(ss, ds, i) && ds[i] == Woke(s)
  {
    i := 0;
    while ds[i] != Woke(s)
      invariant i < |ds| && Woke(s) !in ds[..i] && Woke(s) in ds[i..]
      decreases |ds| - i
    {
      assert ds[i..] == [ds[i]] + ds[i + 1..];
      i := i + 1;
    }
  }

  lemma RousedIsInChannel(w: World, ds: seq<Deed>, at: seq<nat>, v: World, s: nat) returns (k: nat)
    requires RousedInOrder(w, ds, at, v) && s < |w.schedules| && w.schedules[s].state.Idle? && Woke(s) in ds
    ensures |w.ready| <= k < |v.ready| && v.ready[k] == w.schedules[s].id && k < |w.ready| + |ds|
  {
    var i := FirstWake(w.schedules, ds, s);
    assert i in at;
    var j :| 0 <= j < |at| && at[j] == i;
    StrictlyUp(at, j);
    k := |w.ready| + j;
  }

  lemma {:induction false} StrictlyUp(at: seq<nat>, j: nat)
    requires j < |at| && forall j | 0 < j < |at| :: at[j - 1] < at[j]
    ensures j <= at[j]
  {
    if j > 0 { StrictlyUp(at, j - 1); }
  }

  // A task that was idle and has been woken.
  ghost predicate WokenIdle(w: World, root: LocalTask, id: nat, ds: seq<Deed>) {
    && id in Whole(w, root) && Whole(w, root)[id].sched < |w.schedules|
    && w.schedules[Whole(w, root)[id].sched].state.Idle? && Woke(Whole(w, root)[id].sched) in ds
  }

  // After the round `x` the id is at place `k` of the channel and nowhere else, behind what was
  // there before; if the call goes on, the entry at place k is received after exactly k others.
  ghost predicate ServedFrom(before: seq<nat>, x: TurnResult, id: nat, k: nat) {
    && |before| <= k < |WorldOf(x).ready| && WorldOf(x).ready[k] == id
    && multiset(WorldOf(x).ready)[id] == 1 && WorldOf(x).unsent[id] == 0
    && (x.Continue? && InOrder(x.env) ==> forall m: nat | m > k :: ServedAt(x.c, x.env, m, id, k))
  }

  // Among the ids received in `m` more rounds, this one comes after `k` others, unless the call
  // returns before.
  ghost predicate ServedAt(c: Conf, env: seq<Event>, m: nat, id: nat, k: nat) {
    if k < |Served(c, env, m)| then Served(c, env, m)[k] == id else Drive(c, env, m).Exit?
  }

  // Where a poll has left a future whose program is at `q`; a finished one is gone.
  ghost predicate Halts(q: Program, id: nat, x: TurnResult) {
    if x.Continue? && (id == ROOT || id in x.c.w.tasks) then
      var stage := if id == ROOT then x.c.root.future.stage else x.c.w.tasks[id].future.stage;
      match q
      case Yield(next) => stage == Yielded(next)
      case Park(next) => stage == Parked(next)
      case Sleep(d, next) => d > 0 && stage.Sleeping? && stage.next == next
      case Join(_, _, _) => stage == Run(q)
      case _ => false
    else q.Return? || q.Panic? || q.Join?
  }

  // What one round does for the tasks that the polled future wakes.
  ghost predicate Delivers(c: Conf, env: seq<Event>, ds: seq<Deed>, q: Program)
    requires NextReady(c.w, env).Received?
  {
    var x := NextReady(c.w, env);
    var stage := TaskOf(x.w, c.root, x.id).future.stage;
    && ((Passes(Onset(stage), ds, q) && Halts(q, x.id, Turn(c, env))) || (stage.Sleeping? && ds == []))
    && forall id | id != x.id && WokenIdle(x.w, c.root, id, ds) :: Arrives(x.w.ready, Turn(c, env), id, |ds|)
  }

  ghost predicate Arrives(before: seq<nat>, x: TurnResult, id: nat, n: nat) {
    id in PopulationOf(x) && exists k: nat :: k < |before| + n && ServedFrom(before, x, id, k)
  }

  // The wakes that a future gives reach the channel: at any point of any run, in a round in which
  // no other thread acts during the poll, every idle task that the polled future wakes is in the
  // channel when the poll ends, exactly once, behind everything that was there and at most as
  // many places further back as the future has done deeds. From there it is received after
  // exactly as many others as stand before it.
  lemma WokenIsServed(w: World, job: Job, env: seq<Event>, n: nat, c: Conf, rest: seq<Event>, g: Ghost)
    returns (ds: seq<Deed>, q: Program)
    requires CanStart(w, job, g) && Reaches(w, job, env, n, c, rest)
    requires NextReady(c.w, rest).Received? && Head(NextReady(c.w, rest).env).acts == []
    ensures Delivers(c, rest, ds, q)
  {
    hide CanStart, Reaches, Good, OneRound, NextReady, Turn, RousedInOrder, Arrives, WokenIdle;
    var g1 := ReachedIsGood(w, job, env, n, c, rest, g);
    var w0, at, r;
    w0, ds, q, at, r := TurnIsOneRound(c, rest, g1);
    RoundPasses(c, rest, w0, ds, q, at, r);
    RoundRousesInOrder(c, rest, g1, w0, ds, q, at, r);
    var x := NextReady(c.w, rest);
    forall id | id != x.id && WokenIdle(x.w, c.root, id, ds)
      ensures Arrives(x.w.ready, Turn(c, rest), id, |ds|)
    {
      OneArrives(c, rest, g1, w0, ds, q, at, r, id);
    }
  }

  lemma RoundPasses(c: Conf, env: seq<Event>, w0: World, ds: seq<Deed>, q: Program, at: seq<nat>, r: PollResult)
    requires OneRound(c, env, w0, ds, q, at, r)
    ensures var x := NextReady(c.w, env);
      var stage := TaskOf(x.w, c.root, x.id).future.stage;
      (Passes(Onset(stage), ds, q) && Halts(q, x.id, Turn(c, env))) || (stage.Sleeping? && ds == [])
  {
    hide NextReady, Turn, Begins, Passes, InTurn, Stirred, Taken, Timed, Peopled;
  }

  lemma OneArrives(c: Conf, env: seq<Event>, g: Ghost, w0: World, ds: seq<Deed>, q: Program, at: seq<nat>,
        r: PollResult, id: nat)
    requires Good(c, g) && OneRound(c, env, w0, ds, q, at, r) && NextReady(c.w, env).Received?
    requires var x := NextReady(c.w, env);
      RousedInOrder(x.w, ds, at, WorldOf(Turn(c, env))) && id != x.id && WokenIdle(x.w, c.root, id, ds)
    ensures Arrives(NextReady(c.w, env).w.ready, Turn(c, env), id, |ds|)
  {
    hide Good, NextReady, Turn, PopulationOf, RousedInOrder, OneRound, Whole, ServedAt;
    var x, y := NextReady(c.w, env), Turn(c, env);
    WokenHasToken(c, env, g, w0, ds, q, at, r, id);
    IdOfSchedule(c, env, g, id);
    var k := RousedIsInChannel(x.w, ds, at, WorldOf(y), Whole(x.w, c.root)[id].sched);
    assert multiset(WorldOf(y).ready)[id] >= 1;
    if y.Continue? && InOrder(y.env) {
      forall m: nat | m > k ensures ServedAt(y.c, y.env, m, id, k) {
        EntryIsServed(y.c, y.env, m, id, k);
      }
    }
    assert ServedFrom(x.w.ready, y, id, k);
  }

  lemma IdOfSchedule(c: Conf, env: seq<Event>, g: Ghost, id: nat)
    requires Good(c, g) && NextReady(c.w, env).Received? && id in Whole(NextReady(c.w, env).w, c.root)
    ensures var x := NextReady(c.w, env);
      var s := Whole(x.w, c.root)[id].sched;
      s < |x.w.schedules| && x.w.schedules[s].id == id
  {
    hide NextReady, Potential, EnvWeight, Waited, Admitted;
    var g0 := NextReadyKeeps(c.w, env, c.root, g);
  }

  lemma EntryIsServed(c: Conf, env: seq<Event>, m: nat, id: nat, k: nat)
    requires InOrder(env) && k < |c.w.ready| && c.w.ready[k] == id && m > k
    ensures ServedAt(c, env, m, id, k)
  {
    hide Served, Drive;
    ServedInOrder(c, env, m);
  }
}
