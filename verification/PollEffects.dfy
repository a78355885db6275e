/** What one poll of a future does to everybody else, read off its program alone: which
    instructions it gets past, whom it wakes and in which order, what it spawns, which results it
    takes, how long it computes, and where and why it stops. */
module PollEffects {
  import opened Wrappers
  import opened TimerSpec
  import opened ScheduleState
  import opened JoinSpec
  import opened Programs
  import opened TaskIdSpec
  import opened ExecutorSpec

  // What a future does between two points of its program.
  datatype Deed =
    | Woke(s: nat)
    | Bore(id: nat, child: Program)
    | Took(k: nat, r: Result<int, JoinError>)
    | Worked(d: nat)

  // A future that is at `p` gets to `q` without returning from its poll, and does `deeds` on the
  // way. It gets past neither a yield, nor a park, nor a sleep, unless that takes no time at all.
  ghost predicate Passes(p: Program, deeds: seq<Deed>, q: Program)
    decreases p
  {
    (deeds == [] && p == q)
    || match p
       case Sleep(d, next) => d == 0 && Passes(next, deeds, q)
       case Spawn(child, next) =>
         deeds != [] && deeds[0].Bore? && deeds[0].child == child && Passes(next, deeds[1..], q)
       case Join(k, ok, err) =>
         && deeds != [] && deeds[0].Took? && deeds[0].k == k
         && if deeds[0].r.Ok? then Passes(ok, deeds[1..], q) else Passes(err, deeds[1..], q)
       case Wake(target, next) => deeds != [] && deeds[0] == Woke(target) && Passes(next, deeds[1..], q)
       case Busy(d, next) => deeds != [] && deeds[0] == Worked(d) && Passes(next, deeds[1..], q)
       case _ => false
  }

  // Where a future goes on once its wait is over.
  function Onset(s: Stage): Program {
    match s
    case Run(p) => p
    case Sleeping(_, _, next) => next
    case Yielded(next) => next
    case Parked(next) => next
  }

  /* ---- Wakes ---- */

  // Every schedule that was woken, by the future's deeds or by its yield, is queued if it was
  // idle and has noted the wake if it was running; no other has changed.
  ghost predicate Stirred(ss: seq<Schedule>, deeds: seq<Deed>, me: nat, yielded: bool, ss1: seq<Schedule>) {
    && |ss| <= |ss1|
    && forall s | 0 <= s < |ss| ::
         && ss1[s].id == ss[s].id
         && if Woke(s) in deeds || (s == me && yielded) then
              && (ss[s].state.Idle? ==> ss1[s].state.Queued?)
              && (ss[s].state.Running? ==> ss1[s].state == Running(true))
              && (ss[s].state.Queued? || ss[s].state.Complete? ==> ss1[s].state == ss[s].state)
            else ss1[s].state == ss[s].state
  }

  // The `i`-th deed puts an id into the channel: a birth, or the first wake of an idle schedule.
  predicate Rouses(ss: seq<Schedule>, deeds: seq<Deed>, i: nat) {
    && i < |deeds|
    && match deeds[i]
       case Woke(s) => s < |ss| && ss[s].state.Idle? && Woke(s) !in deeds[..i]
       case Bore(_, _) => true
       case _ => false
  }

  function Roused(ss: seq<Schedule>, deeds: seq<Deed>, i: nat): nat
    requires Rouses(ss, deeds, i)
  {
    match deeds[i]
    case Woke(s) => ss[s].id
    case Bore(id, _) => id
  }

  // The channel keeps what it holds and gets, for each such deed and in the order of the deeds,
  // the id that it puts there; `at` lists these deeds.
  ghost predicate InTurn(ss: seq<Schedule>, deeds: seq<Deed>, at: seq<nat>, ready: seq<nat>, ready1: seq<nat>) {
    && |ready1| == |ready| + |at| && ready <= ready1
    && (forall j | 0 < j < |at| :: at[j - 1] < at[j])
    && (forall i: nat :: i in at <==> Rouses(ss, deeds, i))
    && (forall j | 0 <= j < |at| :: Rouses(ss, deeds, at[j]) && ready1[|ready| + j] == Roused(ss, deeds, at[j]))
  }

  /* ---- Births, results, time ---- */

  function Births(deeds: seq<Deed>): (r: seq<Deed>)
    ensures forall j | 0 <= j < |r| :: r[j].Bore?
    decreases |deeds|
  {
    if deeds == [] then []
    else if deeds[0].Bore? then [deeds[0]] + Births(deeds[1..])
    else Births(deeds[1..])
  }

  // Each birth adds a queued schedule, a join cell, and a task that is to be admitted.
  ghost predicate Peopled(w: World, deeds: seq<Deed>, v: World) {
    var bs := Births(deeds);
    && |v.schedules| == |w.schedules| + |bs| && |v.joins| == |w.joins| + |bs|
    && |v.pending| == |w.pending| + |bs| && w.pending <= v.pending && v.tasks == w.tasks
    && forall j | 0 <= j < |bs| ::
         && v.schedules[|w.schedules| + j] == Schedule(bs[j].id, Queued)
         && v.pending[|w.pending| + j] ==
            LocalTask(bs[j].id, |w.schedules| + j, Some(|w.joins| + j), Future(Run(bs[j].child), 0, []))
  }

  // A result is taken out of the resolved cell behind a handle, and cell and handle are spent.
  ghost predicate TakesFrom(w: World, f: Future, k: nat, r: Result<int, JoinError>, v: World, f1: Future) {
    && k < |f.handles| && k < |f1.handles| && f.handles[k].Some? && f1.handles[k].None?
    && f.handles[k].value < |w.joins| && f.handles[k].value < |v.joins|
    && w.joins[f.handles[k].value] == Ready(r) && v.joins[f.handles[k].value].Consumed?
  }

  ghost predicate Taken(w: World, f: Future, deeds: seq<Deed>, v: World, f1: Future) {
    && |f.handles| <= |f1.handles| && |w.joins| <= |v.joins|
    && (forall k | 0 <= k < |f.handles| && f.handles[k].None? :: f1.handles[k].None?)
    && (forall c | 0 <= c < |w.joins| && w.joins[c].Consumed? :: v.joins[c].Consumed?)
    && (forall i | 0 <= i < |deeds| && deeds[i].Took? :: TakesFrom(w, f, deeds[i].k, deeds[i].r, v, f1))
  }

  function Toil(deeds: seq<Deed>): nat
    decreases |deeds|
  {
    if deeds == [] then 0 else Toil(deeds[1..]) + if deeds[0].Worked? then deeds[0].d else 0
  }

  ghost predicate Timed(w: World, deeds: seq<Deed>, v: World) {
    v.paused == w.paused && v.now == if w.paused then w.now else w.now + Toil(deeds)
  }

  /* ---- The end of the poll ---- */

  // The poll stops at `q`, and for a reason.
  ghost predicate Stops(me: nat, q: Program, r: PollResult) {
    match q
    case Return(x) => r.res == Resolved(Value(r.f.acc + x))
    case Panic => r.res == Resolved(Panicked)
    case Yield(next) => r.res.Suspended? && r.f.stage == Yielded(next)
    case Park(next) => r.res.Suspended? && r.f.stage == Parked(next)
    case Sleep(d, next) =>
      && d > 0
      && if r.w.fault then r.res == Resolved(Panicked)
         else
           && r.res.Suspended? && r.f.stage.Sleeping? && r.f.stage.reg in r.w.timers
           && r.f.stage == Sleeping(r.w.now + d, r.f.stage.reg, next)
           && r.w.timers[r.f.stage.reg] == Registration(r.w.now + d, me)
    case Join(k, _, _) =>
      && r.f.stage == Run(q)
      && if k < |r.f.handles| && r.f.handles[k].Some? && r.f.handles[k].value < |r.w.joins| then
           match r.w.joins[r.f.handles[k].value]
           case Pending(waiter) => r.res.Suspended? && waiter == Some(me)
           case Ready(_) => false
           case Consumed => r.w.fault && r.res == Resolved(Panicked)
         else r.res == Resolved(Panicked)
    case _ => false
  }

  // The poll of the future `f`, whose program is at `p`, has got to `q` and done `deeds`.
  ghost predicate Course(w: World, me: nat, f: Future, p: Program, deeds: seq<Deed>, q: Program, at: seq<nat>,
        r: PollResult) {
    && Passes(p, deeds, q)
    && Stirred(w.schedules, deeds, me, q.Yield?, r.w.schedules)
    && InTurn(w.schedules, deeds, at, w.ready, r.w.ready) && r.w.unsent == w.unsent
    && Peopled(w, deeds, r.w) && Taken(w, f, deeds, r.w, r.f) && Timed(w, deeds, r.w)
    && Stops(me, q, r)
  }

  ghost predicate UnderPoll(w: World, me: nat) {
    !w.closed && !w.fault && me < |w.schedules| && w.schedules[me].state.Running?
  }

  /* ---- One deed more ---- */

  function Later(at: seq<nat>): (r: seq<nat>)
    ensures |r| == |at|
    ensures forall j | 0 <= j < |at| :: r[j] == at[j] + 1
  {
    seq(|at|, j requires 0 <= j < |at| => at[j] + 1)
  }

  function First(ss: seq<Schedule>, d: Deed): seq<nat> {
    if Rouses(ss, [d], 0) then [0] else []
  }

  lemma LaterIn(at: seq<nat>, i: nat)
    ensures i in Later(at) <==> i > 0 && i - 1 in at
  {
    if i > 0 && i - 1 in at {
      var j :| 0 <= j < |at| && at[j] == i - 1;
      assert Later(at)[j] == i;
    }
  }

  // How the deed `d` changes the schedules and the channel.
  ghost predicate Does(w: World, d: Deed, w1: World) {
    && (if d.Woke? && d.s < |w.schedules| then
          w1.schedules == w.schedules[d.s := w.schedules[d.s].(state := Woken(w.schedules[d.s].state))]
        else if d.Bore? then w1.schedules == w.schedules + [Schedule(d.id, Queued)]
        else w1.schedules == w.schedules)
    && w1.ready == w.ready + (if Rouses(w.schedules, [d], 0) then [Roused(w.schedules, [d], 0)] else [])
    && w1.unsent == w.unsent && w1.paused == w.paused && w1.closed == w.closed && w1.tasks == w.tasks
    && w1.now == (if d.Worked? && !w.paused then w.now + d.d else w.now)
    && w1.pending == w.pending + (if d.Bore? then
         [LocalTask(d.id, |w.schedules|, Some(|w.joins|), Future(Run(d.child), 0, []))] else [])
    && |w1.joins| == |w.joins| + (if d.Bore? then 1 else 0)
  }

  lemma StirredAfter(w: World, d: Deed, w1: World, ds: seq<Deed>, me: nat, yielded: bool, ss: seq<Schedule>)
    requires Does(w, d, w1) && Stirred(w1.schedules, ds, me, yielded, ss)
    ensures Stirred(w.schedules, [d] + ds, me, yielded, ss)
  {
    forall s | 0 <= s < |w.schedules| ensures Woke(s) in [d] + ds <==> d == Woke(s) || Woke(s) in ds {}
  }

  lemma RousesLater(w: World, d: Deed, w1: World, ds: seq<Deed>, i: nat)
    requires Does(w, d, w1)
    ensures Rouses(w.schedules, [d] + ds, i + 1) <==> Rouses(w1.schedules, ds, i)
    ensures Rouses(w1.schedules, ds, i) ==> Roused(w.schedules, [d] + ds, i + 1) == Roused(w1.schedules, ds, i)
    ensures Rouses(w.schedules, [d] + ds, 0) == Rouses(w.schedules, [d], 0)
  {
    if i < |ds| {
      assert ([d] + ds)[..i + 1] == [d] + ds[..i];
    }
  }

  lemma RousedFirst(w: World, d: Deed, w1: World)
    requires Does(w, d, w1)
    ensures |w1.ready| == |w.ready| + |First(w.schedules, d)| && w.ready <= w1.ready
  {}

  lemma ListsAfter(w: World, d: Deed, w1: World, ds: seq<Deed>, at: seq<nat>, i: nat)
    requires Does(w, d, w1) && forall i: nat :: i in at <==> Rouses(w1.schedules, ds, i)
    ensures i in First(w.schedules, d) + Later(at) <==> Rouses(w.schedules, [d] + ds, i)
  {
    hide Does, Rouses;
    LaterIn(at, i);
    RousesLater(w, d, w1, ds, if i > 0 then i - 1 else 0);
  }

  lemma OrderAfter(first: seq<nat>, at: seq<nat>)
    requires (first == [] || first == [0]) && forall j | 0 < j < |at| :: at[j - 1] < at[j]
    ensures var at1 := first + Later(at); forall j | 0 < j < |at1| :: at1[j - 1] < at1[j]
  {}

  lemma InTurnAfter(w: World, d: Deed, w1: World, ds: seq<Deed>, at: seq<nat>, ready: seq<nat>)
    requires Does(w, d, w1) && InTurn(w1.schedules, ds, at, w1.ready, ready)
    ensures InTurn(w.schedules, [d] + ds, First(w.schedules, d) + Later(at), w.ready, ready)
  {
    hide Does, Rouses, Roused, Later;
    var at1 := First(w.schedules, d) + Later(at);
    RousedFirst(w, d, w1);
    forall i: nat ensures i in at1 <==> Rouses(w.schedules, [d] + ds, i) {
      ListsAfter(w, d, w1, ds, at, i);
    }
    OrderAfter(First(w.schedules, d), at);
    forall j | 0 <= j < |at1|
      ensures Rouses(w.schedules, [d] + ds, at1[j])
          && ready[|w.ready| + j] == Roused(w.schedules, [d] + ds, at1[j])
    {
      PlaceAfter(w, d, w1, ds, at, ready, j);
    }
  }

  lemma PlaceAfter(w: World, d: Deed, w1: World, ds: seq<Deed>, at: seq<nat>, ready: seq<nat>, j: nat)
    requires Does(w, d, w1) && InTurn(w1.schedules, ds, at, w1.ready, ready)
    requires j < |First(w.schedules, d) + Later(at)|
    ensures var i := (First(w.schedules, d) + Later(at))[j];
      Rouses(w.schedules, [d] + ds, i) && |w.ready| + j < |ready|
          && ready[|w.ready| + j] == Roused(w.schedules, [d] + ds, i)
  {
    var n := |First(w.schedules, d)|;
    if j < n {
      assert ready[|w.ready|] == w1.ready[|w.ready|];
    } else {
      assert Rouses(w1.schedules, ds, at[j - n]);
      RousesLater(w, d, w1, ds, at[j - n]);
    }
  }

  lemma PeopledAfter(w: World, d: Deed, w1: World, ds: seq<Deed>, v: World, me: nat,
        yielded: bool)
    requires Does(w, d, w1) && Peopled(w1, ds, v) && Stirred(w1.schedules, ds, me, yielded, v.schedules)
    ensures Peopled(w, [d] + ds, v)
  {
    assert ([d] + ds)[1..] == ds;
    var bs, bs1 := Births(ds), Births([d] + ds);
    if d.Bore? {
      assert v.schedules[|w.schedules|].state == Queued;
    }
  }

  lemma TakenAfter(w: World, d: Deed, w1: World, ds: seq<Deed>, v: World, f: Future, f1: Future, f2: Future)
    requires Taken(w1, f1, ds, v, f2) && |w.joins| <= |w1.joins| && |f.handles| <= |f1.handles|
    requires forall c | 0 <= c < |w.joins| ::
      w1.joins[c] == w.joins[c] || (w.joins[c].Ready? && w1.joins[c].Consumed?)
    requires forall c | |w.joins| <= c < |w1.joins| :: w1.joins[c] == JoinState.Pending(None)
    requires forall k | 0 <= k < |f.handles| ::
      f1.handles[k] == f.handles[k] || (f.handles[k].Some? && f1.handles[k].None?)
    requires forall k | |f.handles| <= k < |f1.handles| ::
      f1.handles[k].Some? && f1.handles[k].value < |w1.joins| && w1.joins[f1.handles[k].value].Pending?
    requires d.Took? ==> TakesFrom(w, f, d.k, d.r, w1, f1)
    ensures Taken(w, f, [d] + ds, v, f2)
  {
    forall i | 0 <= i < |[d] + ds| && ([d] + ds)[i].Took?
      ensures TakesFrom(w, f, ([d] + ds)[i].k, ([d] + ds)[i].r, v, f2)
    {
      if i > 0 {
        assert ds[i - 1] == ([d] + ds)[i];
        assert TakesFrom(w1, f1, ds[i - 1].k, ds[i - 1].r, v, f2);
      }
    }
  }

  lemma TimedAfter(w: World, d: Deed, w1: World, ds: seq<Deed>, v: World)
    requires Does(w, d, w1) && Timed(w1, ds, v)
    ensures Timed(w, [d] + ds, v)
  {
    assert ([d] + ds)[1..] == ds;
  }

  // What a deed does to the cells and to the future's own handles.
  ghost predicate Hands(w: World, f: Future, d: Deed, w1: World, f1: Future) {
    && |w.joins| <= |w1.joins| && |f.handles| <= |f1.handles|
    && (forall c | 0 <= c < |w.joins| ::
          w1.joins[c] == w.joins[c] || (w.joins[c].Ready? && w1.joins[c].Consumed?))
    && (forall c | |w.joins| <= c < |w1.joins| :: w1.joins[c] == JoinState.Pending(None))
    && (forall k | 0 <= k < |f.handles| ::
          f1.handles[k] == f.handles[k] || (f.handles[k].Some? && f1.handles[k].None?))
    && (forall k | |f.handles| <= k < |f1.handles| ::
          f1.handles[k].Some? && f1.handles[k].value < |w1.joins| && w1.joins[f1.handles[k].value].Pending?)
    && (d.Took? ==> TakesFrom(w, f, d.k, d.r, w1, f1))
  }

  lemma CourseAfter(w: World, me: nat, f: Future, p: Program, d: Deed, w1: World, f1: Future, p1: Program,
        ds: seq<Deed>, q: Program, at: seq<nat>, r: PollResult)
    requires Course(w1, me, f1, p1, ds, q, at, r) && Does(w, d, w1) && Hands(w, f, d, w1, f1)
    requires Passes(p1, ds, q) ==> Passes(p, [d] + ds, q)
    ensures Course(w, me, f, p, [d] + ds, q, First(w.schedules, d) + Later(at), r)
  {
    hide Passes, InTurn, Stirred, Taken, Timed, Stops, Peopled, Does;
    StirredAfter(w, d, w1, ds, me, q.Yield?, r.w.schedules);
    InTurnAfter(w, d, w1, ds, at, r.w.ready);
    UnsentAfter(w, d, w1);
    PeopledAfter(w, d, w1, ds, r.w, me, q.Yield?);
    TakenAfter(w, d, w1, ds, r.w, f, f1, r.f);
    TimedAfter(w, d, w1, ds, r.w);
  }

  lemma UnsentAfter(w: World, d: Deed, w1: World)
    requires Does(w, d, w1)
    ensures w1.unsent == w.unsent
  {}

  /* ---- A whole poll ---- */

  // Changes that no deed accounts for: a timer that is given up, a stage that is left.
  lemma CourseSame(w: World, me: nat, f: Future, p: Program, w1: World, f1: Future, p1: Program, ds: seq<Deed>,
        q: Program, at: seq<nat>, r: PollResult)
    requires Course(w1, me, f1, p1, ds, q, at, r) && w1 == w.(timers := w1.timers) && f1.handles == f.handles
    requires Passes(p1, ds, q) ==> Passes(p, ds, q)
    ensures Course(w, me, f, p, ds, q, at, r)
  {
    hide Passes, InTurn, Stirred, Timed, Stops, Peopled;
    TakenSame(w, w1, f, f1, ds, r.w, r.f);
    PeopledSame(w, w1, ds, r.w);
    TimedSame(w, w1, ds, r.w);
  }

  lemma TakenSame(w: World, w1: World, f: Future, f1: Future, ds: seq<Deed>, v: World, f2: Future)
    requires Taken(w1, f1, ds, v, f2) && w1.joins == w.joins && f1.handles == f.handles
    ensures Taken(w, f, ds, v, f2)
  {
    forall i | 0 <= i < |ds| && ds[i].Took? ensures TakesFrom(w, f, ds[i].k, ds[i].r, v, f2) {
      assert TakesFrom(w1, f1, ds[i].k, ds[i].r, v, f2);
    }
  }

  lemma PeopledSame(w: World, w1: World, ds: seq<Deed>, v: World)
    requires Peopled(w1, ds, v) && w1 == w.(timers := w1.timers)
    ensures Peopled(w, ds, v)
  {}

  lemma TimedSame(w: World, w1: World, ds: seq<Deed>, v: World)
    requires Timed(w1, ds, v) && w1 == w.(timers := w1.timers)
    ensures Timed(w, ds, v)
  {}

  // The poll stops where it is.
  lemma CourseEnds(w: World, me: nat, f: Future, r: PollResult)
    requires UnderPoll(w, me) && f.stage.Run? && Stops(me, f.stage.p, r) && f.handles == r.f.handles
    requires r.w == w.(schedules := r.w.schedules, timers := r.w.timers, nextTimer := r.w.nextTimer,
        joins := r.w.joins, fault := r.w.fault)
    requires r.w.schedules == if f.stage.p.Yield?
        then w.schedules[me := w.schedules[me].(state := Running(true))] else w.schedules
    requires |r.w.joins| == |w.joins| && forall c | 0 <= c < |w.joins| && w.joins[c].Consumed? :: r.w.joins[c].Consumed?
    ensures Course(w, me, f, f.stage.p, [], f.stage.p, [], r)
  {
    hide Stops;
  }

  // Whatever the future does: once its wait is over, one poll of it follows its program, and
  // everything it does to others is what the instructions it gets past ask for.
  lemma {:induction false} PollCourse(w: World, me: nat, f: Future) returns (ds: seq<Deed>, q: Program, at: seq<nat>)
    requires UnderPoll(w, me) && (f.stage.Sleeping? ==> f.stage.deadline <= w.now)
    ensures Course(w, me, f, Onset(f.stage), ds, q, at, Poll(w, me, f))
    decreases StageWork(f.stage), if f.stage.Run? then 0 else 1, 3
  {
    hide Course;
    match f.stage
    case Run(p) => ds, q, at := RunCourse(w, me, f);
    case Sleeping(_, reg, next) =>
      var w1, f1 := w.(timers := w.timers - {reg}), f.(stage := Run(next));
      ds, q, at := PollCourse(w1, me, f1);
      CourseSame(w, me, f, next, w1, f1, next, ds, q, at, Poll(w, me, f));
    case Yielded(next) =>
      ds, q, at := PollCourse(w, me, f.(stage := Run(next)));
      CourseSame(w, me, f, next, w, f.(stage := Run(next)), next, ds, q, at, Poll(w, me, f));
    case Parked(next) =>
      ds, q, at := PollCourse(w, me, f.(stage := Run(next)));
      CourseSame(w, me, f, next, w, f.(stage := Run(next)), next, ds, q, at, Poll(w, me, f));
  }

  lemma RunCourse(w: World, me: nat, f: Future) returns (ds: seq<Deed>, q: Program, at: seq<nat>)
    requires UnderPoll(w, me) && f.stage.Run?
    ensures Course(w, me, f, f.stage.p, ds, q, at, Poll(w, me, f))
    decreases StageWork(f.stage), 0, 2
  {
    hide Course, Passes, Does, Hands;
    ds, q, at := [], f.stage.p, [];
    match f.stage.p
    case Sleep(d, next) => ds, q, at := SleepCourse(w, me, f);
    case Spawn(_, _) => ds, q, at := SpawnCourse(w, me, f);
    case Join(_, _, _) => ds, q, at := JoinCourse(w, me, f);
    case Wake(target, next) =>
      WakeDoes(w, me, f, target, f.(stage := Run(next)));
      ds, q, at := DeedCourse(w, me, f, Woke(target), WakeSchedule(w, target), f.(stage := Run(next)));
    case Busy(d, next) =>
      BusyDoes(w, me, f, d, f.(stage := Run(next)));
      ds, q, at := DeedCourse(w, me, f, Worked(d), Elapse(w, d), f.(stage := Run(next)));
    case Yield(_) => YieldEnds(w, me, f);
    case _ => CourseEnds(w, me, f, Poll(w, me, f));
  }

  lemma WakeDoes(w: World, me: nat, f: Future, s: nat, f1: Future)
    requires UnderPoll(w, me) && f1.handles == f.handles
    ensures UnderPoll(WakeSchedule(w, s), me) && Does(w, Woke(s), WakeSchedule(w, s))
    ensures Hands(w, f, Woke(s), WakeSchedule(w, s), f1)
  {}

  lemma BusyDoes(w: World, me: nat, f: Future, d: nat, f1: Future)
    requires UnderPoll(w, me) && f1.handles == f.handles
    ensures UnderPoll(Elapse(w, d), me) && Does(w, Worked(d), Elapse(w, d)) && Hands(w, f, Worked(d), Elapse(w, d), f1)
  {}

  lemma SpawnDoes(w: World, me: nat, f: Future, child: Program, f1: Future)
    requires UnderPoll(w, me) && f1.handles == f.handles + [Some(|w.joins|)]
    ensures var v, d := Spawned(w, child).0, Bore(Issue(w.nextTask).0, child);
      UnderPoll(v, me) && Does(w, d, v) && Hands(w, f, d, v, f1) && Spawned(w, child).1 == |w.joins|
  {}

  lemma TakeDoes(w: World, me: nat, f: Future, k: nat, f1: Future)
    requires UnderPoll(w, me) && k < |f.handles| && f.handles[k].Some? && f.handles[k].value < |w.joins|
    requires w.joins[f.handles[k].value].Ready? && f1.handles == f.handles[k := None]
    ensures var c := f.handles[k].value;
      var v, d := w.(joins := w.joins[c := Consumed]), Took(k, w.joins[c].result);
      UnderPoll(v, me) && Does(w, d, v) && Hands(w, f, d, v, f1)
  {}

  lemma YieldEnds(w: World, me: nat, f: Future)
    requires UnderPoll(w, me) && f.stage.Run? && f.stage.p.Yield?
    ensures Course(w, me, f, f.stage.p, [], f.stage.p, [], Poll(w, me, f))
  {
    CourseEnds(w, me, f, Poll(w, me, f));
  }

  lemma SleepCourse(w: World, me: nat, f: Future) returns (ds: seq<Deed>, q: Program, at: seq<nat>)
    requires UnderPoll(w, me) && f.stage.Run? && f.stage.p.Sleep?
    ensures Course(w, me, f, f.stage.p, ds, q, at, Poll(w, me, f))
    decreases StageWork(f.stage), 0, 1
  {
    hide Course;
    ds, q, at := [], f.stage.p, [];
    if f.stage.p.d == 0 {
      var f1 := f.(stage := Run(f.stage.p.next));
      ds, q, at := PollCourse(w, me, f1);
      CourseSame(w, me, f, f.stage.p, w, f1, f1.stage.p, ds, q, at, Poll(w, me, f));
    } else {
      CourseEnds(w, me, f, Poll(w, me, f));
    }
  }

  lemma SpawnCourse(w: World, me: nat, f: Future) returns (ds: seq<Deed>, q: Program, at: seq<nat>)
    requires UnderPoll(w, me) && f.stage.Run? && f.stage.p.Spawn?
    ensures Course(w, me, f, f.stage.p, ds, q, at, Poll(w, me, f))
    decreases StageWork(f.stage), 0, 1
  {
    hide Course, Passes, Does, Hands;
    var f1 := f.(stage := Run(f.stage.p.next), handles := f.handles + [Some(|w.joins|)]);
    SpawnDoes(w, me, f, f.stage.p.child, f1);
    hide Spawned, UnderPoll;
    ds, q, at := DeedCourse(w, me, f, Bore(Issue(w.nextTask).0, f.stage.p.child), Spawned(w, f.stage.p.child).0, f1);
  }

  lemma JoinCourse(w: World, me: nat, f: Future) returns (ds: seq<Deed>, q: Program, at: seq<nat>)
    requires UnderPoll(w, me) && f.stage.Run? && f.stage.p.Join?
    ensures Course(w, me, f, f.stage.p, ds, q, at, Poll(w, me, f))
    decreases StageWork(f.stage), 0, 1
  {
    hide Course, Passes, Does, Hands;
    ds, q, at := [], f.stage.p, [];
    var k, p := f.stage.p.k, f.stage.p;
    if k < |f.handles| && f.handles[k].Some? && f.handles[k].value < |w.joins|
        && w.joins[f.handles[k].value].Ready? {
      var c := f.handles[k].value;
      var r := w.joins[c].result;
      var f1 := match r
                case Ok(v) => f.(stage := Run(p.ok), acc := f.acc + v, handles := f.handles[k := None])
                case Err(_) => f.(stage := Run(p.err), handles := f.handles[k := None]);
      TakeDoes(w, me, f, k, f1);
      ds, q, at := DeedCourse(w, me, f, Took(k, r), w.(joins := w.joins[c := Consumed]), f1);
    } else {
      CourseEnds(w, me, f, Poll(w, me, f));
    }
  }

  // After one instruction the poll goes on.
  lemma DeedCourse(w: World, me: nat, f: Future, d: Deed, w1: World, f1: Future)
    returns (ds: seq<Deed>, q: Program, at: seq<nat>)
    requires UnderPoll(w1, me) && f.stage.Run? && f1.stage.Run? && StageWork(f1.stage) < StageWork(f.stage)
    requires Does(w, d, w1) && Hands(w, f, d, w1, f1) && Poll(w, me, f) == Poll(w1, me, f1)
    requires OneDeed(f.stage.p, d, f1.stage.p)
    ensures Course(w, me, f, f.stage.p, ds, q, at, Poll(w, me, f))
    decreases StageWork(f.stage), 0, 0
  {
    hide Course, Passes, Does, Hands, Poll, OneDeed;
    ds, q, at := PollCourse(w1, me, f1);
    DeedPasses(f.stage.p, d, f1.stage.p, ds, q);
    CourseAfter(w, me, f, f.stage.p, d, w1, f1, f1.stage.p, ds, q, at, Poll(w, me, f));
    ds, at := [d] + ds, First(w.schedules, d) + Later(at);
  }

  predicate OneDeed(p: Program, d: Deed, p1: Program) {
    match d
    case Woke(s) => p == Program.Wake(s, p1)
    case Bore(_, child) => p == Program.Spawn(child, p1)
    case Took(k, r) => p.Join? && p.k == k && p1 == if r.Ok? then p.ok else p.err
    case Worked(t) => p == Busy(t, p1)
  }

  lemma DeedPasses(p: Program, d: Deed, p1: Program, ds: seq<Deed>, q: Program)
    requires OneDeed(p, d, p1)
    ensures Passes(p1, ds, q) ==> Passes(p, [d] + ds, q)
  {
    assert ([d] + ds)[1..] == ds;
  }
}
