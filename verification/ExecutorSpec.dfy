/** The executor and everything it drives, as one value: the task table, the spawn queue, the
    ready channel, the sends that other threads have decided on and not yet performed, the
    schedules that wakers point to, the join cells, and the timer registrations. Schedules and join
    cells are numbered by creation and never disappear, because wakers and handles may outlive the
    task they belong to. */
module ExecutorSpec {
  import opened Wrappers
  import opened TimerSpec
  import opened ScheduleState
  import opened JoinSpec
  import opened Programs
  import opened TaskIdSpec

  datatype Schedule = Schedule(id: nat, state: State)

  // Where a future stands between two polls.
  datatype Stage =
    | Run(p: Program)
    | Sleeping(deadline: int, reg: nat, next: Program)
    | Yielded(next: Program)
    | Parked(next: Program)

  // A handle is `None` once it has been awaited.
  datatype Future = Future(stage: Stage, acc: int, handles: seq<Option<nat>>)

  // `out` is the join cell the task publishes to; only the root has none.
  datatype LocalTask = LocalTask(id: nat, sched: nat, out: Option<nat>, future: Future)

  type Cells = seq<JoinState<int>>

  // What a join cell's task was spawned with, and when.
  datatype Origin = Origin(p: Program, at: int)

  // `unsent` holds the ids that other threads have decided to enqueue: a wake changes the state
  // under the lock and sends after releasing it.
  //
  // Three fields only record what has happened: `origins`, one entry per join cell; `overtaken`,
  // how often a paused clock was moved past a task that was ready to go on and whose wake was
  // still in flight; `fault`, an `expect`, `assert!` or `unreachable!` of the runtime has fired.
  datatype World = World( paused: bool, now: int, ready: seq<nat>, unsent: multiset<nat>, pending: seq<LocalTask>,
        tasks: map<nat, LocalTask>, schedules: seq<Schedule>, joins: Cells, origins: seq<Origin>,
        timers: Registrations, nextTimer: nat, nextTask: nat, closed: bool, overtaken: nat, fault: bool)

  const ROOT: nat := 0

  function NewWorld(paused: bool, now: int): World {
    World(paused, now, [], multiset{}, [], map[], [], [], [], map[], 0, 1, false, 0, false)
  }

  /* ---- Waking ---- */

  function WakeSchedule(w: World, s: nat): World {
    if s < |w.schedules| then
      var x := w.schedules[s];
      w.(schedules := w.schedules[s := x.(state := Woken(x.state))],
         ready := if WakeEnqueues(x.state) then w.ready + [x.id] else w.ready)
    else
      w
  }

  function WakeAll(w: World, ss: seq<nat>): World
    decreases |ss|
  {
    if ss == [] then w else WakeAll(WakeSchedule(w, ss[0]), ss[1..])
  }

  // What another thread does: take the lock and wake, or perform the send it has decided on.
  datatype Act = Lock(s: nat) | Send(s: nat)

  function Acted(w: World, a: Act): World {
    if a.s >= |w.schedules| then w
    else
      var x := w.schedules[a.s];
      match a
      case Lock(s) =>
        w.(schedules := w.schedules[s := x.(state := Woken(x.state))],
           unsent := if WakeEnqueues(x.state) then w.unsent + multiset{x.id} else w.unsent)
      case Send(s) =>
        if x.state.Queued? && x.id in w.unsent then w.(unsent := w.unsent - multiset{x.id}, ready := w.ready + [x.id])
        else w
  }

  function ActAll(w: World, acts: seq<Act>): World
    decreases |acts|
  {
    if acts == [] then w else ActAll(Acted(w, acts[0]), acts[1..])
  }

  // The messages that are in the channel or on their way into it.
  function Tokens(w: World): multiset<nat> {
    multiset(w.ready) + w.unsent
  }

  function WakeWaiter(w: World, waiter: Option<nat>): World {
    match waiter
    case None => w
    case Some(s) => WakeSchedule(w, s)
  }

  /* ---- Join cells ---- */

  // Complete the cell and wake whoever waits on it.
  function Publish(w: World, c: nat, r: Result<int, JoinError>): World {
    if c < |w.joins| && w.joins[c].Pending? then
      WakeWaiter(w.(joins := w.joins[c := Ready(r)]), w.joins[c].waker)
    else
      w.(fault := true)
  }

  // The cells after the handles in `hs` are dropped: an unresolved cell forgets its waiter.
  function Detached(joins: Cells, hs: seq<Option<nat>>): (r: Cells)
    ensures |r| == |joins|
    ensures forall c | 0 <= c < |joins| ::
      r[c] == if joins[c].Pending? && Some(c) in hs then JoinState.Pending(None) else joins[c]
  {
    seq(|joins|, c requires 0 <= c < |joins| =>
      if joins[c].Pending? && Some(c) in hs then JoinState.Pending(None) else joins[c])
  }

  /* ---- Spawning ---- */

  // Returns the world and the new task's join cell.
  function Spawned(w: World, p: Program): (World, nat) {
    var cell := |w.joins|;
    if w.closed then
      (w.(joins := w.joins + [Ready(Err(Cancelled))], origins := w.origins + [Origin(p, w.now)]), cell)
    else
      var (id, next) := Issue(w.nextTask);
      var s := |w.schedules|;
      var task := LocalTask(id, s, Some(cell), Future(Run(p), 0, []));
      var w1 := w.(joins := w.joins + [JoinState.Pending(None)], origins := w.origins + [Origin(p, w.now)],
          nextTask := next,
                   schedules := w.schedules + [Schedule(id, Idle)], pending := w.pending + [task]);
      (WakeSchedule(w1, s), cell)
  }

  // Several spawns, one after the other.
  function SpawnAll(w: World, ps: seq<Program>): World
    decreases |ps|
  {
    if ps == [] then w else SpawnAll(Spawned(w, ps[0]).0, ps[1..])
  }

  /* ---- Polling a future ---- */

  datatype Polled = Suspended | Resolved(out: Outcome)

  datatype PollResult = PollResult(w: World, f: Future, res: Polled)

  function StageWork(s: Stage): (n: nat)
    ensures n >= 1
  {
    match s
    case Run(p) => Work(p)
    case Sleeping(_, _, next) => 1 + Work(next)
    case Yielded(next) => Work(next)
    case Parked(next) => Work(next)
  }

  function Elapse(w: World, d: nat): World {
    if w.paused then w else w.(now := w.now + d)
  }

  // Runs a future until it suspends or resolves; `me` is the schedule its waker points to.
  function Poll(w: World, me: nat, f: Future): PollResult
    decreases StageWork(f.stage), if f.stage.Run? then 0 else 1
  {
    match f.stage
    case Sleeping(deadline, reg, next) =>
      if w.now >= deadline then
        Poll(w.(timers := w.timers - {reg}), me, f.(stage := Run(next)))
      else if reg in w.timers then
        PollResult(w.(timers := w.timers[reg := w.timers[reg].(waker := me)]), f, Suspended)
      else
        PollResult(w.(fault := true), f, Resolved(Panicked))
    case Yielded(next) => Poll(w, me, f.(stage := Run(next)))
    case Parked(next) => Poll(w, me, f.(stage := Run(next)))
    case Run(p) =>
      match p
      case Return(v) => PollResult(w, f, Resolved(Value(f.acc + v)))
      case Panic => PollResult(w, f, Resolved(Panicked))
      case Sleep(d, next) =>
        if d == 0 then
          Poll(w, me, f.(stage := Run(next)))
        else if w.nextTimer in w.timers then
          PollResult(w.(fault := true, nextTimer := WrappingSucc(w.nextTimer)), f, Resolved(Panicked))
        else
          PollResult(w.(timers := w.timers[w.nextTimer := Registration(w.now + d, me)],
              nextTimer := WrappingSucc(w.nextTimer)),
                     f.(stage := Sleeping(w.now + d, w.nextTimer, next)), Suspended)
      case Spawn(child, next) =>
        var (w1, cell) := Spawned(w, child);
        Poll(w1, me, f.(stage := Run(next), handles := f.handles + [Some(cell)]))
      case Join(k, ok, err) =>
        if k < |f.handles| && f.handles[k].Some? && f.handles[k].value < |w.joins| then
          var c := f.handles[k].value;
          match w.joins[c]
          case Pending(_) =>
            PollResult(w.(joins := w.joins[c := JoinState.Pending(Some(me))]), f, Suspended)
          case Ready(r) =>
            var w1 := w.(joins := w.joins[c := Consumed]);
            var hs := f.handles[k := None];
            (match r
             case Ok(v) => Poll(w1, me, f.(stage := Run(ok), acc := f.acc + v, handles := hs))
             case Err(_) => Poll(w1, me, f.(stage := Run(err), handles := hs)))
          case Consumed =>
            PollResult(w.(fault := true), f, Resolved(Panicked))
        else
          PollResult(w, f, Resolved(Panicked))
      case Yield(next) => PollResult(WakeSchedule(w, me), f.(stage := Yielded(next)), Suspended)
      case Wake(target, next) => Poll(WakeSchedule(w, target), me, f.(stage := Run(next)))
      case Busy(d, next) => Poll(Elapse(w, d), me, f.(stage := Run(next)))
      case Park(next) => PollResult(w, f.(stage := Parked(next)), Suspended)
  }

  /* ---- The outside ---- */

  // What the outside does between two steps of the executor: real time passes, and other
  // threads take locks and perform sends in any order. `pick` selects the entry that is received
  // next; the channel itself always delivers entry 0.
  datatype Event = Event(elapse: nat, acts: seq<Act>, pick: nat)

  const QUIET := Event(0, [], 0)

  function Head(env: seq<Event>): Event { if env == [] then QUIET else env[0] }

  function Tail(env: seq<Event>): seq<Event> { if env == [] then [] else env[1..] }

  function Outside(w: World, e: Event): World {
    ActAll(Elapse(w, e.elapse), e.acts)
  }

  // The schedules whose lock has been taken with no send after it; `o` is what was open before.
  function Opened(o: set<nat>, acts: seq<Act>): set<nat>
    decreases |acts|
  {
    if acts == [] then o
    else
      match acts[0]
      case Lock(s) => Opened(o + {s}, acts[1..])
      case Send(s) => Opened(o - {s}, acts[1..])
  }

  function OpenAfter(o: set<nat>, env: seq<Event>): set<nat>
    decreases |env|
  {
    if env == [] then o else OpenAfter(Opened(o, env[0].acts), env[1..])
  }

  // Every thread that takes a lock gets to its send before the executor's next step.
  predicate Prompt(env: seq<Event>) {
    forall i | 0 <= i < |env| :: Opened({}, env[i].acts) == {}
  }

  /* ---- Polling a task ---- */

  function BeginPoll(w: World, s: nat): World {
    if s < |w.schedules| && w.schedules[s].state.Queued? then
      w.(schedules := w.schedules[s := w.schedules[s].(state := Running(false))])
    else
      w.(fault := true)
  }

  function FinishPoll(w: World, s: nat, ready: bool): World {
    if s < |w.schedules| && w.schedules[s].state.Running? then
      var x := w.schedules[s];
      w.(schedules := w.schedules[s := x.(state := Finished(x.state, ready))],
         ready := if FinishEnqueues(x.state, ready) then w.ready + [x.id] else w.ready)
    else
      w.(fault := true)
  }

  function ResultOf(o: Outcome): Result<int, JoinError> {
    match o
    case Value(v) => Ok(v)
    case Panicked => Err(JoinError.Panic)
  }

  // The future's locals go first, then its result reaches the join cell.
  function Resolve(w: World, t: LocalTask, f: Future, o: Outcome): World {
    var w1 := w.(joins := Detached(w.joins, f.handles));
    match t.out
    case Some(c) => Publish(w1, c, ResultOf(o))
    case None => w1
  }

  // `e` is what happens outside while the future runs.
  function PollTask(w: World, id: nat, e: Event): World {
    if id in w.tasks then
      var t := w.tasks[id];
      var r := Poll(Outside(BeginPoll(w, t.sched), e), t.sched, t.future);
      match r.res
      case Suspended =>
        FinishPoll(r.w.(tasks := r.w.tasks[id := t.(future := r.f)]), t.sched, false)
      case Resolved(o) =>
        var w1 := FinishPoll(Resolve(r.w, t, r.f, o), t.sched, true);
        w1.(tasks := w1.tasks - {id})
    else
      w.(fault := true)
  }

  /* ---- Waiting for a ready task ---- */

  function Admitted(tasks: map<nat, LocalTask>, pending: seq<LocalTask>): map<nat, LocalTask>
    decreases |pending|
  {
    if pending == [] then tasks
    else Admitted(tasks[pending[0].id := pending[0]], pending[1..])
  }

  function Drain(w: World): World {
    w.(tasks := Admitted(w.tasks, w.pending), pending := [])
  }

  ghost function Wakers(m: Registrations, ids: seq<nat>): (ws: seq<nat>)
    requires forall id :: id in ids ==> id in m
    ensures |ws| == |ids|
    ensures forall i | 0 <= i < |ids| :: ws[i] == m[ids[i]].waker
  {
    seq(|ids|, i requires 0 <= i < |ids| => m[ids[i]].waker)
  }

  ghost function Expire(w: World): World {
    WakeAll(w.(timers := Remaining(w.timers, w.now)), Wakers(w.timers, Due(w.timers, w.now)))
  }

  ghost function NextDeadline(m: Registrations): Option<int> {
    if m == map[] then None else Some(m[Earliest(m)].deadline)
  }

  datatype Received = Received(w: World, env: seq<Event>, id: nat) | Blocked(w: World)

  function Without(ready: seq<nat>, i: nat): seq<nat>
    requires i < |ready|
  {
    ready[..i] + ready[i + 1..]
  }

  function Receive(w: World, env: seq<Event>, pick: nat): Received
    requires w.ready != []
  {
    var i := if pick < |w.ready| then pick else 0;
    Received(w.(ready := Without(w.ready, i)), env, w.ready[i])
  }

  // Every registration is still ahead of the clock.
  predicate NoneDue(m: Registrations, now: int) {
    forall id | id in m :: m[id].deadline > now
  }

  lemma EarliestLeaves(m: Registrations, before: int, now: int)
    requires m != map[] && before <= now
    requires before < m[Earliest(m)].deadline <= now
    ensures |Remaining(m, now)| < |Remaining(m, before)|
  {
    var e := Earliest(m);
    assert Remaining(m, now).Keys <= Remaining(m, before).Keys - {e};
    SubsetSize(Remaining(m, now).Keys, Remaining(m, before).Keys - {e});
  }

  lemma SubsetSize(a: set<nat>, b: set<nat>)
    requires a <= b
    ensures |a| <= |b|
  {
    if a != {} {
      var x :| x in a;
      SubsetSize(a - {x}, b - {x});
    }
  }

  lemma WakeAllFrame(w: World, ss: seq<nat>)
    ensures var v := WakeAll(w, ss);
      v == w.(schedules := v.schedules, ready := v.ready) && |v.schedules| == |w.schedules| && w.ready <= v.ready
    decreases |ss|
  {
    if ss != [] {
      WakeAllFrame(WakeSchedule(w, ss[0]), ss[1..]);
    }
  }

  lemma ActedFrame(w: World, a: Act)
    ensures var v := Acted(w, a);
      v == w.(schedules := v.schedules, ready := v.ready, unsent := v.unsent) && |v.schedules| == |w.schedules|
          && w.ready <= v.ready
  {}

  lemma ActAllFrame(w: World, acts: seq<Act>)
    ensures var v := ActAll(w, acts);
      v == w.(schedules := v.schedules, ready := v.ready, unsent := v.unsent) && |v.schedules| == |w.schedules|
          && w.ready <= v.ready
    decreases |acts|
  {
    hide Acted;
    if acts != [] {
      ActedFrame(w, acts[0]);
      ActAllFrame(Acted(w, acts[0]), acts[1..]);
    }
  }

  predicate WakerOf(w: World, s: nat, id: nat) {
    s < |w.schedules| && w.schedules[s].id == id
  }

  // The task's wake is on its way into the channel, and neither a timer nor an unresolved cell
  // holds its waker any more: what it was waiting for has happened.
  ghost predicate StalledTask(w: World, id: nat) {
    && id in w.unsent
    && (forall r | r in w.timers :: !WakerOf(w, w.timers[r].waker, id))
    && (forall c | 0 <= c < |w.joins| && w.joins[c].Pending? && w.joins[c].waker.Some? ::
        !WakerOf(w, w.joins[c].waker.value, id))
  }

  ghost predicate Stalled(w: World) {
    exists id :: StalledTask(w, id)
  }

  // A paused clock moves to the next deadline.
  ghost function Jumped(w: World): World
    requires w.timers != map[]
  {
    w.(now := NextDeadline(w.timers).value, overtaken := w.overtaken + if Stalled(w) then 1 else 0)
  }

  lemma RemainingTwice(m: Registrations, now: int)
    ensures Remaining(Remaining(m, now), now) == Remaining(m, now)
  {}

  ghost function NextReady(w: World, env: seq<Event>): Received
    decreases |env|, |Remaining(w.timers, w.now)|, 1
  {
    var e, rest := Head(env), Tail(env);
    var w1 := Expire(Drain(Outside(w, e)));
    assert (env == [] ==> w1.now == w.now) && NoneDue(w1.timers, w1.now)
        && (env == [] ==> w1.timers == Remaining(w.timers, w.now)) by {
      ActAllFrame(Elapse(w, e.elapse), e.acts);
      var v := Drain(Outside(w, e));
      WakeAllFrame(v.(timers := Remaining(v.timers, v.now)), Wakers(v.timers, Due(v.timers, v.now)));
    }
    if w1.ready != [] then
      Receive(w1, rest, e.pick)
    else if w1.paused && w1.timers != map[] then
      var d := NextDeadline(w1.timers).value;
      EarliestLeaves(w1.timers, w1.now, d);
      RemainingTwice(w.timers, w.now);
      NextReady(Jumped(w1), rest)
    else
      RemainingTwice(w.timers, w.now);
      Wait(w1, rest)
  }

  ghost function Wait(w: World, env: seq<Event>): Received
    requires NoneDue(w.timers, w.now)
    decreases |env|, |Remaining(w.timers, w.now)|, 0
  {
    if env == [] then
      if w.timers == map[] then
        Blocked(w)
      else
        var d := NextDeadline(w.timers).value;
        EarliestLeaves(w.timers, w.now, d);
        NextReady(w.(now := d), [])
    else
      var w1 := Outside(w, env[0]);
      ActAllFrame(Elapse(w, env[0].elapse), env[0].acts);
      if w1.ready != [] then
        Receive(w1, env[1..], env[0].pick)
      else if NoneDue(w1.timers, w1.now) then
        Wait(w1, env[1..])
      else
        NextReady(w1, env[1..])
  }

  /* ---- block_on ---- */

  // The future passed to `block_on`, with the join handles moved into it.
  datatype Job = Job(p: Program, handles: seq<Option<nat>>)

  datatype Conf = Conf(w: World, root: LocalTask)

  function Started(w: World, job: Job): Conf {
    var s := |w.schedules|;
    Conf(WakeSchedule(w.(schedules := w.schedules + [Schedule(ROOT, Idle)]), s),
        LocalTask(ROOT, s, None, Future(Run(job.p), 0, job.handles)))
  }

  datatype TurnResult =
    | Continue(c: Conf, env: seq<Event>)
    | Exit(w: World, out: Outcome, env: seq<Event>)
    | Stuck(c: Conf)

  // A root that panics unwinds out of its poll: its schedule is left running.
  function PollRoot(w: World, env: seq<Event>, root: LocalTask): TurnResult {
    var r := Poll(Outside(BeginPoll(w, root.sched), Head(env)), root.sched, root.future);
    match r.res
    case Suspended => Continue(Conf(FinishPoll(r.w, root.sched, false), root.(future := r.f)), Tail(env))
    case Resolved(Value(v)) => Exit(FinishPoll(Resolve(r.w, root, r.f, Value(v)), root.sched, true), Value(v),
        Tail(env))
    case Resolved(Panicked) => Exit(Resolve(r.w, root, r.f, Panicked), Panicked, Tail(env))
  }

  // One round of the loop in `block_on`.
  ghost function Turn(c: Conf, env: seq<Event>): TurnResult {
    match NextReady(c.w, env)
    case Blocked(w) => Stuck(c.(w := w))
    case Received(w, rest, id) =>
      if id == ROOT then PollRoot(w, rest, c.root)
      else Continue(c.(w := PollTask(w, id, Head(rest))), Tail(rest))
  }

  // At most `n` rounds; `Continue` means that more are needed.
  ghost function Drive(c: Conf, env: seq<Event>, n: nat): TurnResult
    decreases n
  {
    if n == 0 then Continue(c, env)
    else
      match Turn(c, env)
      case Continue(c1, rest) => Drive(c1, rest, n - 1)
      case Exit(w, out, rest) => Exit(w, out, rest)
      case Stuck(c1) => Stuck(c1)
  }
}
