/** What one wait for a ready task does, seen from outside: whom expiry wakes and in which order,
    what ends the wait, and when. */
module WaitEffects {
  import opened Wrappers
  import opened TimerSpec
  import opened ScheduleState
  import opened JoinSpec
  import opened ExecutorSpec
  import opened Invariant
  import opened PollInvariant
  import opened TurnInvariant
  import opened WaitInvariant
  import opened VirtualTime
  import opened RunProperties

  /* ---- Expiry ---- */

  // Every registration has a waker of its own.
  ghost predicate OwnWakers(w: World) {
    && (forall r | r in w.timers :: w.timers[r].waker < |w.schedules|)
    && (forall r, r' | r in w.timers && r' in w.timers && r != r' :: w.timers[r].waker != w.timers[r'].waker)
  }

  lemma WakersAreOwn(w: World, all: Population, cur: int, g: Ghost, owed: set<nat>)
    requires Inv(w, all, cur, g, owed)
    ensures OwnWakers(w)
  {
    forall r | r in w.timers ensures Owned(w.timers, r, w.schedules, all) {}
  }

  // At time `now` expiry adds `added` to the channel: the ids of the idle tasks behind the passed
  // registrations `hit`, in the order of their deadlines, and of their registrations among equals.
  ghost predicate Rung(w: World, now: int, hit: seq<nat>, added: seq<nat>) {
    && |added| == |hit|
    && (forall r: nat :: r in hit <==>
          (&& r in w.timers && w.timers[r].deadline <= now
           && w.timers[r].waker < |w.schedules| && w.schedules[w.timers[r].waker].state.Idle?))
    && (forall i, j | 0 <= i < j < |hit| ::
          Before(w.timers[hit[i]].deadline, hit[i], w.timers[hit[j]].deadline, hit[j]))
    && (forall j | 0 <= j < |hit| :: added[j] == w.schedules[w.timers[hit[j]].waker].id)
  }

  // The ids of the tasks behind some registrations.
  ghost function Behind(ss: seq<Schedule>, m: Registrations, hit: seq<nat>): (ids: seq<nat>)
    requires forall r | r in hit :: r in m && m[r].waker < |ss|
    ensures |ids| == |hit| && forall j | 0 <= j < |hit| :: ids[j] == ss[m[hit[j]].waker].id
  {
    seq(|hit|, j requires 0 <= j < |hit| => ss[m[hit[j]].waker].id)
  }

  // Those registrations among `ids` whose tasks are idle.
  ghost predicate HitsOf(ss: seq<Schedule>, m: Registrations, ids: seq<nat>, hit: seq<nat>)
    requires forall id | id in ids :: id in m && m[id].waker < |ss|
  {
    forall r: nat :: r in hit <==> r in ids && ss[m[r].waker].state.Idle?
  }

  // The first registration comes first, and its task alone is touched by its wake.
  lemma FirstIsApart(m: Registrations, ids: seq<nat>)
    requires ids != [] && (forall id | id in ids :: id in m) && InExpiryOrder(m, ids)
    ensures ids[0] !in ids[1..] && InExpiryOrder(m, ids[1..])
    ensures forall id | id in ids[1..] :: id in ids && Before(m[ids[0]].deadline, ids[0], m[id].deadline, id)
  {}

  lemma HitsFirst(w: World, m: Registrations, ids: seq<nat>, hit: seq<nat>)
    requires ids != [] && forall id | id in ids :: id in m && m[id].waker < |w.schedules|
    requires forall r, r' | r in ids && r' in ids && r != r' :: m[r].waker != m[r'].waker
    requires ids[0] !in ids[1..] && HitsOf(WakeSchedule(w, m[ids[0]].waker).schedules, m, ids[1..], hit)
    ensures HitsOf(w.schedules, m, ids, (if w.schedules[m[ids[0]].waker].state.Idle? then [ids[0]] else []) + hit)
  {
    var hit1 := (if w.schedules[m[ids[0]].waker].state.Idle? then [ids[0]] else []) + hit;
    forall r: nat ensures r in hit1 <==> r in ids && w.schedules[m[r].waker].state.Idle? {
      assert r in ids <==> r == ids[0] || r in ids[1..];
    }
  }

  lemma OrderFirst(m: Registrations, first: nat, hit: seq<nat>, idle: bool)
    requires first in m && forall r | r in hit :: r in m && Before(m[first].deadline, first, m[r].deadline, r)
    requires InExpiryOrder(m, hit)
    ensures InExpiryOrder(m, (if idle then [first] else []) + hit)
  {}

  lemma BehindConcat(ss: seq<Schedule>, m: Registrations, a: seq<nat>, b: seq<nat>)
    requires forall r | r in a || r in b :: r in m && m[r].waker < |ss|
    ensures Behind(ss, m, a + b) == Behind(ss, m, a) + Behind(ss, m, b)
  {}

  lemma BehindSame(ss: seq<Schedule>, ss1: seq<Schedule>, m: Registrations, hit: seq<nat>)
    requires |ss1| == |ss| && forall s | 0 <= s < |ss| :: ss1[s].id == ss[s].id
    requires forall r | r in hit :: r in m && m[r].waker < |ss|
    ensures Behind(ss1, m, hit) == Behind(ss, m, hit)
  {}

  lemma WakeAdds(w: World, s: nat)
    requires s < |w.schedules|
    ensures var v := WakeSchedule(w, s);
      && |v.schedules| == |w.schedules| && (forall t | 0 <= t < |w.schedules| :: v.schedules[t].id == w.schedules[t].id)
      && v.ready == w.ready + if w.schedules[s].state.Idle? then [w.schedules[s].id] else []
  {}

  lemma BehindFirst(w: World, m: Registrations, first: nat, hit: seq<nat>)
    requires first in m && m[first].waker < |w.schedules| && forall r | r in hit :: r in m && m[r].waker < |w.schedules|
    ensures var w1, idle := WakeSchedule(w, m[first].waker), w.schedules[m[first].waker].state.Idle?;
      && |w1.schedules| == |w.schedules|
      && w1.ready + Behind(w1.schedules, m, hit) ==
         w.ready + Behind(w.schedules, m, (if idle then [first] else []) + hit)
  {
    hide WakeSchedule;
    var w1, idle := WakeSchedule(w, m[first].waker), w.schedules[m[first].waker].state.Idle?;
    var one := if idle then [first] else [];
    WakeAdds(w, m[first].waker);
    BehindSame(w.schedules, w1.schedules, m, hit);
    BehindConcat(w.schedules, m, one, hit);
    assert Behind(w.schedules, m, one) == if idle then [w.schedules[m[first].waker].id] else [];
    Regroup(w.ready, Behind(w.schedules, m, one), Behind(w.schedules, m, hit));
  }

  lemma Regroup(a: seq<nat>, b: seq<nat>, c: seq<nat>)
    ensures (a + b) + c == a + (b + c)
  {}

  lemma WakersStep(w: World, m: Registrations, ids: seq<nat>)
    requires ids != [] && forall id | id in ids :: id in m
    ensures WakeAll(w, Wakers(m, ids)) == WakeAll(WakeSchedule(w, m[ids[0]].waker), Wakers(m, ids[1..]))
  {
    hide WakeSchedule;
    assert Wakers(m, ids)[1..] == Wakers(m, ids[1..]);
  }

  lemma {:induction false} WakesInOrder(w: World, m: Registrations, ids: seq<nat>) returns (hit: seq<nat>)
    requires forall id | id in ids :: id in m && m[id].waker < |w.schedules|
    requires forall r, r' | r in ids && r' in ids && r != r' :: m[r].waker != m[r'].waker
    requires InExpiryOrder(m, ids)
    ensures HitsOf(w.schedules, m, ids, hit) && InExpiryOrder(m, hit)
    ensures WakeAll(w, Wakers(m, ids)).ready == w.ready + Behind(w.schedules, m, hit)
    decreases |ids|
  {
    hide WakeSchedule;
    hit := [];
    if ids != [] {
      var w1, idle := WakeSchedule(w, m[ids[0]].waker), w.schedules[m[ids[0]].waker].state.Idle?;
      FirstIsApart(m, ids);
      BehindFirst(w, m, ids[0], []);
      WakersStep(w, m, ids);
      hide WakeAll;
      var hit1 := WakesInOrder(w1, m, ids[1..]);
      HitsFirst(w, m, ids, hit1);
      assert forall r | r in hit1 :: r in ids[1..];
      OrderFirst(m, ids[0], hit1, idle);
      BehindFirst(w, m, ids[0], hit1);
      hit := (if idle then [ids[0]] else []) + hit1;
    }
  }

  lemma DueAreOwn(w: World) returns (ids: seq<nat>)
    requires OwnWakers(w)
    ensures ids == Due(w.timers, w.now) && InExpiryOrder(w.timers, ids)
    ensures forall id :: id in ids <==> id in w.timers && w.timers[id].deadline <= w.now
    ensures forall id | id in ids :: id in w.timers && w.timers[id].waker < |w.schedules|
    ensures forall r, r' | r in ids && r' in ids && r != r' :: w.timers[r].waker != w.timers[r'].waker
  {
    ids := Due(w.timers, w.now);
    DueIsExact(w.timers, w.now);
  }

  // Expiry takes away the registrations whose deadlines have passed, and puts the ids of the idle
  // tasks behind them at the end of the channel, earliest deadline first, each once.
  lemma ExpiryWakesInOrder(w: World) returns (hit: seq<nat>, added: seq<nat>)
    requires OwnWakers(w)
    ensures Expire(w).ready == w.ready + added && Rung(w, w.now, hit, added)
    ensures forall r :: r in Expire(w).timers <==> r in w.timers && w.timers[r].deadline > w.now
  {
    var v := w.(timers := Remaining(w.timers, w.now));
    var ids := DueAreOwn(w);
    hide Due, OwnWakers, WakeAll, HitsOf, InExpiryOrder, Rung;
    hit := WakesInOrder(v, w.timers, ids);
    WakeAllFrame(v, Wakers(w.timers, ids));
    RungBy(w, ids, hit);
    added := Behind(w.schedules, w.timers, hit);
  }

  lemma RungBy(w: World, ids: seq<nat>, hit: seq<nat>)
    requires forall id :: id in ids <==> id in w.timers && w.timers[id].deadline <= w.now
    requires forall id | id in ids :: id in w.timers && w.timers[id].waker < |w.schedules|
    requires HitsOf(w.schedules, w.timers, ids, hit) && InExpiryOrder(w.timers, hit)
    ensures Rung(w, w.now, hit, Behind(w.schedules, w.timers, hit))
  {}

  /* ---- What ends a wait ---- */

  // Time passes and nobody acts.
  function Lull(ds: seq<nat>): (env: seq<Event>)
    ensures |env| == |ds| && forall i | 0 <= i < |ds| :: env[i] == Event(ds[i], [], 0)
  {
    seq(|ds|, i requires 0 <= i < |ds| => Event(ds[i], [], 0))
  }

  function Sum(ds: seq<nat>): nat {
    if ds == [] then 0 else ds[0] + Sum(ds[1..])
  }

  lemma OneLull(d: nat, ds: seq<nat>, env: seq<Event>)
    ensures Lull([d] + ds) + env == [Event(d, [], 0)] + (Lull(ds) + env)
    ensures Sum([d] + ds) == d + Sum(ds)
  {
    assert ([d] + ds)[1..] == ds;
  }

  function After(w: World, d: nat): int {
    if w.paused then w.now else w.now + d
  }

  // The first step of a wait: `d` passes, nobody acts, and expiry comes.
  lemma FirstStep(w: World, d: nat) returns (hit: seq<nat>, added: seq<nat>)
    requires OwnWakers(w)
    ensures var v := Expire(Drain(Outside(w, Event(d, [], 0))));
      && v.ready == w.ready + added && Rung(w, After(w, d), hit, added) && v.now == After(w, d)
      && v.paused == w.paused && |v.schedules| == |w.schedules| && v.timers == Remaining(w.timers, After(w, d))
      && NoneDue(v.timers, v.now) && v.unsent == w.unsent && v.joins == w.joins && OwnWakers(v)
      && v == w.(tasks := v.tasks, pending := [], now := v.now, timers := v.timers, schedules := v.schedules,
                 ready := v.ready)
      && (added == [] ==> hit == [])
  {
    var u := Drain(Outside(w, Event(d, [], 0)));
    hit, added := ExpiryWakesInOrder(u);
    WakeAllFrame(u.(timers := Remaining(u.timers, u.now)), Wakers(u.timers, Due(u.timers, u.now)));
  }

  // At every point of every run: a wait that begins with no other thread acting finds in the
  // channel what was there and, behind it, the tasks whose deadlines have passed, earliest first.
  // If that is anything at all, it hands out the first and does not block.
  lemma WaitTakesExpired(w: World, job: Job, env: seq<Event>, n: nat, c: Conf, rest: seq<Event>, g: Ghost)
    returns (hit: seq<nat>, added: seq<nat>)
    requires CanStart(w, job, g) && Reaches(w, job, env, n, c, rest)
    requires Head(rest).acts == [] && Head(rest).pick == 0
    ensures Rung(c.w, After(c.w, Head(rest).elapse), hit, added)
    ensures c.w.ready + added != [] ==> TakesFirst(c.w, c.w.ready + added, Head(rest), Tail(rest), NextReady(c.w, rest))
  {
    hide CanStart, Reaches, Inv, Rung, NextReady;
    var g1 := ReachedIsGood(w, job, env, n, c, rest, g);
    WakersAreOwn(c.w, Whole(c.w, c.root), NOBODY, g1, {});
    hit, added := FirstStep(c.w, Head(rest).elapse);
    if c.w.ready + added != [] { FirstStepEnds(c.w, rest, added); }
  }

  // The wait hands out the head of `line` at once.
  ghost predicate TakesFirst(w: World, line: seq<nat>, e: Event, rest: seq<Event>, x: Received) {
    && x.Received? && [x.id] + x.w.ready == line && x.env == rest
    && x.w.now == After(w, e.elapse) && x.w.unsent == w.unsent && x.w.joins == w.joins
    && x.w.timers == Remaining(w.timers, After(w, e.elapse))
  }

  lemma FirstStepEnds(w: World, env: seq<Event>, added: seq<nat>)
    requires Head(env).acts == [] && Head(env).pick == 0 && w.ready + added != []
    requires var v := Expire(Drain(Outside(w, Event(Head(env).elapse, [], 0))));
      && v.ready == w.ready + added && v.now == After(w, Head(env).elapse) && v.unsent == w.unsent
      && v.joins == w.joins && v.timers == Remaining(w.timers, After(w, Head(env).elapse))
    ensures TakesFirst(w, w.ready + added, Head(env), Tail(env), NextReady(w, env))
  {
    hide Expire, Drain, Outside;
    assert Head(env) == Event(Head(env).elapse, [], 0);
    var v := Expire(Drain(Outside(w, Head(env))));
    assert NextReady(w, env) == Receive(v, Tail(env), 0);
    assert [v.ready[0]] + Without(v.ready, 0) == v.ready;
  }

  lemma NothingRings(w: World)
    requires NoneDue(w.timers, w.now)
    ensures Expire(w) == w
  {
    assert Remaining(w.timers, w.now) == w.timers;
  }

  // While nobody acts and no deadline passes, a blocked executor only lets time pass.
  lemma {:induction false} LullPasses(w: World, ds: seq<nat>, env: seq<Event>)
    requires w.ready == [] && NoneDue(w.timers, After(w, Sum(ds))) && NoneDue(w.timers, w.now)
    ensures Wait(w, Lull(ds) + env) == Wait(w.(now := After(w, Sum(ds))), env)
    decreases |ds|
  {
    if ds == [] {
      assert Lull(ds) + env == env;
    } else {
      assert ds == [ds[0]] + ds[1..];
      OneLull(ds[0], ds[1..], env);
      var w1 := Outside(w, Event(ds[0], [], 0));
      assert w1 == w.(now := After(w, ds[0]));
      LullPasses(w1, ds[1..], env);
      assert (Lull(ds) + env)[1..] == Lull(ds[1..]) + env;
    }
  }

  // The registrations with the earliest deadline.
  ghost predicate IsNext(m: Registrations, d: int) {
    (exists r :: r in m && m[r].deadline == d) && forall r | r in m :: d <= m[r].deadline
  }

  // With an empty channel, nothing in flight and no deadline passed, all that sleep are idle.
  lemma SleepersAreIdle(w: World, all: Population, g: Ghost)
    requires Inv(w, all, NOBODY, g, {}) && w.ready == [] && w.unsent == multiset{}
    ensures forall r | r in w.timers :: w.timers[r].waker < |w.schedules| && w.schedules[w.timers[r].waker].state.Idle?
  {
    forall r | r in w.timers
      ensures w.timers[r].waker < |w.schedules| && w.schedules[w.timers[r].waker].state.Idle?
    {
      assert Owned(w.timers, r, w.schedules, all);
      assert Tokens(w)[w.schedules[w.timers[r].waker].id] == 0;
    }
  }

  // The clock stands at the next deadline: the sleepers until then are there.
  lemma DeadlineRings(w: World, d: int) returns (hit: seq<nat>, added: seq<nat>)
    requires OwnWakers(w) && w.ready == [] && w.now == d && IsNext(w.timers, d)
    requires forall r | r in w.timers :: w.schedules[w.timers[r].waker].state.Idle?
    ensures Rung(w, d, hit, added) && added != [] && TakesFirst(w, added, QUIET, [], NextReady(w, []))
  {
    hide NextReady;
    hit, added := FirstStep(w, 0);
    var r :| r in w.timers && w.timers[r].deadline == d;
    assert r in hit;
    FirstStepEnds(w, [], added);
  }

  lemma EarliestIsNext(m: Registrations)
    requires m != map[]
    ensures NextDeadline(m).Some? && IsNext(m, NextDeadline(m).value)
  {
    assert m[Earliest(m)].deadline == NextDeadline(m).value;
  }

  // The first step of a wait that finds nothing.
  lemma FindsNothing(w: World, env: seq<Event>)
    requires Head(env).acts == [] && w.ready == [] && NoneDue(w.timers, After(w, Head(env).elapse))
    ensures var v := Drain(w).(now := After(w, Head(env).elapse));
      && NoneDue(v.timers, v.now)
      && NextReady(w, env) ==
         if w.paused && w.timers != map[] then NextReady(Jumped(v), Tail(env)) else Wait(v, Tail(env))
  {
    hide Wait, Expire, Jumped;
    var v := Drain(Outside(w, Head(env)));
    assert v == Drain(w).(now := After(w, Head(env).elapse));
    NothingRings(v);
  }

  lemma WaitRunsOut(w: World, d: int)
    requires NoneDue(w.timers, w.now) && IsNext(w.timers, d)
    ensures Wait(w, []) == NextReady(w.(now := d), [])
  {
    hide NextReady;
    EarliestIsNext(w.timers);
  }

  lemma JumpsTo(w: World, d: int)
    requires IsNext(w.timers, d) && w.unsent == multiset{}
    ensures Jumped(w) == w.(now := d)
  {
    EarliestIsNext(w.timers);
  }

  // The wait up to the next deadline, as one equation.
  lemma WaitReaches(w: World, ds: seq<nat>, d: int)
    requires w.ready == [] && IsNext(w.timers, d) && NoneDue(w.timers, After(w, Sum(ds)))
    requires w.unsent == multiset{} && (w.paused ==> ds == [])
    ensures NextReady(w, Lull(ds)) == NextReady(Drain(w).(now := d), [])
  {
    hide NextReady, Wait, Jumped;
    var d0, tail := Head(Lull(ds)).elapse, if ds == [] then [] else ds[1..];
    assert ds != [] ==> ds == [ds[0]] + ds[1..];
    assert Tail(Lull(ds)) == Lull(tail) + [];
    FindsNothing(w, Lull(ds));
    var v := Drain(w).(now := After(w, d0));
    if w.paused {
      JumpsTo(v, d);
      assert Tail(Lull(ds)) == [];
      assert v.(now := d) == Drain(w).(now := d);
    } else {
      LullPasses(v, tail, []);
      WaitRunsOut(v.(now := After(v, Sum(tail))), d);
    }
  }

  // At every point of every run, on either clock: with nothing to do, nothing in flight and
  // nobody acting, the wait ends exactly at the earliest live deadline, however the time until
  // then is cut up. It hands out the task that sleeps until then on the smallest registration, and
  // leaves the others of that deadline in the channel in their order.
  lemma QuietWaitEnds(w: World, job: Job, env: seq<Event>, n: nat, c: Conf, ds: seq<nat>, g: Ghost, d: int)
    returns (hit: seq<nat>, added: seq<nat>)
    requires CanStart(w, job, g) && Reaches(w, job, env, n, c, Lull(ds))
    requires c.w.ready == [] && c.w.unsent == multiset{} && IsNext(c.w.timers, d)
    requires NoneDue(c.w.timers, After(c.w, Sum(ds))) && (c.w.paused ==> ds == [])
    ensures var x := NextReady(c.w, Lull(ds));
      && x.Received? && x.w.now == d && Rung(c.w, d, hit, added) && added != []
      && [x.id] + x.w.ready == added && x.w.timers == Remaining(c.w.timers, d)
  {
    hide CanStart, Reaches, Inv, Rung, NextReady;
    var g1 := ReachedIsGood(w, job, env, n, c, Lull(ds), g);
    WakersAreOwn(c.w, Whole(c.w, c.root), NOBODY, g1, {});
    SleepersAreIdle(c.w, Whole(c.w, c.root), g1);
    WaitReaches(c.w, ds, d);
    var u := Drain(c.w).(now := d);
    hit, added := DeadlineRings(u, d);
    RungSame(u, c.w, d, hit, added);
  }

  lemma RungSame(u: World, w: World, d: int, hit: seq<nat>, added: seq<nat>)
    requires Rung(u, d, hit, added) && u.timers == w.timers && u.schedules == w.schedules
    ensures Rung(w, d, hit, added)
  {}

  // A message ends a blocking wait when it arrives: another thread's send is handed out at that
  // moment, and whatever falls due meanwhile is left to the next wait.
  lemma MessageEndsWait(w: World, ds: seq<nat>, x: nat, s: nat, pick: nat, env: seq<Event>)
    requires w.ready == [] && NoneDue(w.timers, After(w, Sum(ds))) && ds != []
    requires w.paused ==> w.timers == map[]
    requires s < |w.schedules| && w.schedules[s].state.Queued? && w.schedules[s].id in w.unsent
    ensures NextReady(w, Lull(ds) + [Event(x, [Send(s)], pick)] + env) ==
      Received(Drain(w).(now := After(w, Sum(ds) + x), unsent := w.unsent - multiset{w.schedules[s].id}),
               env, w.schedules[s].id)
  {
    hide NextReady, Wait, Jumped, Drain, NoneDue;
    var e := Event(x, [Send(s)], pick);
    assert ds == [ds[0]] + ds[1..];
    OneLull(ds[0], ds[1..], [e] + env);
    var all := Lull(ds) + [e] + env;
    assert all == Lull(ds) + ([e] + env);
    assert Head(all) == Event(ds[0], [], 0) && Tail(all) == Lull(ds[1..]) + ([e] + env);
    EarlierToo(w, ds[0], ds);
    FindsNothing(w, all);
    DrainLeaves(w);
    var v := Drain(w).(now := After(w, ds[0]));
    LullPasses(v, ds[1..], [e] + env);
    MessageTaken(v.(now := After(v, Sum(ds[1..]))), e, s, env);
  }

  lemma EarlierToo(w: World, d: nat, ds: seq<nat>)
    requires NoneDue(w.timers, After(w, Sum(ds))) && d <= Sum(ds)
    ensures NoneDue(w.timers, After(w, d))
  {}

  lemma DrainLeaves(w: World)
    ensures var v := Drain(w);
      v == w.(tasks := v.tasks, pending := v.pending)
  {}

  lemma MessageTaken(u: World, e: Event, s: nat, env: seq<Event>)
    requires u.ready == [] && e.acts == [Send(s)] && NoneDue(u.timers, u.now)
    requires s < |u.schedules| && u.schedules[s].state.Queued? && u.schedules[s].id in u.unsent
    ensures Wait(u, [e] + env) ==
      Received(u.(now := After(u, e.elapse), unsent := u.unsent - multiset{u.schedules[s].id}), env, u.schedules[s].id)
  {
    hide NextReady, Outside;
    assert ([e] + env)[1..] == env;
    ArrivesAlone(u, e, s);
    assert Without([u.schedules[s].id], 0) == [];
  }

  lemma ArrivesAlone(u: World, e: Event, s: nat)
    requires u.ready == [] && e.acts == [Send(s)]
    requires s < |u.schedules| && u.schedules[s].state.Queued? && u.schedules[s].id in u.unsent
    ensures Outside(u, e) == u.(now := After(u, e.elapse), unsent := u.unsent - multiset{u.schedules[s].id},
        ready := [u.schedules[s].id])
  {
    var v := Elapse(u, e.elapse);
    assert ActAll(v, e.acts) == ActAll(Acted(v, Send(s)), []);
  }

  /* ---- Sends from outside ---- */

  lemma {:induction false} LastAct(w: World, acts: seq<Act>, a: Act)
    ensures ActAll(w, acts + [a]) == Acted(ActAll(w, acts), a)
    decreases |acts|
  {
    hide Acted;
    if acts == [] {
      assert ActAll(Acted(w, a), []) == Acted(w, a);
    } else {
      assert (acts + [a])[1..] == acts[1..] + [a];
      LastAct(Acted(w, acts[0]), acts[1..], a);
    }
  }

  // Other threads act in the order of their acts: after any of them, a send that has been decided
  // on puts its id behind all that is in the channel, and settles the matter; any other send, a
  // second one for instance, does nothing.
  lemma SendComesLast(w: World, acts: seq<Act>, s: nat)
    ensures var u, v := ActAll(w, acts), ActAll(w, acts + [Send(s)]);
      if s < |u.schedules| && u.schedules[s].state.Queued? && u.schedules[s].id in u.unsent then
        && v.ready == u.ready + [u.schedules[s].id] && v.unsent == u.unsent - multiset{u.schedules[s].id}
        && v.schedules == u.schedules
      else v == u
  {
    LastAct(w, acts, Send(s));
  }
}
