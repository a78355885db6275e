/** Exactly how late a delayed send can make a call on a paused clock.

    At any moment the tasks that are live, with what they have left to do, determine when the root
    would end if nothing were overtaken from there on: its forecast. It is the critical path at the
    start, and nothing moves it but a jump of the clock past a stalled task. The time at which a
    call returns is the critical path plus what the jumps of its waits have added to the forecast. */
module Forecasts {
  import opened Wrappers
  import opened TimerSpec
  import opened ScheduleState
  import opened JoinSpec
  import opened Programs
  import opened ExecutorSpec
  import opened Invariant
  import opened PollInvariant
  import opened TurnInvariant
  import opened WaitInvariant
  import opened VirtualTime

  /* ---- Forecasts ---- */

  ghost predicate Publishes(all: Population, id: nat, c: nat) {
    id in all && all[id].out == Some(c)
  }

  function OutcomeOf(r: Result<int, JoinError>): Outcome {
    match r
    case Ok(v) => Value(v)
    case Err(_) => Panicked
  }

  // When the task behind a cell will end, given when those behind later cells will.
  ghost function EndOf(js: Cells, all: Population, now: int, h: History, c: nat): Done
    requires c < |js|
  {
    match js[c]
    case Pending(_) =>
      if exists id :: Publishes(all, id, c) then
        var id :| Publishes(all, id, c);
        Predict(all[id].future, now, h)
      else
        Done(now, Panicked)
    case Ready(r) => Done(now, OutcomeOf(r))
    case Consumed => Done(now, Panicked)
  }

  // The ends of all cells from `c` on. A task holds handles to later cells than its own only.
  ghost function Outlook(js: Cells, all: Population, now: int, c: nat): (h: History)
    requires c <= |js|
    ensures |h| == |js|
    decreases |js| - c
  {
    if c == |js| then
      seq(|js|, i => Birth(ROOT, OUTSIDE, 0, Done(now, Panicked)))
    else
      var h := Outlook(js, all, now, c + 1);
      h[c := Birth(ROOT, OUTSIDE, 0, EndOf(js, all, now, h, c))]
  }

  ghost function Forecast(w: World, root: LocalTask): Done {
    Predict(root.future, w.now, Outlook(w.joins, Whole(w, root), w.now, 0))
  }

  /* ---- What a forecast depends on ---- */

  // Ends that have passed are all the same to whoever waits for them.
  predicate SameEnd(a: Done, b: Done, now: int) {
    a == b || (a.out == b.out && a.at <= now && b.at <= now)
  }

  lemma {:induction false} FinishSettled(p: Program, t: int, now: int, acc: int, hs: seq<Option<Done>>,
        hs': seq<Option<Done>>)
    requires now <= t && |hs| == |hs'|
    requires forall i | 0 <= i < |hs| :: hs[i].Some? == hs'[i].Some?
    requires forall i | 0 <= i < |hs| && hs[i].Some? :: SameEnd(hs[i].value, hs'[i].value, now)
    ensures Finish(p, t, acc, hs) == Finish(p, t, acc, hs')
    decreases p
  {
    match p
    case Return(_) =>
    case Panic =>
    case Sleep(d, next) => FinishSettled(next, t + d, now, acc, hs, hs');
    case Spawn(child, next) =>
      var born := [Some(Finish(child, t, 0, []))];
      FinishSettled(next, t, now, acc, hs + born, hs' + born);
    case Join(k, ok, err) =>
      if k < |hs| && hs[k].Some? {
        var h := hs[k].value;
        match h.out
        case Value(v) => FinishSettled(ok, Max(t, h.at), now, acc + v, hs[k := None], hs'[k := None]);
        case Panicked => FinishSettled(err, Max(t, h.at), now, acc, hs[k := None], hs'[k := None]);
      }
    case Yield(next) => FinishSettled(next, t, now, acc, hs, hs');
    case Wake(_, next) => FinishSettled(next, t, now, acc, hs, hs');
    case Busy(_, next) => FinishSettled(next, t, now, acc, hs, hs');
    case Park(next) => FinishSettled(next, t, now, acc, hs, hs');
  }

  ghost predicate SameEnds(hs: seq<Option<nat>>, h1: History, h2: History, now: int) {
    forall k | 0 <= k < |hs| && hs[k].Some? ::
      hs[k].value < |h1| && hs[k].value < |h2| && SameEnd(h1[hs[k].value].fin, h2[hs[k].value].fin, now)
  }

  lemma PredictSettled(f: Future, now: int, h1: History, h2: History)
    requires SameEnds(f.handles, h1, h2, now)
    ensures Predict(f, now, h1) == Predict(f, now, h2)
  {
    var hs1, hs2 := Fins(f.handles, h1), Fins(f.handles, h2);
    match f.stage
    case Run(p) => FinishSettled(p, now, now, f.acc, hs1, hs2);
    case Sleeping(deadline, _, next) => FinishSettled(next, Max(now, deadline), now, f.acc, hs1, hs2);
    case Yielded(next) => FinishSettled(next, now, now, f.acc, hs1, hs2);
    case Parked(next) => FinishSettled(next, now, now, f.acc, hs1, hs2);
  }

  // Later cells are settled first.
  lemma {:induction false} OutlookAbove(js: Cells, all: Population, now: int, b: nat, c: nat, i: nat)
    requires b <= c <= i < |js|
    ensures Outlook(js, all, now, b)[i] == Outlook(js, all, now, c)[i]
    decreases c - b
  {
    if b < c {
      OutlookAbove(js, all, now, b + 1, c, i);
    }
  }

  lemma PublisherIsOwner(js: Cells, all: Population, hist: History, c: nat, id: nat)
    requires JoinInv(js, all, hist) && c < |js| && js[c].Pending?
    ensures Publishes(all, hist[c].owner, c)
    ensures Publishes(all, id, c) ==> id == hist[c].owner
  {}

  lemma HandlesAbove(js: Cells, all: Population, hist: History, id: nat, k: nat)
    requires JoinInv(js, all, hist) && id in all && k < |all[id].future.handles| && all[id].future.handles[k].Some?
    ensures var c := all[id].future.handles[k].value;
      c < |js| && !js[c].Consumed? && (all[id].out.Some? ==> all[id].out.value < c)
  {
    assert HandleOk(js, hist, all[id], k);
  }

  // The outlook is consistent: every live task ends when it says.
  lemma OutlookFix(js: Cells, all: Population, hist: History, now: int, c: nat)
    requires JoinInv(js, all, hist) && c < |js| && js[c].Pending?
    ensures hist[c].owner in all
    ensures var h := Outlook(js, all, now, 0); h[c].fin == Predict(all[hist[c].owner].future, now, h)
  {
    var id, h, above := hist[c].owner, Outlook(js, all, now, 0), Outlook(js, all, now, c + 1);
    PublisherIsOwner(js, all, hist, c, id);
    forall j | Publishes(all, j, c) ensures j == id { PublisherIsOwner(js, all, hist, c, j); }
    OutlookAbove(js, all, now, 0, c, c);
    assert h[c].fin == Predict(all[id].future, now, above);
    var hs := all[id].future.handles;
    forall k | 0 <= k < |hs| && hs[k].Some? ensures hs[k].value < |js| && above[hs[k].value].fin == h[hs[k].value].fin {
      HandlesAbove(js, all, hist, id, k);
      OutlookAbove(js, all, now, 0, c + 1, hs[k].value);
    }
    PredictSettled(all[id].future, now, above, h);
  }

  lemma OutlookReady(js: Cells, all: Population, now: int, c: nat)
    requires c < |js| && js[c].Ready?
    ensures Outlook(js, all, now, 0)[c].fin == Done(now, OutcomeOf(js[c].result))
  {
    OutlookAbove(js, all, now, 0, c, c);
  }

  /* ---- Renewing the promises ---- */

  // Unresolved cells are promised anew, as the outlook has it.
  ghost function Renewed(js: Cells, hist: History, outlook: History): (h: History)
    requires |js| == |hist| == |outlook|
    ensures |h| == |hist|
    ensures forall c | 0 <= c < |h| :: h[c] == if js[c].Pending? then hist[c].(fin := outlook[c].fin) else hist[c]
  {
    seq(|hist|, c requires 0 <= c < |hist| => if js[c].Pending? then hist[c].(fin := outlook[c].fin) else hist[c])
  }

  lemma RenewedAgrees(exact: bool, js: Cells, all: Population, hist: History, rootFin: Done, now: int, id: nat)
    requires JoinInv(js, all, hist) && TimeInv(exact, now, js, all, hist, rootFin) && id in all
    ensures var h := Outlook(js, all, now, 0);
      Predict(all[id].future, now, Renewed(js, hist, h)) == Predict(all[id].future, now, h)
  {
    var h := Outlook(js, all, now, 0);
    var r, hs := Renewed(js, hist, h), all[id].future.handles;
    forall k | 0 <= k < |hs| && hs[k].Some? ensures hs[k].value < |js|
        && SameEnd(r[hs[k].value].fin, h[hs[k].value].fin, now) {
      HandlesAbove(js, all, hist, id, k);
      var c := hs[k].value;
      if js[c].Ready? {
        OutlookReady(js, all, now, c);
        assert js[c].result == ResultOf(hist[c].fin.out) && hist[c].fin.at <= now;
      }
    }
    PredictSettled(all[id].future, now, r, h);
  }

  lemma RenewTime(exact: bool, exact1: bool, js: Cells, all: Population, hist: History, rootFin: Done, now: int)
    requires JoinInv(js, all, hist) && TimeInv(exact, now, js, all, hist, rootFin) && ROOT in all
    ensures var h := Outlook(js, all, now, 0);
      TimeInv(exact1, now, js, all, Renewed(js, hist, h), Predict(all[ROOT].future, now, h))
  {
    var h := Outlook(js, all, now, 0);
    var r, fin := Renewed(js, hist, h), Predict(all[ROOT].future, now, h);
    forall id | id in all ensures FinOf(all[id], r, fin) == Predict(all[id].future, now, r) {
      RenewedAgrees(exact, js, all, hist, rootFin, now, id);
      if id != ROOT {
        OutlookFix(js, all, hist, now, all[id].out.value);
      }
    }
  }

  lemma RenewJoin(js: Cells, all: Population, hist: History, outlook: History)
    requires JoinInv(js, all, hist) && |outlook| == |js|
    ensures JoinInv(js, all, Renewed(js, hist, outlook))
  {
    var h := Renewed(js, hist, outlook);
    forall id, k {:trigger HandleOk(js, h, all[id], k)} | id in all && 0 <= k < |all[id].future.handles|
      ensures HandleOk(js, h, all[id], k)
    {
      assert HandleOk(js, hist, all[id], k);
    }
  }

  // The ghost with promises renewed now.
  ghost function Afresh(w: World, root: LocalTask, g: Ghost): Ghost
    requires |w.joins| == |g.hist|
  {
    g.(hist := Renewed(w.joins, g.hist, Outlook(w.joins, Whole(w, root), w.now, 0)),
       rootFin := Forecast(w, root), since := w.overtaken, faithful := false)
  }

  lemma CellsAreBorn(w: World, all: Population, g: Ghost)
    requires Inv(w, all, NOBODY, g, {})
    ensures |w.joins| == |g.hist| == |w.origins|
  {}

  lemma AfreshKeeps(w: World, root: LocalTask, g: Ghost)
    requires root.id == ROOT && Inv(w, Whole(w, root), NOBODY, g, {})
    ensures |w.joins| == |g.hist| && Inv(w, Whole(w, root), NOBODY, Afresh(w, root, g), {})
  {
    hide SchedInv, OpenInv, FlightInv, WaiterInv, JoinInv, TimerInv, ArmInv, TimeInv, IdInv, Predict, Outlook, Tokens;
    var all := Whole(w, root);
    CellsAreBorn(w, all, g);
    RenewTime(Exact(w, g), Exact(w, Afresh(w, root, g)), w.joins, all, g.hist, g.rootFin, w.now);
    RenewJoin(w.joins, all, g.hist, Outlook(w.joins, all, w.now, 0));
  }

  /* ---- Promises that are met are forecasts ---- */

  lemma {:induction false} ExactOutlook(w: World, all: Population, g: Ghost, c: nat)
    requires JoinInv(w.joins, all, g.hist) && TimeInv(true, w.now, w.joins, all, g.hist, g.rootFin)
    requires c < |w.joins| && w.joins[c].Pending?
    ensures Outlook(w.joins, all, w.now, 0)[c].fin == g.hist[c].fin
    decreases |w.joins| - c, 0
  {
    OutlookFix(w.joins, all, g.hist, w.now, c);
    ExactPredict(w, all, g, g.hist[c].owner, c + 1);
    PublisherIsOwner(w.joins, all, g.hist, c, g.hist[c].owner);
  }

  lemma ExactPredict(w: World, all: Population, g: Ghost, id: nat, low: nat)
    requires JoinInv(w.joins, all, g.hist) && TimeInv(true, w.now, w.joins, all, g.hist, g.rootFin) && id in all
    requires all[id].out.Some? ==> low <= all[id].out.value + 1
    requires all[id].out.None? ==> low == 0
    ensures Predict(all[id].future, w.now, Outlook(w.joins, all, w.now, 0)) == Predict(all[id].future, w.now, g.hist)
    decreases |w.joins| - low, 1
  {
    var h, hs := Outlook(w.joins, all, w.now, 0), all[id].future.handles;
    forall k | 0 <= k < |hs| && hs[k].Some? ensures hs[k].value < |w.joins|
        && SameEnd(h[hs[k].value].fin, g.hist[hs[k].value].fin, w.now) {
      HandlesAbove(w.joins, all, g.hist, id, k);
      var c := hs[k].value;
      if w.joins[c].Pending? {
        ExactOutlook(w, all, g, c);
      } else {
        OutlookReady(w.joins, all, w.now, c);
        assert w.joins[c].result == ResultOf(g.hist[c].fin.out) && g.hist[c].fin.at <= w.now;
      }
    }
    PredictSettled(all[id].future, w.now, h, g.hist);
  }

  // Where promises are exact, the forecast is what has been promised.
  lemma PromiseIsForecast(w: World, root: LocalTask, g: Ghost)
    requires root.id == ROOT && Inv(w, Whole(w, root), NOBODY, g, {}) && Exact(w, g)
    ensures Forecast(w, root) == g.rootFin
  {
    hide SchedInv, OpenInv, FlightInv, WaiterInv, TimerInv, ArmInv, IdInv, Predict, Outlook, Tokens;
    ExactPredict(w, Whole(w, root), g, ROOT, 0);
    assert Whole(w, root)[ROOT] == root;
  }

  /* ---- Waiting ---- */

  // By how much the jumps of a wait move the forecast. The wait is that of `NextReady`; with a
  // paused clock and no timers it does not jump any more.
  ghost function WaitSlip(w: World, env: seq<Event>, root: LocalTask): int
    decreases |env|, |Remaining(w.timers, w.now)|
  {
    var w1 := Expire(Drain(Outside(w, Head(env))));
    if w1.ready == [] && w1.paused && w1.timers != map[] then
      WaitSlipShrinks(w, env);
      Forecast(Jumped(w1), root).at - Forecast(w1, root).at + WaitSlip(Jumped(w1), Tail(env), root)
    else
      0
  }

  lemma WaitSlipShrinks(w: World, env: seq<Event>)
    requires Expire(Drain(Outside(w, Head(env)))).timers != map[]
    ensures var w1 := Expire(Drain(Outside(w, Head(env))));
      |Tail(env)| < |env| ||
      (|Tail(env)| == |env| && |Remaining(Jumped(w1).timers, Jumped(w1).now)| < |Remaining(w.timers, w.now)|)
  {
    var w1 := Expire(Drain(Outside(w, Head(env))));
    ActAllFrame(Elapse(w, Head(env).elapse), Head(env).acts);
    var v := Drain(Outside(w, Head(env)));
    WakeAllFrame(v.(timers := Remaining(v.timers, v.now)), Wakers(v.timers, Due(v.timers, v.now)));
    RemainingTwice(w.timers, w.now);
    EarliestLeaves(w1.timers, w1.now, NextDeadline(w1.timers).value);
  }

  // No jump of the wait moves the forecast.
  ghost predicate WaitsOnCourse(w: World, env: seq<Event>, root: LocalTask)
    decreases |env|, |Remaining(w.timers, w.now)|
  {
    var w1 := Expire(Drain(Outside(w, Head(env))));
    if w1.ready == [] && w1.paused && w1.timers != map[] then
      WaitSlipShrinks(w, env);
      Forecast(Jumped(w1), root).at == Forecast(w1, root).at && WaitsOnCourse(Jumped(w1), Tail(env), root)
    else
      true
  }

  // The jumps move the forecast on, never back, and only past a stalled task.
  lemma JumpSlips(w: World, root: LocalTask, g: Ghost)
    requires root.id == ROOT && Inv(w, Whole(w, root), NOBODY, g, {}) && Exact(w, g)
    requires w.ready == [] && w.timers != map[] && NoneDue(w.timers, w.now)
    ensures |w.joins| == |g.hist| && Inv(Jumped(w), Whole(Jumped(w), root), NOBODY, Afresh(Jumped(w), root, g), {})
    ensures Forecast(Jumped(w), root).out == Forecast(w, root).out
    ensures Forecast(w, root).at <= Forecast(Jumped(w), root).at
    ensures !Stalled(w) ==> Forecast(Jumped(w), root) == Forecast(w, root)
  {
    hide Inv, Forecast, Afresh, Jumped, Stalled;
    var v := Jumped(w);
    JumpKeeps(w, Whole(w, root), g);
    JumpWaited(w, [], root, g, Whole(w, root));
    PromiseIsForecast(w, root, g);
    AfreshKeeps(v, root, g);
    CellsAreBorn(v, Whole(v, root), g);
    CellsAreBorn(w, Whole(w, root), g);
    ForecastIsLater(v, root, g);
    if !Stalled(w) {
      JumpStaysExact(w, g);
      PromiseIsForecast(v, root, g);
    }
  }

  lemma JumpStaysExact(w: World, g: Ghost)
    requires Exact(w, g) && !Stalled(w) && w.timers != map[]
    ensures Exact(Jumped(w), g)
  {}

  // Seen from later on, nothing looks earlier than it was promised.
  lemma ForecastIsLater(w: World, root: LocalTask, g: Ghost)
    requires root.id == ROOT && Inv(w, Whole(w, root), NOBODY, g, {})
    ensures Agrees(false, g.rootFin, Forecast(w, root))
  {
    hide SchedInv, OpenInv, FlightInv, WaiterInv, TimerInv, ArmInv, IdInv, Predict, Outlook, Tokens;
    LaterPredict(w, Whole(w, root), g, ROOT, 0);
    assert Whole(w, root)[ROOT] == root;
  }

  lemma {:induction false} LaterOutlook(w: World, all: Population, g: Ghost, c: nat)
    requires JoinInv(w.joins, all, g.hist) && TimeInv(Exact(w, g), w.now, w.joins, all, g.hist, g.rootFin)
    requires c < |w.joins| && w.joins[c].Pending?
    ensures Agrees(false, g.hist[c].fin, Outlook(w.joins, all, w.now, 0)[c].fin)
    decreases |w.joins| - c, 0
  {
    hide Predict;
    OutlookFix(w.joins, all, g.hist, w.now, c);
    LaterPredict(w, all, g, g.hist[c].owner, c + 1);
    PublisherIsOwner(w.joins, all, g.hist, c, g.hist[c].owner);
  }

  lemma LaterPredict(w: World, all: Population, g: Ghost, id: nat, low: nat)
    requires JoinInv(w.joins, all, g.hist) && TimeInv(Exact(w, g), w.now, w.joins, all, g.hist, g.rootFin) && id in all
    requires all[id].out.Some? ==> low <= all[id].out.value + 1
    requires all[id].out.None? ==> low == 0
    ensures Agrees(false, Predict(all[id].future, w.now, g.hist),
        Predict(all[id].future, w.now, Outlook(w.joins, all, w.now, 0)))
    decreases |w.joins| - low, 1
  {
    hide Predict;
    var h, hs := Outlook(w.joins, all, w.now, 0), all[id].future.handles;
    forall k | 0 <= k < |hs| && hs[k].Some?
      ensures hs[k].value < |w.joins| && Agrees(false, g.hist[hs[k].value].fin, h[hs[k].value].fin)
    {
      HandlesAbove(w.joins, all, g.hist, id, k);
      var c := hs[k].value;
      if w.joins[c].Pending? {
        LaterOutlook(w, all, g, c);
      } else {
        OutlookReady(w.joins, all, w.now, c);
        assert w.joins[c].result == ResultOf(g.hist[c].fin.out) && g.hist[c].fin.at <= w.now;
      }
    }
    PredictLater(all[id].future, w.now, g.hist, h);
  }

  lemma PredictLater(f: Future, now: int, h1: History, h2: History)
    requires forall k | 0 <= k < |f.handles| && f.handles[k].Some? ::
      f.handles[k].value < |h1| && f.handles[k].value < |h2|
          && Agrees(false, h1[f.handles[k].value].fin, h2[f.handles[k].value].fin)
    ensures Agrees(false, Predict(f, now, h1), Predict(f, now, h2))
  {
    var hs1, hs2 := Fins(f.handles, h1), Fins(f.handles, h2);
    match f.stage
    case Run(p) => FinishMonotone(p, now, now, f.acc, hs1, hs2);
    case Sleeping(deadline, _, next) => FinishMonotone(next, Max(now, deadline), Max(now, deadline), f.acc, hs1, hs2);
    case Yielded(next) => FinishMonotone(next, now, now, f.acc, hs1, hs2);
    case Parked(next) => FinishMonotone(next, now, now, f.acc, hs1, hs2);
  }

  lemma TidyCount(w: World, env: seq<Event>, g: Ghost)
    requires Exact(w, g)
    ensures Exact(Expire(Drain(Outside(w, Head(env)))), g.(open := Opened(g.open, Head(env).acts)))
  {
    var e := Head(env);
    ActAllFrame(Elapse(w, e.elapse), e.acts);
    var v := Drain(Outside(w, e));
    WakeAllFrame(v.(timers := Remaining(v.timers, v.now)), Wakers(v.timers, Due(v.timers, v.now)));
  }

  // After a wait the promise has been renewed with what the jumps have added.
  ghost predicate Slipped(w: World, env: seq<Event>, root: LocalTask, g: Ghost, r: Received, g1: Ghost) {
    && 0 <= WaitSlip(w, env, root) && (WaitSlip(w, env, root) == 0 <==> WaitsOnCourse(w, env, root))
    && match r
       case Blocked(_) => true
       case Received(v, rest, id) =>
         && v.pending == [] && ROOT !in v.tasks && Inv(Held(v, id), Whole(v, root), NOBODY, g1, {}) && Exact(v, g1)
         && g1.rootFin == Done(g.rootFin.at + WaitSlip(w, env, root), g.rootFin.out)
  }

  lemma {:induction false} WaitSlips(w: World, env: seq<Event>, root: LocalTask, g: Ghost) returns (g2: Ghost)
    requires root.id == ROOT && ROOT !in Admitted(w.tasks, w.pending)
    requires Inv(w, Whole(w, root), NOBODY, g, {}) && Exact(w, g)
    ensures Slipped(w, env, root, g, NextReady(w, env), g2)
    decreases |env|, |Remaining(w.timers, w.now)|
  {
    hide Inv, Expire, Drain, Outside, Receive, OpenAfter, Opened, Prompt, Jumped, Forecast, Stalled, Afresh, EnvWeight,
        Potential, Waited;
    var w1, g1 := Tidied(w, root, g, env);
    TidyCount(w, env, g);
    TidyTimers(w, env);
    TidyPaused(w, Head(env));
    g2 := g1;
    if w1.ready != [] {
      ReceiveKeeps(w1, Tail(env), Head(env).pick, Whole(w1, root), g1);
      ReceiveFrame(w1, Tail(env), Head(env).pick, root, g1);
    } else if w1.paused && w1.timers != map[] {
      EarliestLeaves(w1.timers, w1.now, NextDeadline(w1.timers).value);
      WaitSlipShrinks(w, env);
      PromiseIsForecast(w1, root, g1);
      JumpSlips(w1, root, g1);
      JumpWaited(w1, [], root, g1, Whole(w1, root));
      JumpStaysPaused(w1);
      AfreshFacts(Jumped(w1), root, g1, g.parkless);
      g2 := WaitSlips(Jumped(w1), Tail(env), root, Afresh(Jumped(w1), root, g1));
    } else {
      g2 := StillSlips(w1, Tail(env), root, g1);
    }
  }

  lemma JumpStaysPaused(w: World)
    requires w.timers != map[]
    ensures Jumped(w).paused == w.paused
  {}

  lemma AfreshFacts(w: World, root: LocalTask, g: Ghost, parkless: bool)
    requires |w.joins| == |g.hist| && g.parkless == parkless
    ensures Afresh(w, root, g).rootFin == Forecast(w, root)
    ensures w.paused && parkless ==> Exact(w, Afresh(w, root, g))
  {}

  lemma ReceiveFrame(w: World, env: seq<Event>, pick: nat, root: LocalTask, g: Ghost)
    requires w.ready != [] && w.pending == [] && ROOT !in w.tasks && Exact(w, g)
    ensures var v := Receive(w, env, pick).w;
      v.pending == [] && ROOT !in v.tasks && Whole(v, root) == Whole(w, root) && Exact(v, g)
  {}

  // Once there are no timers, a paused clock stays where it is.
  lemma {:induction false} StillSlips(w: World, env: seq<Event>, root: LocalTask, g: Ghost) returns (g2: Ghost)
    requires root.id == ROOT && w.pending == [] && ROOT !in w.tasks && w.ready == [] && w.timers == map[]
    requires Inv(w, Whole(w, root), NOBODY, g, {}) && Exact(w, g)
    ensures match Wait(w, env)
      case Blocked(_) => true
      case Received(v, rest, id) =>
        && v.pending == [] && ROOT !in v.tasks && Inv(Held(v, id), Whole(v, root), NOBODY, g2, {}) && Exact(v, g2)
        && g2.rootFin == g.rootFin
    decreases |env|
  {
    hide Inv, Outside, Receive, OpenAfter, Opened, Prompt, EnvWeight, Potential, Waited;
    g2 := g;
    if env != [] {
      var w1, g1 := ObservedKeeps(w, env, root, g);
      ObserveCount(w, env[0], g);
      g2 := g1;
      if w1.ready != [] {
        ReceiveKeeps(w1, env[1..], env[0].pick, Whole(w1, root), g1);
        ReceiveFrame(w1, env[1..], env[0].pick, root, g1);
      } else {
        g2 := StillSlips(w1, env[1..], root, g1);
      }
    }
  }

  lemma ObserveCount(w: World, e: Event, g: Ghost)
    requires Exact(w, g)
    ensures Exact(Outside(w, e), g.(open := Opened(g.open, e.acts)))
  {
    ActAllFrame(Elapse(w, e.elapse), e.acts);
  }

  /* ---- Whole calls ---- */

  // What the jumps of all waits of a run add up to.
  ghost function Slip(c: Conf, env: seq<Event>, n: nat): int
    decreases n
  {
    if n == 0 then 0
    else
      WaitSlip(c.w, env, c.root) +
      match Turn(c, env)
      case Continue(c1, rest) => Slip(c1, rest, n - 1)
      case Exit(_, _, _) => 0
      case Stuck(_) => 0
  }

  // No jump of any wait moves the forecast.
  ghost predicate OnCourse(c: Conf, env: seq<Event>, n: nat)
    decreases n
  {
    n == 0 ||
    (&& WaitsOnCourse(c.w, env, c.root)
     && match Turn(c, env)
        case Continue(c1, rest) => OnCourse(c1, rest, n - 1)
        case Exit(_, _, _) => true
        case Stuck(_) => true)
  }

  // One round: the promise is kept but for what the wait has added.
  lemma TurnSlips(c: Conf, env: seq<Event>, g: Ghost) returns (g1: Ghost)
    requires Good(c, g) && Exact(c.w, g)
    ensures 0 <= WaitSlip(c.w, env, c.root) && (WaitSlip(c.w, env, c.root) == 0 <==> WaitsOnCourse(c.w, env, c.root))
    ensures var due := Done(g.rootFin.at + WaitSlip(c.w, env, c.root), g.rootFin.out);
      match Turn(c, env)
      case Continue(c1, rest) => Good(c1, g1) && Exact(c1.w, g1) && g1.rootFin == due
      case Exit(v, o, _) => Done(v.now, o) == due
      case Stuck(_) => true
  {
    hide Inv, Potential, NextReady, PollTask, PollRoot, EnvWeight, Admitted, Opened, WaitSlip, WaitsOnCourse, Whole,
        Grown;
    g1 := WaitSlips(c.w, env, c.root, g);
    match NextReady(c.w, env)
    case Blocked(_) =>
    case Received(w, rest, id) =>
      if id == ROOT {
        var g0 := g1;
        g1 := PollRootKeeps(w, rest, c.root, g0);
      } else {
        g1 := PollTaskKeeps(w, id, Head(rest), c.root, g1);
      }
  }

  lemma {:induction false} DriveSlips(c: Conf, env: seq<Event>, n: nat, g: Ghost)
    requires Good(c, g) && Exact(c.w, g)
    ensures 0 <= Slip(c, env, n) && (Slip(c, env, n) == 0 <==> OnCourse(c, env, n))
    ensures match Drive(c, env, n)
      case Exit(v, o, _) => Done(v.now, o) == Done(g.rootFin.at + Slip(c, env, n), g.rootFin.out)
      case _ => true
    decreases n
  {
    hide Good, Turn, WaitSlip, WaitsOnCourse;
    if n > 0 {
      var g1 := TurnSlips(c, env, g);
      match Turn(c, env)
      case Continue(c1, rest) => DriveSlips(c1, rest, n - 1, g1);
      case Exit(_, _, _) =>
      case Stuck(_) =>
    }
  }

  // From any reachable point of a run on a paused clock: the call returns at the forecast of that
  // point plus what later jumps add to it, so not before the forecast, and at the forecast if and
  // only if no later jump moves it.
  lemma ForecastHolds(c: Conf, env: seq<Event>, n: nat, g: Ghost)
    requires Good(c, g) && c.w.paused && g.parkless
    ensures 0 <= Slip(c, env, n) && (Slip(c, env, n) == 0 <==> OnCourse(c, env, n))
    ensures match Drive(c, env, n)
      case Exit(v, o, _) => Done(v.now, o)
          == Done(Forecast(c.w, c.root).at + Slip(c, env, n), Forecast(c.w, c.root).out)
      case _ => true
  {
    hide Inv, Forecast, Slip, OnCourse, Drive, Whole, Admitted;
    AfreshKeeps(c.w, c.root, g);
    AfreshFacts(c.w, c.root, g, true);
    DriveSlips(c, env, n, Afresh(c.w, c.root, g));
  }

  // Any call on a paused clock from any state that clients can produce, whatever other threads do
  // and however long they take to send: if it returns, it does so at exactly start plus critical
  // path plus the sum of what the jumps add; hence on time if and only if no jump moves the
  // forecast.
  lemma ReturnTimeIsExact(w: World, job: Job, env: seq<Event>, g: Ghost)
    requires CanStart(w, job, g) && Exact(w, g) && NoPark(job.p)
    ensures var c, n, due := Started(w, job), Rounds(w, job, env), Meaning(job, w.now, g.hist);
      && 0 <= Slip(c, env, n)
      && match BlockOn(w, job, env)
         case Exit(v, o, _) =>
           o == due.out && v.now == due.at + Slip(c, env, n) && (v.now == due.at <==> OnCourse(c, env, n))
         case _ => true
  {
    hide CanStart, Quiet, Good, Slip, OnCourse, Drive, Finish, Meaning;
    StartKeeps(w, job, g);
    DriveSlips(Started(w, job), env, Rounds(w, job, env), Launched(w, job, g));
  }

  // In particular the first call on a new runtime, with nothing presupposed.
  lemma FirstCallIsExact(now: int, p: Program, env: seq<Event>)
    requires NoPark(p) && Work(p) < U64 - 1
    ensures var w, job := NewWorld(true, now), Job(p, []);
      var c, n, due := Started(w, job), Rounds(w, job, env), Finish(p, now, 0, []);
      match BlockOn(w, job, env)
      case Exit(v, o, _) =>
        o == due.out && v.now == due.at + Slip(c, env, n) && (v.now == due.at <==> OnCourse(c, env, n))
      case _ => true
  {
    hide Quiet, Slip, OnCourse, BlockOn, Finish;
    NewIsQuiet(true, now, Work(p));
    assert Fins([], []) == [];
    ReturnTimeIsExact(NewWorld(true, now), Job(p, []), env,
        Ghost([], Done(now, Panicked), true, Work(p), {}, {}, 0, true));
  }
}
