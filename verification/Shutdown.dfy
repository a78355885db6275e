/** Dropping the executor: every task it still owns is dropped, in whatever order, and every
    join handle learns of it. */
module Shutdowns {
  import opened Wrappers
  import opened TimerSpec
  import opened ScheduleState
  import opened JoinSpec
  import opened Programs
  import opened ExecutorSpec
  import opened Invariant
  import opened PollInvariant
  import opened TurnInvariant

  // A dropped task drops its sleep and its handles; its sender cancels its join cell.
  function DropTask(w: World, t: LocalTask): World {
    var w1 := w.(timers := if t.future.stage.Sleeping? then w.timers - {t.future.stage.reg} else w.timers,
                 joins := Detached(w.joins, t.future.handles));
    match t.out
    case Some(c) => Publish(w1, c, Err(Cancelled))
    case None => w1
  }

  function DropAll(w: World, ts: seq<LocalTask>): World
    decreases |ts|
  {
    if ts == [] then w else DropAll(DropTask(w, ts[0]), ts[1..])
  }

  function CancelledCells(js: Cells): (r: Cells)
    ensures |r| == |js|
    ensures forall c | 0 <= c < |js| :: r[c] == if js[c].Pending? then JoinState.Ready(Err(Cancelled)) else js[c]
  {
    seq(|js|, c requires 0 <= c < |js| => if js[c].Pending? then JoinState.Ready(Err(Cancelled)) else js[c])
  }

  // Part of the way: the tasks in `left` are still to be dropped.
  ghost predicate Dropping(w: World, g: Ghost, v: World, left: set<nat>) {
    && !v.fault && |v.joins| == |w.joins| == |g.hist|
    && (forall c | 0 <= c < |w.joins| ::
          if !w.joins[c].Pending? then v.joins[c] == w.joins[c]
          else if g.hist[c].owner in left then v.joins[c].Pending?
          else v.joins[c] == Ready(Err(Cancelled)))
    && (forall r | r in v.timers ::
          r in w.timers && w.timers[r].waker < |w.schedules| && w.schedules[w.timers[r].waker].id in left)
  }

  lemma DropCells(w: World, all: Population, g: Ghost, v: World, left: set<nat>, t: LocalTask)
    requires JoinInv(w.joins, all, g.hist) && Dropping(w, g, v, left)
    requires t.id in left && t.id in all && all[t.id] == t && t.id != ROOT
    ensures v.joins[t.out.value].Pending?
    ensures var js := Detached(v.joins, t.future.handles)[t.out.value := Ready(Err(Cancelled))];
      forall c | 0 <= c < |w.joins| ::
        if !w.joins[c].Pending? then js[c] == w.joins[c]
        else if g.hist[c].owner in left - {t.id} then js[c].Pending?
        else js[c] == Ready(Err(Cancelled))
  {}

  lemma DropTimers(w: World, all: Population, g: Ghost, v: World, left: set<nat>, t: LocalTask)
    requires TimerInv(w.timers, w.nextTimer, w.now, w.schedules, all) && Dropping(w, g, v, left)
    requires t.id in left && t.id in all && all[t.id] == t
    ensures forall r | r in DropTask(v, t).timers ::
      r in w.timers && w.timers[r].waker < |w.schedules| && w.schedules[w.timers[r].waker].id in left - {t.id}
  {
    DropFrame(v, t);
    hide DropTask;
    forall r | r in DropTask(v, t).timers
      ensures w.timers[r].waker < |w.schedules| && w.schedules[w.timers[r].waker].id in left - {t.id}
    {
      assert r in v.timers;
      assert Owned(w.timers, r, w.schedules, all);
    }
  }

  lemma DropFrame(v: World, t: LocalTask)
    ensures DropTask(v, t).timers == if t.future.stage.Sleeping? then v.timers - {t.future.stage.reg} else v.timers
  {
    hide Publish, Detached;
    if t.out.Some? {
      var timers := if t.future.stage.Sleeping? then v.timers - {t.future.stage.reg} else v.timers;
      PublishTimers(v.(timers := timers, joins := Detached(v.joins, t.future.handles)), t.out.value, Err(Cancelled));
    }
  }

  lemma PublishTimers(w: World, c: nat, r: Result<int, JoinError>)
    ensures Publish(w, c, r).timers == w.timers
  {}

  lemma DropOne(w: World, all: Population, g: Ghost, v: World, left: set<nat>, t: LocalTask)
    requires Inv(w, all, NOBODY, g, {}) && Dropping(w, g, v, left)
    requires t.id in left && t.id in all && all[t.id] == t && t.id != ROOT
    ensures Dropping(w, g, DropTask(v, t), left - {t.id})
  {
    hide SchedInv, JoinInv, TimerInv, ArmInv, TimeInv, IdInv, Detached;
    OutOf(w.joins, all, g.hist, t.id);
    DropCells(w, all, g, v, left, t);
    DropTimers(w, all, g, v, left, t);
  }

  // A cell that is cancelled wakes whoever waits for it, as any completion does.
  lemma CancelWakes(w: World, t: LocalTask, s: nat)
    requires t.out.Some? && t.out.value < |w.joins| && w.joins[t.out.value] == JoinState.Pending(Some(s))
    requires t.out !in t.future.handles && s < |w.schedules|
    ensures var v, x := DropTask(w, t), w.schedules[s];
      && v.joins[t.out.value] == Ready(Err(Cancelled))
      && v.schedules == w.schedules[s := v.schedules[s]] && v.schedules[s].id == x.id
      && (x.state.Idle? ==> v.schedules[s].state.Queued? && v.ready == w.ready + [x.id])
      && (x.state.Running? ==> v.schedules[s].state == Running(true))
      && (!x.state.Idle? ==> v.ready == w.ready)
  {
    assert t.out == Some(t.out.value);
  }

  // The dropped task itself is forgotten as a waiter, and no other cell is touched.
  lemma DropForgets(w: World, t: LocalTask, c: nat)
    requires c < |w.joins| && t.out != Some(c)
    ensures |DropTask(w, t).joins| == |w.joins|
    ensures DropTask(w, t).joins[c] ==
      if w.joins[c].Pending? && Some(c) in t.future.handles then JoinState.Pending(None) else w.joins[c]
  {}

  lemma OutOf(js: Cells, all: Population, hist: History, id: nat)
    requires JoinInv(js, all, hist) && id in all && id != ROOT
    ensures all[id].out.Some? && all[id].out.value < |js|
  {}

  lemma DropDone(w: World, all: Population, g: Ghost, v: World)
    requires Inv(w, all, NOBODY, g, {}) && Dropping(w, g, v, {})
    ensures v.joins == CancelledCells(w.joins) && v.timers == map[] && !v.fault
  {
    assert forall r :: r !in v.timers;
  }

  lemma DropStart(w: World, g: Ghost, v: World)
    requires Quiet(w, g) && v == w.(closed := true)
    ensures Dropping(w, g, v, Admitted(w.tasks, w.pending).Keys)
  {
    forall r | r in w.timers ensures w.timers[r].waker < |w.schedules|
        && w.schedules[w.timers[r].waker].id in Admitted(w.tasks, w.pending) {
      assert Owned(w.timers, r, w.schedules, Admitted(w.tasks, w.pending));
    }
  }

  // `ts` lists the owned tasks, each once.
  ghost predicate Lists(ts: seq<LocalTask>, all: Population, ids: set<nat>) {
    && (forall i | 0 <= i < |ts| :: ts[i].id in ids && ts[i].id in all && all[ts[i].id] == ts[i])
    && (forall i, j | 0 <= i < j < |ts| :: ts[i].id != ts[j].id)
    && (forall id | id in ids :: exists i :: 0 <= i < |ts| && ts[i].id == id)
  }

  lemma {:induction false} DropRest(w: World, all: Population, g: Ghost, v: World, ts: seq<LocalTask>, left: set<nat>)
    requires Inv(w, all, NOBODY, g, {}) && ROOT !in all && Dropping(w, g, v, left) && Lists(ts, all, left)
    ensures Dropping(w, g, DropAll(v, ts), {})
    decreases |ts|
  {
    hide Inv, Dropping, DropTask;
    if ts == [] {
      assert left == {};
    } else {
      DropOne(w, all, g, v, left, ts[0]);
      forall id | id in left - {ts[0].id} ensures exists i :: 0 <= i < |ts| - 1 && ts[1..][i].id == id {
        var i :| 0 <= i < |ts| && ts[i].id == id;
        assert ts[1..][i - 1].id == id;
      }
      DropRest(w, all, g, DropTask(v, ts[0]), ts[1..], left - {ts[0].id});
    }
  }

  // In any order of dropping: every join that was unresolved says Cancelled, every other is as
  // it was, no cell is completed twice, and no timer registration survives.
  lemma ShutdownCancels(w: World, g: Ghost, ts: seq<LocalTask>)
    requires Quiet(w, g)
    requires Lists(ts, Admitted(w.tasks, w.pending), Admitted(w.tasks, w.pending).Keys)
    ensures var v := DropAll(w.(closed := true), ts);
      v.joins == CancelledCells(w.joins) && v.timers == map[] && !v.fault
  {
    hide Dropping, Inv;
    var all := Admitted(w.tasks, w.pending);
    DropStart(w, g, w.(closed := true));
    DropRest(w, all, g, w.(closed := true), ts, all.Keys);
    DropDone(w, all, g, DropAll(w.(closed := true), ts));
  }

  /* ---- After the end ---- */

  // Handles may outlive the executor. Whatever is spawned through them is cancelled on the
  // spot, so that together with the shutdown no join ever waits for a task that cannot run.
  lemma {:induction false} SpawnsAreCancelled(w: World, ps: seq<Program>)
    requires w.closed
    ensures var v := SpawnAll(w, ps);
      && v == w.(joins := v.joins, origins := v.origins) && |v.joins| == |w.joins| + |ps| && w.joins <= v.joins
      && forall c | |w.joins| <= c < |v.joins| :: v.joins[c] == Ready(Err(Cancelled))
    decreases |ps|
  {
    if ps != [] {
      SpawnsAreCancelled(Spawned(w, ps[0]).0, ps[1..]);
    }
  }

  lemma DropKeepsClosed(w: World, ts: seq<LocalTask>)
    requires w.closed
    ensures DropAll(w, ts).closed
    decreases |ts|
  {
    if ts != [] {
      DropKeepsClosed(DropTask(w, ts[0]), ts[1..]);
    }
  }

  lemma NobodyWaitsAfterShutdown(w: World, g: Ghost, ts: seq<LocalTask>, ps: seq<Program>)
    requires Quiet(w, g)
    requires Lists(ts, Admitted(w.tasks, w.pending), Admitted(w.tasks, w.pending).Keys)
    ensures var v := SpawnAll(DropAll(w.(closed := true), ts), ps);
      && !v.fault && v.timers == map[]
      && forall c | 0 <= c < |v.joins| :: !v.joins[c].Pending?
  {
    hide Quiet, Lists, DropAll, SpawnAll;
    ShutdownCancels(w, g, ts);
    DropKeepsClosed(w.(closed := true), ts);
    var u := DropAll(w.(closed := true), ts);
    SpawnsAreCancelled(u, ps);
    var v := SpawnAll(u, ps);
    forall c | 0 <= c < |v.joins| ensures !v.joins[c].Pending? {
      if c < |u.joins| { assert v.joins[c] == u.joins[c]; }
    }
  }
}
