/** The composed runtime does to a join cell and to a sleep what the components do on their own. */
module Agreement {
  import opened Wrappers
  import opened TimerSpec
  import opened JoinSpec
  import opened Programs
  import opened ExecutorSpec
  import opened Shutdowns
  import J = JoinHandles
  import S = SleepSystem

  // A cell of the world with both its ends.
  function CellOf(w: World, c: nat): J.Life<int>
    requires c < |w.joins|
  {
    J.Life(w.joins[c], true, true, [], [])
  }

  // Publishing is the completion of the cell's life, followed by the wakes that causes.
  lemma PublishAgrees(w: World, c: nat, r: Result<int, JoinError>)
    requires c < |w.joins| && w.joins[c].Pending?
    ensures var x := J.Live(CellOf(w, c), J.Op.Publish(r));
      Publish(w, c, r) == WakeAll(w.(joins := w.joins[c := x.cell]), x.woken)
  {
    var v := w.(joins := w.joins[c := Ready(r)]);
    if w.joins[c].waker.Some? {
      assert WakeAll(v, [w.joins[c].waker.value]) == WakeAll(WakeSchedule(v, w.joins[c].waker.value), []);
    }
  }

  // Dropping handles is dropping each of them.
  lemma DetachAgrees(w: World, hs: seq<Option<nat>>, c: nat)
    requires c < |w.joins|
    ensures Detached(w.joins, hs)[c] == if Some(c) in hs then J.Live(CellOf(w, c), J.DropHandle).cell else w.joins[c]
  {}

  // Awaiting a handle is polling it: the future goes on exactly if a result is delivered.
  lemma AwaitAgrees(w: World, me: nat, f: Future)
    requires f.stage.Run? && f.stage.p.Join? && f.stage.p.k < |f.handles| && f.handles[f.stage.p.k].Some?
    requires f.handles[f.stage.p.k].value < |w.joins| && !w.joins[f.handles[f.stage.p.k].value].Consumed?
    ensures var k, c := f.stage.p.k, f.handles[f.stage.p.k].value;
      var x := J.Live(CellOf(w, c), J.PollHandle(me));
      var v := w.(joins := w.joins[c := x.cell]);
      Poll(w, me, f) ==
        if x.delivered == [] then PollResult(v, f, Suspended)
        else match x.delivered[0]
             case Ok(value) => Poll(v, me,
                 f.(stage := Run(f.stage.p.ok), acc := f.acc + value, handles := f.handles[k := None]))
             case Err(_) => Poll(v, me, f.(stage := Run(f.stage.p.err), handles := f.handles[k := None]))
  {}

  // The world's timers with one sleep on them.
  function SleeperOf(w: World, deadline: int, reg: Option<nat>): S.Sys {
    S.Sys(map[0 := S.SleepState(deadline, reg, 0)], w.timers, w.nextTimer, w.now, false)
  }

  // Polling a sleep again is a poll of the sleep system.
  lemma AsleepAgrees(w: World, me: nat, f: Future)
    requires f.stage.Sleeping?
    ensures var x := S.Step(SleeperOf(w, f.stage.deadline, Some(f.stage.reg)), S.Poll(0, me));
      Poll(w, me, f) ==
        if x.sleeps[0].reg.None? then Poll(w.(timers := x.timers), me, f.(stage := Run(f.stage.next)))
        else if x.fault then PollResult(w.(fault := true), f, Resolved(Panicked))
        else PollResult(w.(timers := x.timers), f, Suspended)
  {}

  // A new sleep is created with its deadline and polled once.
  lemma SleepAgrees(w: World, me: nat, f: Future)
    requires f.stage.Run? && f.stage.p.Sleep?
    ensures var x := S.Step(SleeperOf(w, w.now + f.stage.p.d, None), S.Poll(0, me));
      Poll(w, me, f) ==
        if x.fault then PollResult(w.(fault := true, nextTimer := x.nextTimer), f, Resolved(Panicked))
        else match x.sleeps[0].reg
             case None => Poll(w.(timers := x.timers), me, f.(stage := Run(f.stage.p.next)))
             case Some(reg) =>
               PollResult(w.(timers := x.timers, nextTimer := x.nextTimer),
                          f.(stage := Sleeping(w.now + f.stage.p.d, reg, f.stage.p.next)), Suspended)
  {}

  // A task that is dropped asleep drops its sleep.
  lemma DropAgrees(w: World, t: LocalTask)
    requires t.future.stage.Sleeping?
    ensures DropTask(w, t).timers
        == S.Step(SleeperOf(w, t.future.stage.deadline, Some(t.future.stage.reg)), S.Drop(0)).timers
  {
    DropFrame(w, t);
  }
}
