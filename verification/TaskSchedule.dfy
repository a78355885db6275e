/** The schedule object behind every waker, and the channel it sends to. Each operation is a
    critical section followed by a send. */
module TaskSchedules {
  import opened Wrappers
  import opened ScheduleState

  class ReadyQueue {
    var ids: seq<nat>

    constructor ()
      ensures ids == []
    {
      ids := [];
    }

    method Send(id: nat)
      modifies this
      ensures ids == old(ids) + [id]
    {
      ids := ids + [id];
    }

    method TryRecv() returns (id: Option<nat>)
      modifies this
      ensures id.None? <==> old(ids) == []
      ensures old(ids) == (if id.Some? then [id.value] else []) + ids
    {
      if ids == [] {
        return None;
      }
      id := Some(ids[0]);
      ids := ids[1..];
    }
  }

  class TaskSchedule {
    const id: nat
    const readyTx: ReadyQueue
    var state: State

    constructor (id: nat, readyTx: ReadyQueue)
      ensures this.id == id && this.readyTx == readyTx && state == Idle
    {
      this.id := id;
      this.readyTx := readyTx;
      state := Idle;
    }

    /* ---- The critical sections ---- */

    method Wake() returns (action: Action)
      modifies this
      ensures state == Woken(old(state))
      ensures action == if WakeEnqueues(old(state)) then Enqueue else NoAction
    {
      action := NoAction;
      match state
      case Idle =>
        state := Queued;
        action := Enqueue;
      case Running(notified) =>
        if !notified {
          state := Running(true);
        }
      case _ =>
    }

    method BeginPoll()
      requires state.Queued?
      modifies this
      ensures state == Running(false)
    {
      state := Running(false);
    }

    method FinishPoll(ready: bool) returns (action: Action)
      requires state.Running?
      modifies this
      ensures state == Finished(old(state), ready)
      ensures action == if ready then Completed else if FinishEnqueues(old(state), ready) then Enqueue else NoAction
    {
      if ready {
        state := Complete;
        action := Completed;
      } else if state.notified {
        state := Queued;
        action := Enqueue;
      } else {
        state := Idle;
        action := NoAction;
      }
    }

    /* ---- With the sends ---- */

    method RequestSchedule()
      modifies this, readyTx
      ensures state == Woken(old(state))
      ensures readyTx.ids == old(readyTx.ids) + if old(state).Idle? then [id] else []
    {
      var action := Wake();
      if action == Enqueue {
        readyTx.Send(id);
      }
    }

    // A poll whose future woke its own task `wakes` times and then returned.
    method Poll(wakes: nat, ready: bool)
      requires state.Queued?
      modifies this, readyTx
      ensures state == if ready then Complete else if wakes > 0 then Queued else Idle
      ensures readyTx.ids == old(readyTx.ids) + if !ready && wakes > 0 then [id] else []
    {
      BeginPoll();
      var i := 0;
      while i < wakes
        invariant 0 <= i <= wakes
        invariant state == Running(i > 0) && readyTx.ids == old(readyTx.ids)
      {
        RequestSchedule();
        i := i + 1;
      }
      var action := FinishPoll(ready);
      if action == Enqueue {
        readyTx.Send(id);
      }
    }
  }
}
