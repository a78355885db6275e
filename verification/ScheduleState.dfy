/** The per-task scheduling state: who may enqueue the task, and when. */
module ScheduleState {

  datatype State = Idle | Queued | Running(notified: bool) | Complete

  datatype Action = NoAction | Enqueue | Completed

  // The state after a wake, whatever thread it comes from.
  function Woken(s: State): State {
    match s
    case Idle => Queued
    case Running(_) => Running(true)
    case _ => s
  }

  // A wake hands its caller the duty to send the id exactly when the task was idle.
  predicate WakeEnqueues(s: State) { s.Idle? }

  // The state after a poll that returned `Ready` or `Pending`.
  function Finished(s: State, ready: bool): State
    requires s.Running?
  {
    if ready then Complete else if s.notified then Queued else Idle
  }

  predicate FinishEnqueues(s: State, ready: bool)
    requires s.Running?
  {
    !ready && s.notified
  }
}
