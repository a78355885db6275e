/** Futures as small programs, and what such a program means in virtual time.

    A program is what an observer sees a sequential future do, one instruction after the other:
    what it wakes, spawns, sleeps on, joins, and how long it computes. Futures that poll several
    leaf futures at once, reset their timers, or hand handles to their children are not programs. */
module Programs {
  import opened Wrappers

  datatype Program =
    | Return(v: int)
    | Panic
    // sleep(d).await
    | Sleep(d: nat, next: Program)
    // spawn(child); the handle is kept under the next free index
    | Spawn(child: Program, next: Program)
    // match handles[k].await { Ok(v) => ok, adding v to the accumulator; Err(_) => err }
    | Join(k: nat, ok: Program, err: Program)
    // wake_by_ref on the task's own waker, then Pending once
    | Yield(next: Program)
    // wake through a waker obtained earlier, possibly of a task that is long complete
    | Wake(target: nat, next: Program)
    // compute for d units of real time
    | Busy(d: nat, next: Program)
    // return Pending once without arranging any wake
    | Park(next: Program)

  datatype Outcome = Value(v: int) | Panicked

  datatype Done = Done(at: int, out: Outcome)

  // The meaning of a program started at time `t`: when it ends, and how. Sleeping adds,
  // joining takes the maximum. `hs` gives the meaning of the children whose handles are held.
  function Finish(p: Program, t: int, acc: int, hs: seq<Option<Done>>): Done {
    match p
    case Return(v) => Done(t, Value(acc + v))
    case Panic => Done(t, Panicked)
    case Sleep(d, next) => Finish(next, t + d, acc, hs)
    case Spawn(child, next) => Finish(next, t, acc, hs + [Some(Finish(child, t, 0, []))])
    case Join(k, ok, err) =>
      if k < |hs| && hs[k].Some? then
        var h := hs[k].value;
        match h.out
        case Value(v) => Finish(ok, Max(t, h.at), acc + v, hs[k := None])
        case Panicked => Finish(err, Max(t, h.at), acc, hs[k := None])
      else
        Done(t, Panicked)
    case Yield(next) => Finish(next, t, acc, hs)
    case Wake(_, next) => Finish(next, t, acc, hs)
    case Busy(_, next) => Finish(next, t, acc, hs)
    case Park(next) => Finish(next, t, acc, hs)
  }

  // No instruction waits for a wake that nobody has been asked to give.
  predicate NoPark(p: Program) {
    match p
    case Return(_) => true
    case Panic => true
    case Sleep(_, next) => NoPark(next)
    case Spawn(child, next) => NoPark(child) && NoPark(next)
    case Join(_, ok, err) => NoPark(ok) && NoPark(err)
    case Yield(next) => NoPark(next)
    case Wake(_, next) => NoPark(next)
    case Busy(_, next) => NoPark(next)
    case Park(_) => false
  }

  // An upper bound on the steps a program can still take.
  function Work(p: Program): (n: nat)
    ensures n >= 1
  {
    match p
    case Return(_) => 1
    case Panic => 1
    case Sleep(_, next) => 2 + Work(next)
    case Spawn(child, next) => 1 + Work(child) + Work(next)
    case Join(_, ok, err) => 1 + Work(ok) + Work(err)
    case Yield(next) => 1 + Work(next)
    case Wake(_, next) => 1 + Work(next)
    case Busy(_, next) => 1 + Work(next)
    case Park(next) => 1 + Work(next)
  }

  // A program never ends before it starts, and starting later never changes the outcome
  // nor makes it end earlier.
  lemma {:induction false} FinishMonotone(p: Program, t: int, t': int, acc: int, hs: seq<Option<Done>>,
        hs': seq<Option<Done>>)
    requires t <= t'
    requires |hs| == |hs'|
    requires forall i | 0 <= i < |hs| :: hs[i].Some? == hs'[i].Some?
    requires forall i | 0 <= i < |hs| && hs[i].Some? ::
      hs[i].value.out == hs'[i].value.out && hs[i].value.at <= hs'[i].value.at
    ensures Finish(p, t, acc, hs).out == Finish(p, t', acc, hs').out
    ensures t <= Finish(p, t, acc, hs).at <= Finish(p, t', acc, hs').at
    decreases p
  {
    match p
    case Return(_) =>
    case Panic =>
    case Sleep(d, next) => FinishMonotone(next, t + d, t' + d, acc, hs, hs');
    case Spawn(child, next) =>
      FinishMonotone(child, t, t', 0, [], []);
      FinishMonotone(next, t, t', acc, hs + [Some(Finish(child, t, 0, []))], hs' + [Some(Finish(child, t', 0, []))]);
    case Join(k, ok, err) =>
      if k < |hs| && hs[k].Some? {
        var h, h' := hs[k].value, hs'[k].value;
        match h.out
        case Value(v) => FinishMonotone(ok, Max(t, h.at), Max(t', h'.at), acc + v, hs[k := None], hs'[k := None]);
        case Panicked => FinishMonotone(err, Max(t, h.at), Max(t', h'.at), acc, hs[k := None], hs'[k := None]);
      }
    case Yield(next) => FinishMonotone(next, t, t', acc, hs, hs');
    case Wake(_, next) => FinishMonotone(next, t, t', acc, hs, hs');
    case Busy(_, next) => FinishMonotone(next, t, t', acc, hs, hs');
    case Park(next) => FinishMonotone(next, t, t', acc, hs, hs');
  }
}
