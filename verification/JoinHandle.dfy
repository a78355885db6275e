/** The one-shot cell between a task and its join handle. */
module JoinHandles {
  import opened Wrappers
  import opened JoinSpec

  class JoinCell<T> {
    var state: JoinState<T>

    constructor ()
      ensures state == JoinState.Pending(None)
    {
      state := JoinState.Pending(None);
    }

    // Returns the waiter to wake. A second completion is a panic.
    method Complete(result: Result<T, JoinError>) returns (waiter: Option<nat>)
      requires state.Pending?
      modifies this
      ensures state == Ready(result) && waiter == old(state).waker
    {
      waiter := state.waker;
      state := Ready(result);
    }
  }

  // The owning end of the task. Publishing takes the cell out, so the drop that follows does nothing.
  class JoinSender<T> {
    var cell: JoinCell?<T>

    constructor (cell: JoinCell<T>)
      ensures this.cell == cell
    {
      this.cell := cell;
    }

    method PublishInner(result: Result<T, JoinError>) returns (waiter: Option<nat>)
      requires cell != null ==> cell.state.Pending?
      modifies this, cell
      ensures cell == null
      ensures old(cell) == null ==> waiter == None
      ensures old(cell) != null ==> old(cell).state == Ready(result) && waiter == old(cell.state).waker
      ensures old(cell) != null ==>
        Live(Life(old(cell.state), true, true, [], []), Op.Publish(result))
            == Life(old(cell).state, false, true, Called(waiter), [])
    {
      if cell == null {
        return None;
      }
      var target := cell;
      cell := null;
      waiter := target.Complete(result);
    }

    method Drop() returns (waiter: Option<nat>)
      requires cell != null ==> cell.state.Pending?
      modifies this, cell
      ensures cell == null
      ensures old(cell) == null ==> waiter == None
      ensures old(cell) != null ==> old(cell).state == Ready(Err(Cancelled)) && waiter == old(cell.state).waker
      ensures old(cell) != null ==>
        Live(Life(old(cell.state), true, true, [], []), DropSender)
            == Life(old(cell).state, false, true, Called(waiter), [])
    {
      waiter := PublishInner(Err(Cancelled));
    }

    // Publishing consumes the sender: its destructor runs at once and must not cancel.
    method Publish(result: Result<T, JoinError>) returns (waiter: Option<nat>)
      requires cell != null && cell.state.Pending?
      modifies this, cell
      ensures cell == null
      ensures old(cell).state == Ready(result) && waiter == old(cell.state).waker
      ensures Live(Life(old(cell.state), true, true, [], []), Op.Publish(result))
          == Life(old(cell).state, false, true, Called(waiter), [])
    {
      waiter := PublishInner(result);
      var none := Drop();
    }
  }

  class JoinHandle<T> {
    const cell: JoinCell<T>

    constructor (cell: JoinCell<T>)
      ensures this.cell == cell
    {
      this.cell := cell;
    }

    // Polling after the result was taken is a panic.
    method Poll(waker: nat) returns (result: Option<Result<T, JoinError>>)
      requires !cell.state.Consumed?
      modifies cell
      ensures match old(cell.state)
        case Pending(_) => result == None && cell.state == JoinState.Pending(Some(waker))
        case Ready(r) => result == Some(r) && cell.state == Consumed
        case Consumed => true
      ensures Live(Life(old(cell.state), true, true, [], []), PollHandle(waker))
           == Life(cell.state, true, result.None?, [], if result.Some? then [result.value] else [])
    {
      match cell.state
      case Pending(_) =>
        cell.state := JoinState.Pending(Some(waker));
        return None;
      case Ready(r) =>
        cell.state := Consumed;
        return Some(r);
    }

    // Dropping the handle detaches the task: it runs on, and nobody is woken for it.
    method Drop()
      modifies cell
      ensures cell.state == if old(cell.state).Pending? then JoinState.Pending(None) else old(cell.state)
      ensures Live(Life(old(cell.state), true, true, [], []), DropHandle) == Life(cell.state, true, false, [], [])
    {
      if cell.state.Pending? {
        cell.state := JoinState.Pending(None);
      }
    }
  }

  /* ---- Every life of a cell ---- */

  datatype Op<T> = PollHandle(waker: nat) | DropHandle | Publish(value: Result<T, JoinError>) | DropSender

  // The cell with both ends, what wakes it has caused and what results it has handed out.
  datatype Life<T> = Life(cell: JoinState<T>, sender: bool, handle: bool, woken: seq<nat>, delivered: seq<Result<T,
        JoinError>>)

  // A waiter that was taken out of the cell is woken at once.
  function Called(waiter: Option<nat>): seq<nat> {
    if waiter.Some? then [waiter.value] else []
  }

  function Born<T>(): Life<T> {
    Life(JoinState.Pending(None), true, true, [], [])
  }

  function Completed<T>(x: Life<T>, r: Result<T, JoinError>): Life<T> {
    if !x.sender then x
    else if !x.cell.Pending? then x.(sender := false)
    else x.(cell := Ready(r), sender := false, woken := x.woken + Called(x.cell.waker))
  }

  // One operation; an end that is gone cannot act.
  function Live<T>(x: Life<T>, op: Op<T>): Life<T> {
    match op
    case PollHandle(waker) =>
      if !x.handle then x
      else
        (match x.cell
         case Pending(_) => x.(cell := JoinState.Pending(Some(waker)))
         case Ready(r) => x.(cell := Consumed, delivered := x.delivered + [r], handle := false)
         case Consumed => x)
    case DropHandle =>
      if !x.handle then x
      else x.(handle := false, cell := if x.cell.Pending? then JoinState.Pending(None) else x.cell)
    case Publish(r) => Completed(x, r)
    case DropSender => Completed(x, Err(Cancelled))
  }

  function History<T>(ops: seq<Op<T>>): Life<T>
    decreases |ops|
  {
    if ops == [] then Born() else Live(History(ops[..|ops| - 1]), ops[|ops| - 1])
  }

  // The first completion in a run of operations, and what it says.
  function Outcome<T>(ops: seq<Op<T>>): Option<Result<T, JoinError>>
    decreases |ops|
  {
    if ops == [] then None
    else
      var before := Outcome(ops[..|ops| - 1]);
      if before.Some? then before
      else
        match ops[|ops| - 1]
        case Publish(r) => Some(r)
        case DropSender => Some(Err(Cancelled))
        case _ => None
  }

  // Who polled last before the completion and has not let go of the handle since.
  function LatestWaiter<T>(ops: seq<Op<T>>): Option<nat>
    decreases |ops|
  {
    if ops == [] then None
    else
      var init, last := ops[..|ops| - 1], ops[|ops| - 1];
      if Outcome(init).Some? || Outcome(ops).Some? then LatestWaiter(init)
      else
        match last
        case PollHandle(waker) => if Dropped(init) then None else Some(waker)
        case DropHandle => None
        case _ => LatestWaiter(init)
  }

  function Dropped<T>(ops: seq<Op<T>>): bool
    decreases |ops|
  {
    ops != [] && (ops[|ops| - 1].DropHandle? || Dropped(ops[..|ops| - 1]))
  }

  // Whatever happens to the two ends: the cell is unresolved exactly until the first
  // completion; that completion wakes the latest surviving waiter and nobody else, ever; its
  // result is handed out at most once and is never replaced.
  lemma {:induction false} CellResolvesOnce<T>(ops: seq<Op<T>>)
    ensures var x := History(ops);
      && x.cell.Pending? == Outcome(ops).None? == x.sender
      && (x.cell.Pending? ==> x.cell.waker == LatestWaiter(ops) && x.woken == [] && x.delivered == [])
      && (x.cell.Ready? ==> Outcome(ops) == Some(x.cell.result) && x.delivered == [])
      && (x.cell.Consumed? ==> Outcome(ops).Some? && x.delivered == [Outcome(ops).value] && !x.handle)
      && (!x.cell.Pending? ==> x.woken == Called(LatestWaiter(ops)))
      && (x.cell.Pending? ==> x.handle == !Dropped(ops))
    decreases |ops|
  {
    if ops != [] {
      CellResolvesOnce(ops[..|ops| - 1]);
    }
  }
}
