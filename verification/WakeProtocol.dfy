/** The wake/poll protocol under every interleaving.

    State changes happen under a lock, but the send that a wake or a finished poll decides on
    happens after the lock is released, and receiving an id and beginning its poll are separate
    too. So a token can be in four places: decided but unsent by a waking thread, decided but
    unsent by the executor, in the channel, or in the executor's hand. The channel carries task
    ids; the executor looks up whom an id stands for. Schedules outlive their tasks, and an id
    may be given to a new schedule once its task is gone, as every root does with the root's id. */
module WakeProtocol {
  import opened ScheduleState

  datatype Schedule = Schedule(id: nat, state: State)

  // What the executor thread is doing: with an id before the poll, with a schedule during it.
  datatype Exec = Waiting | InHand(id: nat) | Polling(s: nat) | Sending(id: nat)

  // `live` says which schedule a task id stands for. `fault` records that an `unreachable!` of
  // the state machine or the `expect` of the lookup has fired.
  datatype Sys = Sys(scheds: seq<Schedule>, live: map<nat, nat>, channel: seq<nat>, unsent: multiset<nat>,
        exec: Exec, fault: bool)

  datatype Label =
    // a task or a root comes to life under an id that is not in use
    | NewSchedule(id: nat)
    // some thread takes the lock and wakes schedule s
    | WakeLock(s: nat)
    // a thread that decided to enqueue s performs the send
    | WakeSend(s: nat)
    | Recv
    | Begin
    // the future has returned; the executor takes the lock
    | Finish(ready: bool)
    | FinishSend
    // the future has panicked and the poll unwinds
    | Unwind

  const Init := Sys([], map[], [], multiset{}, Waiting, false)

  predicate Live(x: Sys, s: nat) {
    s < |x.scheds| && x.scheds[s].id in x.live && x.live[x.scheds[s].id] == s
  }

  function WithState(x: Sys, s: nat, st: State): seq<Schedule>
    requires s < |x.scheds|
  {
    x.scheds[s := x.scheds[s].(state := st)]
  }

  // One step; a step that is not enabled changes nothing.
  function Step(x: Sys, l: Label): Sys {
    match l
    case NewSchedule(id) =>
      if id in x.live then x else x.(scheds := x.scheds + [Schedule(id, Idle)], live := x.live[id := |x.scheds|])
    case WakeLock(s) =>
      if s < |x.scheds| then
        x.(scheds := WithState(x, s, Woken(x.scheds[s].state)),
           unsent := if WakeEnqueues(x.scheds[s].state) then x.unsent + multiset{s} else x.unsent)
      else x
    case WakeSend(s) =>
      if s in x.unsent && s < |x.scheds|
          then x.(unsent := x.unsent - multiset{s}, channel := x.channel + [x.scheds[s].id]) else x
    case Recv =>
      if x.exec.Waiting? && x.channel != [] then x.(exec := InHand(x.channel[0]), channel := x.channel[1..]) else x
    case Begin =>
      if !x.exec.InHand? then x
      else if x.exec.id in x.live && x.live[x.exec.id] < |x.scheds| && x.scheds[x.live[x.exec.id]].state.Queued? then
        x.(scheds := WithState(x, x.live[x.exec.id], Running(false)), exec := Polling(x.live[x.exec.id]))
      else x.(fault := true)
    case Finish(ready) =>
      if !x.exec.Polling? then x
      else if x.exec.s < |x.scheds| && x.scheds[x.exec.s].state.Running? then
        var y := x.scheds[x.exec.s];
        x.(scheds := WithState(x, x.exec.s, Finished(y.state, ready)),
           live := if ready then x.live - {y.id} else x.live,
           exec := if FinishEnqueues(y.state, ready) then Sending(y.id) else Waiting)
      else x.(fault := true)
    case FinishSend =>
      if x.exec.Sending? then x.(channel := x.channel + [x.exec.id], exec := Waiting) else x
    case Unwind =>
      if x.exec.Polling? && x.exec.s < |x.scheds| then x.(exec := Waiting, live := x.live - {x.scheds[x.exec.s].id})
          else x
  }

  function After(x: Sys, ls: seq<Label>): Sys
    decreases |ls|
  {
    if ls == [] then x else Step(After(x, ls[..|ls| - 1]), ls[|ls| - 1])
  }

  /* ---- Token conservation ---- */

  function Held(e: Exec, id: nat): nat {
    if (e.InHand? || e.Sending?) && e.id == id then 1 else 0
  }

  // The sends that other threads have decided on for the task with this id.
  function Unsent(x: Sys, id: nat): nat {
    if id in x.live then x.unsent[x.live[id]] else 0
  }

  function Tokens(x: Sys, id: nat): nat {
    multiset(x.channel)[id] + Unsent(x, id) + Held(x.exec, id)
  }

  predicate Queued(x: Sys, id: nat) {
    id in x.live && x.live[id] < |x.scheds| && x.scheds[x.live[id]].state.Queued?
  }

  // Only live schedules can be idle or queued, and a live one that runs is being polled.
  ghost predicate LiveOk(x: Sys) {
    && (forall id | id in x.live ::
          Live(x, x.live[id]) && x.scheds[x.live[id]].id == id && !x.scheds[x.live[id]].state.Complete?)
    && (forall s | 0 <= s < |x.scheds| && (x.scheds[s].state.Idle? || x.scheds[s].state.Queued?) :: Live(x, s))
    && (x.exec.Polling? ==> Live(x, x.exec.s) && x.scheds[x.exec.s].state.Running?)
    && (forall id | id in x.live && x.scheds[x.live[id]].state.Running? :: x.exec == Polling(x.live[id]))
  }

  ghost predicate TokensOk(x: Sys) {
    && (forall id: nat :: Tokens(x, id) == if Queued(x, id) then 1 else 0)
    && (forall s | s in x.unsent :: s < |x.scheds| && x.scheds[s].state.Queued?)
  }

  ghost predicate Sound(x: Sys) {
    !x.fault && LiveOk(x) && TokensOk(x)
  }

  lemma StepSound(x: Sys, l: Label)
    requires Sound(x)
    ensures Sound(Step(x, l))
  {
    hide Sound, Step;
    match l
    case NewSchedule(id) => NewSound(x, id);
    case WakeLock(s) => WakeSound(x, s);
    case WakeSend(s) => SendSound(x, s);
    case Recv => RecvSound(x);
    case Begin => BeginSound(x);
    case Finish(ready) => FinishSound(x, ready);
    case FinishSend => SendBackSound(x);
    case Unwind => UnwindSound(x);
  }

  lemma NewSound(x: Sys, id: nat)
    requires Sound(x)
    ensures Sound(Step(x, NewSchedule(id)))
  {
    var y := Step(x, NewSchedule(id));
    forall j: nat ensures Tokens(y, j) == if Queued(y, j) then 1 else 0 {
      assert Tokens(x, j) == if Queued(x, j) then 1 else 0;
    }
  }

  lemma WakeLive(x: Sys, s: nat)
    requires LiveOk(x)
    ensures LiveOk(Step(x, WakeLock(s)))
  {}

  lemma WakeTokens(x: Sys, s: nat, j: nat)
    requires Sound(x)
    ensures var y := Step(x, WakeLock(s)); Tokens(y, j) == if Queued(y, j) then 1 else 0
  {
    assert Tokens(x, j) == if Queued(x, j) then 1 else 0;
  }

  lemma WakeSound(x: Sys, s: nat)
    requires Sound(x)
    ensures Sound(Step(x, WakeLock(s)))
  {
    hide Tokens, Queued, LiveOk;
    WakeLive(x, s);
    forall j: nat ensures Tokens(Step(x, WakeLock(s)), j) == if Queued(Step(x, WakeLock(s)), j) then 1 else 0 {
      WakeTokens(x, s, j);
    }
  }

  lemma SendSound(x: Sys, s: nat)
    requires Sound(x)
    ensures Sound(Step(x, WakeSend(s)))
  {
    var y := Step(x, WakeSend(s));
    forall j: nat ensures Tokens(y, j) == if Queued(y, j) then 1 else 0 {
      assert Tokens(x, j) == if Queued(x, j) then 1 else 0;
    }
  }

  lemma RecvSound(x: Sys)
    requires Sound(x)
    ensures Sound(Step(x, Recv))
  {
    if x.exec.Waiting? && x.channel != [] {
      assert x.channel == [x.channel[0]] + x.channel[1..];
      assert multiset(x.channel) == multiset{x.channel[0]} + multiset(x.channel[1..]);
      assert forall j: nat :: Tokens(Step(x, Recv), j) == Tokens(x, j);
    }
  }

  lemma BeginSound(x: Sys)
    requires Sound(x)
    ensures Sound(Step(x, Begin))
  {
    if x.exec.InHand? {
      assert Tokens(x, x.exec.id) >= 1;
      var y := Step(x, Begin);
      forall j: nat ensures Tokens(y, j) == if Queued(y, j) then 1 else 0 {
        assert Tokens(x, j) == if Queued(x, j) then 1 else 0;
      }
      BeginUnsent(x);
    }
  }

  // The received token was the only one.
  lemma BeginUnsent(x: Sys)
    requires Sound(x) && x.exec.InHand? && Queued(x, x.exec.id)
    ensures x.live[x.exec.id] !in x.unsent
  {
    assert Tokens(x, x.exec.id) == 1;
  }

  lemma FinishSound(x: Sys, ready: bool)
    requires Sound(x)
    ensures Sound(Step(x, Finish(ready)))
  {
    if x.exec.Polling? {
      var y := Step(x, Finish(ready));
      FinishLive(x, ready);
      forall j: nat ensures Tokens(y, j) == if Queued(y, j) then 1 else 0 {
        assert Tokens(x, j) == if Queued(x, j) then 1 else 0;
      }
    }
  }

  lemma FinishLive(x: Sys, ready: bool)
    requires Sound(x) && x.exec.Polling?
    ensures LiveOk(Step(x, Finish(ready))) && !Step(x, Finish(ready)).fault
  {}

  lemma SendBackSound(x: Sys)
    requires Sound(x)
    ensures Sound(Step(x, FinishSend))
  {
    if x.exec.Sending? {
      assert forall j: nat :: Tokens(Step(x, FinishSend), j) == Tokens(x, j);
    }
  }

  lemma UnwindSound(x: Sys)
    requires Sound(x)
    ensures Sound(Step(x, Unwind))
  {
    if x.exec.Polling? {
      var y := Step(x, Unwind);
      forall j: nat ensures Tokens(y, j) == if Queued(y, j) then 1 else 0 {
        assert Tokens(x, j) == if Queued(x, j) then 1 else 0;
      }
    }
  }

  lemma {:induction false} RunsAreSound(ls: seq<Label>)
    ensures Sound(After(Init, ls))
    decreases |ls|
  {
    hide Step;
    if ls != [] {
      hide Sound;
      RunsAreSound(ls[..|ls| - 1]);
      StepSound(After(Init, ls[..|ls| - 1]), ls[|ls| - 1]);
    }
  }

  // Under every interleaving: one token exactly while the task behind an id is queued, wherever
  // the token is, none otherwise and none for an id that is not in use; so a received id always
  // names a live task that is ready to be polled, and neither `unreachable!` nor `expect` fires.
  lemma TokensAreConserved(ls: seq<Label>)
    ensures var x := After(Init, ls);
      && !x.fault
      && (forall id: nat :: multiset(x.channel)[id] + Unsent(x, id) + Held(x.exec, id) == if Queued(x, id) then 1
          else 0)
      && (forall s | s in x.unsent :: Live(x, s))
      && (x.exec.InHand? ==> Queued(x, x.exec.id))
    ensures Sound(After(Init, ls))
  {
    hide After, Step;
    RunsAreSound(ls);
    var x := After(Init, ls);
    assert forall id: nat :: Tokens(x, id) == multiset(x.channel)[id] + Unsent(x, id) + Held(x.exec, id);
  }

  /* ---- The one-bit specification ---- */

  // What a schedule is for: a notification bit, and whether the future is being polled.
  datatype Phase = Resting | Polled | Over

  datatype Spec = Spec(notified: bool, phase: Phase)

  const OVER := Spec(false, Over)

  function Abstract(x: Sys, s: nat): Spec {
    if !Live(x, s) then OVER
    else
      match x.scheds[s].state
      case Idle => Spec(false, Resting)
      case Queued => Spec(true, Resting)
      case Running(n) => Spec(n, Polled)
      case Complete => OVER
  }

  // A wake sets the bit of a task that is not over; beginning a poll consumes the bit; ending
  // it changes the phase only.
  function SpecWake(a: Spec): Spec { if a.phase.Over? then a else a.(notified := true) }

  function SpecBegin(a: Spec): Spec { Spec(false, Polled) }

  function SpecFinish(a: Spec, ready: bool): Spec { if ready then OVER else a.(phase := Resting) }

  // The executor holds the id of schedule `s`.
  predicate Serves(x: Sys, s: nat) {
    x.exec.InHand? && Live(x, s) && x.scheds[s].id == x.exec.id
  }

  // Which abstract action a step is for schedule `s`.
  ghost predicate Refines(x: Sys, l: Label, s: nat) {
    var a, b := Abstract(x, s), Abstract(Step(x, l), s);
    match l
    case WakeLock(t) => b == if t == s then SpecWake(a) else a
    case Begin => if Serves(x, s) then a.notified && a.phase.Resting? && b == SpecBegin(a) else b == a
    case Finish(ready) => if x.exec == Polling(s) then a.phase.Polled? && b == SpecFinish(a, ready) else b == a
    case Unwind => b == if x.exec == Polling(s) then OVER else a
    case _ => b == a
  }

  lemma WakeRefines(x: Sys, t: nat, s: nat)
    requires LiveOk(x) && s < |x.scheds|
    ensures Refines(x, WakeLock(t), s)
  {}

  lemma BeginRefines(x: Sys, s: nat)
    requires Sound(x) && s < |x.scheds|
    ensures Refines(x, Begin, s)
  {
    if x.exec.InHand? {
      assert Tokens(x, x.exec.id) >= 1;
    }
  }

  lemma FinishRefines(x: Sys, ready: bool, s: nat)
    requires LiveOk(x) && s < |x.scheds|
    ensures Refines(x, Finish(ready), s)
  {}

  lemma OtherRefines(x: Sys, l: Label, s: nat)
    requires LiveOk(x) && s < |x.scheds| && !l.WakeLock? && !l.Begin? && !l.Finish?
    ensures Refines(x, l, s)
  {}

  lemma StepRefines(x: Sys, l: Label, s: nat)
    requires Sound(x) && s < |x.scheds|
    ensures Refines(x, l, s) && s < |Step(x, l).scheds|
  {
    hide Refines, LiveOk, TokensOk;
    match l
    case WakeLock(t) => WakeRefines(x, t, s);
    case Begin => BeginRefines(x, s);
    case Finish(ready) => FinishRefines(x, ready, s);
    case _ => OtherRefines(x, l, s);
  }

  // Every step of every run is a step of the specification.
  lemma ProtocolRefinesOneBit(ls: seq<Label>, l: Label, s: nat)
    requires s < |After(Init, ls).scheds|
    ensures Refines(After(Init, ls), l, s) && s < |Step(After(Init, ls), l).scheds|
  {
    hide Refines;
    TokensAreConserved(ls);
    StepRefines(After(Init, ls), l, s);
  }

  /* ---- Wakes and polls along a run ---- */

  // Position `i` of the run wakes / begins a poll of / ends schedule `s`.
  ghost predicate WakesAt(ls: seq<Label>, i: nat, s: nat)
    requires i < |ls|
  {
    ls[i] == WakeLock(s) && Live(After(Init, ls[..i]), s)
  }

  ghost predicate BeginsAt(ls: seq<Label>, i: nat, s: nat)
    requires i < |ls|
  {
    ls[i].Begin? && Serves(After(Init, ls[..i]), s)
  }

  ghost predicate EndsAt(ls: seq<Label>, i: nat, s: nat)
    requires i < |ls|
  {
    (ls[i] == Finish(true) || ls[i].Unwind?) && After(Init, ls[..i]).exec == Polling(s)
  }

  ghost predicate Noted(x: Sys, s: nat) {
    s < |x.scheds| && Abstract(x, s).notified
  }

  lemma OneMore(ls: seq<Label>, i: nat)
    requires i < |ls|
    ensures After(Init, ls[..i + 1]) == Step(After(Init, ls[..i]), ls[i])
  {
    assert ls[..i + 1][..i] == ls[..i];
  }

  lemma NewIsNotNoted(x: Sys, l: Label, s: nat)
    requires s >= |x.scheds|
    ensures !Noted(Step(x, l), s)
  {}

  lemma LiveIsNotOver(ls: seq<Label>, s: nat)
    ensures Live(After(Init, ls), s) ==> !Abstract(After(Init, ls), s).phase.Over?
  {
    hide After;
    TokensAreConserved(ls);
  }

  // How the bit changes in step `n`.
  lemma NoteStep(ls: seq<Label>, n: nat, s: nat)
    requires n < |ls|
    ensures Noted(After(Init, ls[..n + 1]), s) ==>
      WakesAt(ls, n, s) || (Noted(After(Init, ls[..n]), s) && !BeginsAt(ls, n, s))
    ensures WakesAt(ls, n, s) || (Noted(After(Init, ls[..n]), s) && !BeginsAt(ls, n, s) && !EndsAt(ls, n, s)) ==>
      Noted(After(Init, ls[..n + 1]), s)
  {
    hide After;
    var x := After(Init, ls[..n]);
    OneMore(ls, n);
    if s < |x.scheds| {
      ProtocolRefinesOneBit(ls[..n], ls[n], s);
      LiveIsNotOver(ls[..n], s);
    } else {
      NewIsNotNoted(x, ls[n], s);
    }
  }

  // A set bit was set by a wake that no poll has consumed yet.
  lemma {:induction false} NoteHasCause(ls: seq<Label>, n: nat, s: nat) returns (k: nat)
    requires n <= |ls| && Noted(After(Init, ls[..n]), s)
    ensures k < n && WakesAt(ls, k, s) && forall j | k < j < n :: !BeginsAt(ls, j, s)
    decreases n
  {
    hide Step, Noted, WakesAt, BeginsAt;
    k := 0;
    if n == 0 {
      NothingNotedAtFirst(ls, s);
    } else {
      NoteStep(ls, n - 1, s);
      if WakesAt(ls, n - 1, s) {
        k := n - 1;
      } else {
        k := NoteHasCause(ls, n - 1, s);
      }
    }
  }

  lemma NothingNotedAtFirst(ls: seq<Label>, s: nat)
    ensures !Noted(After(Init, ls[..0]), s)
  {}

  // Each poll consumes a wake of its own: one made since the previous poll of that task began.
  lemma PollConsumesWake(ls: seq<Label>, i: nat, s: nat) returns (k: nat)
    requires i < |ls| && BeginsAt(ls, i, s)
    ensures k < i && WakesAt(ls, k, s) && forall j | k < j < i :: !BeginsAt(ls, j, s)
  {
    hide After;
    TokensAreConserved(ls[..i]);
    k := NoteHasCause(ls, i, s);
  }

  // No wake is lost: until a new poll begins or the task ends, the bit stays set, and it stands
  // for a token on its way or for a running poll that will enqueue when it ends.
  lemma {:induction false} WakeIsNotLost(ls: seq<Label>, k: nat, n: nat, s: nat)
    requires k < n <= |ls| && WakesAt(ls, k, s)
    requires forall j | k < j < n :: !BeginsAt(ls, j, s) && !EndsAt(ls, j, s)
    ensures var x := After(Init, ls[..n]);
      && Noted(x, s) && Live(x, s)
      && (Tokens(x, x.scheds[s].id) == 1 || (x.scheds[s].state == Running(true) && x.exec == Polling(s)))
    decreases n
  {
    hide Step, After, WakesAt, BeginsAt, EndsAt;
    if k < n - 1 {
      WakeIsNotLost(ls, k, n - 1, s);
    }
    NoteStep(ls, n - 1, s);
    TokensAreConserved(ls[..n]);
    NotedMeans(After(Init, ls[..n]), s);
  }

  lemma NotedMeans(x: Sys, s: nat)
    requires Sound(x) && Noted(x, s)
    ensures Live(x, s) && (Tokens(x, x.scheds[s].id) == 1
        || (x.scheds[s].state == Running(true) && x.exec == Polling(s)))
  {
    assert Tokens(x, x.scheds[s].id) == if Queued(x, x.scheds[s].id) then 1 else 0;
  }

  // A schedule whose task is over stays over: no wake of it ever puts a token anywhere, even if
  // its id is in use again.
  lemma {:induction false} OverIsFinal(ls: seq<Label>, more: seq<Label>, s: nat)
    requires s < |After(Init, ls).scheds| && !Live(After(Init, ls), s)
    ensures var x := After(Init, ls + more);
      && s < |x.scheds| && !Live(x, s) && s !in x.unsent
      && Step(x, WakeLock(s)).unsent == x.unsent && Step(x, WakeLock(s)).channel == x.channel
    decreases |more|
  {
    if more == [] {
      assert ls + more == ls;
    } else {
      var init, last := more[..|more| - 1], more[|more| - 1];
      assert (ls + more)[..|ls + more| - 1] == ls + init;
      OverIsFinal(ls, init, s);
      TokensAreConserved(ls + init);
      StaysOver(After(Init, ls + init), last, s);
    }
    TokensAreConserved(ls + more);
  }

  lemma StaysOver(x: Sys, l: Label, s: nat)
    requires Sound(x) && s < |x.scheds| && !Live(x, s)
    ensures s < |Step(x, l).scheds| && !Live(Step(x, l), s)
  {
    hide TokensOk;
    match l
    case NewSchedule(_) =>
    case WakeLock(_) =>
    case WakeSend(_) =>
    case Recv =>
    case Begin =>
    case Finish(_) =>
    case FinishSend =>
    case Unwind =>
  }

  /* ---- Bounded response ---- */

  // A receive that takes something out.
  predicate ReceivesAt(ls: seq<Label>, i: nat)
    requires i < |ls|
  {
    var x := After(Init, ls[..i]);
    ls[i].Recv? && x.exec.Waiting? && x.channel != []
  }

  function Receipts(ls: seq<Label>, n: nat, m: nat): nat
    requires n <= m <= |ls|
    decreases m
  {
    if m == n then 0 else Receipts(ls, n, m - 1) + if ReceivesAt(ls, m - 1) then 1 else 0
  }

  // `r` receives after it was at place `j`, the id of `s` has moved up by `r` places, or is in
  // the executor's hand.
  ghost predicate Approaches(x: Sys, s: nat, j: nat, r: nat) {
    && Live(x, s)
    && if r <= j then j - r < |x.channel| && x.channel[j - r] == x.scheds[s].id
       else r == j + 1 && Serves(x, s)
  }

  // Nobody but the executor ends a task, and only while it polls it.
  lemma LivesOn(x: Sys, l: Label, s: nat)
    requires LiveOk(x) && Live(x, s) && x.exec != Polling(s)
    ensures Live(Step(x, l), s) && Step(x, l).scheds[s].id == x.scheds[s].id
  {}

  lemma HandMoves(x: Sys, l: Label, s: nat, j: nat, r: nat)
    requires LiveOk(x) && Live(x, s) && r <= j && j - r < |x.channel| && x.channel[j - r] == x.scheds[s].id
    ensures var y, received := Step(x, l), l.Recv? && x.exec.Waiting? && x.channel != [];
      if received then
        (if r == j then y.exec == InHand(x.scheds[s].id)
         else j - (r + 1) < |y.channel| && y.channel[j - (r + 1)] == x.scheds[s].id)
      else j - r < |y.channel| && y.channel[j - r] == x.scheds[s].id
  {}

  lemma HandStays(x: Sys, l: Label)
    requires x.exec.InHand? && !l.Begin?
    ensures Step(x, l).exec == x.exec
  {}

  lemma ApproachStep(x: Sys, l: Label, s: nat, j: nat, r: nat)
    requires Sound(x) && Approaches(x, s, j, r) && !(l.Begin? && Serves(x, s))
    ensures var received := l.Recv? && x.exec.Waiting? && x.channel != [];
      Approaches(Step(x, l), s, j, if received then r + 1 else r)
  {
    hide Step, LiveOk, TokensOk, Live;
    if r <= j {
      InChannelIsQueued(x, s);
      HandMoves(x, l, s, j, r);
    } else {
      HandStays(x, l);
    }
    LivesOn(x, l, s);
  }

  lemma InChannelIsQueued(x: Sys, s: nat)
    requires Sound(x) && Live(x, s) && x.scheds[s].id in x.channel
    ensures Queued(x, x.scheds[s].id) && x.exec != Polling(s)
  {
    assert multiset(x.channel)[x.scheds[s].id] >= 1;
    assert Tokens(x, x.scheds[s].id) == if Queued(x, x.scheds[s].id) then 1 else 0;
  }

  lemma {:induction false} Approaching(ls: seq<Label>, n: nat, m: nat, s: nat, j: nat)
    requires n <= m <= |ls| && Approaches(After(Init, ls[..n]), s, j, 0)
    requires forall i | n <= i < m :: !BeginsAt(ls, i, s)
    ensures Approaches(After(Init, ls[..m]), s, j, Receipts(ls, n, m))
    decreases m
  {
    hide Step, After, Approaches, Serves;
    if n < m {
      Approaching(ls, n, m - 1, s, j);
      OneMore(ls, m - 1);
      TokensAreConserved(ls[..m - 1]);
      assert !BeginsAt(ls, m - 1, s);
      ApproachStep(After(Init, ls[..m - 1]), ls[m - 1], s, j, Receipts(ls, n, m - 1));
    }
  }

  // Bounded response: an id at place `j` of the channel is polled before `j + 2` further entries
  // have been received, whatever else is woken, sent and finished in between.
  lemma BoundedResponse(ls: seq<Label>, n: nat, m: nat, s: nat, j: nat)
    requires n <= m <= |ls|
    requires var x := After(Init, ls[..n]); Live(x, s) && j < |x.channel| && x.channel[j] == x.scheds[s].id
    requires Receipts(ls, n, m) >= j + 2
    ensures exists i :: n <= i < m && BeginsAt(ls, i, s)
  {
    hide After, BeginsAt, Receipts;
    if forall i | n <= i < m :: !BeginsAt(ls, i, s) {
      Approaching(ls, n, m, s, j);
    }
  }

  // Hence every wake of a resting task: once its thread has sent, the poll begins before as many
  // entries have been received as were in the channel, and two more.
  lemma SentWakeIsServed(ls: seq<Label>, n: nat, m: nat, s: nat)
    requires n < m <= |ls| && ls[n] == WakeSend(s) && s in After(Init, ls[..n]).unsent
    requires Receipts(ls, n + 1, m) >= |After(Init, ls[..n]).channel| + 2
    ensures exists i :: n < i < m && BeginsAt(ls, i, s)
  {
    hide After, BeginsAt, Receipts;
    var x := After(Init, ls[..n]);
    TokensAreConserved(ls[..n]);
    OneMore(ls, n);
    BoundedResponse(ls, n + 1, m, s, |x.channel|);
  }

  // The same for the executor's own send, which follows a poll during which a wake was noted.
  lemma SentBackIsServed(ls: seq<Label>, n: nat, m: nat, s: nat)
    requires n < m <= |ls| && ls[n] == FinishSend && Live(After(Init, ls[..n]), s)
    requires After(Init, ls[..n]).exec == Sending(After(Init, ls[..n]).scheds[s].id)
    requires Receipts(ls, n + 1, m) >= |After(Init, ls[..n]).channel| + 2
    ensures exists i :: n < i < m && BeginsAt(ls, i, s)
  {
    hide After, BeginsAt, Receipts;
    var x := After(Init, ls[..n]);
    TokensAreConserved(ls[..n]);
    OneMore(ls, n);
    BoundedResponse(ls, n + 1, m, s, |x.channel|);
  }

  // And for a new task, which is woken once by whoever creates it: an id that is not in use gets a
  // schedule of its own, and one lock and one send put it behind everything in the channel.
  lemma NewTaskIsServed(ls: seq<Label>, id: nat, more: seq<Label>)
    requires id !in After(Init, ls).live
    ensures var s := |After(Init, ls).scheds|;
      var all := ls + [NewSchedule(id), WakeLock(s), WakeSend(s)] + more;
      && Live(After(Init, all[..|ls| + 3]), s)
      && After(Init, all[..|ls| + 3]).channel == After(Init, ls).channel + [id]
      && (Receipts(all, |ls| + 3, |all|) >= |After(Init, ls).channel| + 2 ==>
            exists i :: |ls| + 3 <= i < |all| && BeginsAt(all, i, s))
  {
    hide BeginsAt, Receipts;
    var s, n := |After(Init, ls).scheds|, |ls|;
    var all := ls + [NewSchedule(id), WakeLock(s), WakeSend(s)] + more;
    assert all[..n] == ls;
    OneMore(all, n);
    OneMore(all, n + 1);
    OneMore(all, n + 2);
    hide After;
    NewIsBehind(After(Init, ls), id);
    if Receipts(all, n + 3, |all|) >= |After(Init, ls).channel| + 2 {
      assert all[..|all|] == all;
      BoundedResponse(all, n + 3, |all|, s, |After(Init, ls).channel|);
    }
  }

  lemma NewIsBehind(x: Sys, id: nat)
    requires id !in x.live
    ensures var s := |x.scheds|;
      var y := Step(Step(Step(x, NewSchedule(id)), WakeLock(s)), WakeSend(s));
      Live(y, s) && y.scheds[s].id == id && y.channel == x.channel + [id]
  {}
}
