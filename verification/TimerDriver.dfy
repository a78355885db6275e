/** The timer driver: a heap that may hold stale and duplicate entries, and the registrations
    that say which entries count. Handle and driver share this state and the clock. */
module TimerDrivers {
  import opened Wrappers
  import opened TimerSpec
  import opened Clocks
  import opened ExecutorSpec

  type Entry = (int, nat)

  predicate EntryBefore(a: Entry, b: Entry) {
    Before(a.0, a.1, b.0, b.1)
  }

  ghost predicate IsLeast(heap: multiset<Entry>, e: Entry) {
    e in heap && forall x | x in heap :: x == e || EntryBefore(e, x)
  }

  lemma LeastExists(heap: multiset<Entry>)
    requires heap != multiset{}
    ensures exists e :: IsLeast(heap, e)
    decreases |heap|
  {
    var k :| k in heap;
    var rest := heap[k := 0];
    assert forall x | x in heap :: x == k || x in rest;
    if rest == multiset{} {
      assert IsLeast(heap, k);
    } else {
      assert |rest| < |heap|;
      LeastExists(rest);
      var e :| IsLeast(rest, e);
      if EntryBefore(k, e) {
        assert IsLeast(heap, k);
      } else {
        assert IsLeast(heap, e);
      }
    }
  }

  // The entry of every live registration is in the heap, so the least entry, once it is
  // current, is the earliest registration.
  lemma CurrentLeastIsEarliest(heap: multiset<Entry>, m: Registrations, e: Entry)
    requires IsLeast(heap, e) && Covers(heap, m)
    requires e.1 in m && m[e.1].deadline == e.0
    ensures IsEarliest(m, e.1) && Earliest(m) == e.1
  {
    forall j | j in m && j != e.1 ensures Before(m[e.1].deadline, e.1, m[j].deadline, j) {
      assert (m[j].deadline, j) in heap;
    }
    EarliestIsUnique(m, e.1, Earliest(m));
  }

  // The wakers of the expired registrations, one expiry at a time.
  ghost function DueWakers(m: Registrations, now: int): seq<nat>
    decreases |m|
  {
    if m == map[] || m[Earliest(m)].deadline > now then
      []
    else
      var e := Earliest(m);
      assert (m - {e}).Keys == m.Keys - {e};
      [m[e].waker] + DueWakers(m - {e}, now)
  }

  lemma {:induction false} DueWakersAreWakers(m: Registrations, now: int)
    ensures DueWakers(m, now) == Wakers(m, Due(m, now))
    decreases |m|
  {
    if m != map[] && m[Earliest(m)].deadline <= now {
      var e := Earliest(m);
      var rest := m - {e};
      assert rest.Keys == m.Keys - {e};
      DueWakersAreWakers(rest, now);
    }
  }

  // Every live registration has its entry.
  ghost predicate Covers(heap: multiset<Entry>, m: Registrations) {
    forall id | id in m :: (m[id].deadline, id) in heap
  }

  lemma CoversNonEmpty(heap: multiset<Entry>, m: Registrations)
    requires Covers(heap, m)
    ensures m != map[] ==> heap != multiset{}
  {
    if m != map[] {
      var id :| id in m;
      assert (m[id].deadline, id) in heap;
    }
  }

  // Popping the least entry: a current one takes its registration along, a stale one is only dropped.
  lemma PopCurrent(heap: multiset<Entry>, m: Registrations, e: Entry, now: int)
    requires IsLeast(heap, e) && Covers(heap, m) && e.0 <= now
    requires e.1 in m && m[e.1].deadline == e.0
    ensures Covers(heap - multiset{e}, m - {e.1})
    ensures DueWakers(m, now) == [m[e.1].waker] + DueWakers(m - {e.1}, now)
    ensures Remaining(m - {e.1}, now) == Remaining(m, now)
  {
    CurrentLeastIsEarliest(heap, m, e);
  }

  lemma PopStale(heap: multiset<Entry>, m: Registrations, e: Entry)
    requires Covers(heap, m) && !(e.1 in m && m[e.1].deadline == e.0)
    ensures Covers(heap - multiset{e}, m)
  {}

  lemma NothingDueLeft(heap: multiset<Entry>, m: Registrations, top: Option<Entry>, now: int)
    requires Covers(heap, m)
    requires top.None? ==> heap == multiset{}
    requires top.Some? ==> IsLeast(heap, top.value) && top.value.0 > now
    ensures Remaining(m, now) == m && DueWakers(m, now) == []
  {
    forall id | id in m ensures m[id].deadline > now {
      assert (m[id].deadline, id) in heap;
    }
    AllRemain(m, now);
  }

  lemma AppendOne(a: seq<nat>, x: nat, b: seq<nat>)
    ensures (a + [x]) + b == a + ([x] + b)
  {}

  /* ---- What the holder of a handle may do ---- */

  datatype Use =
    | Registering(deadline: int, waker: nat)
    | Updating(id: nat, waker: nat)
    | Cancelling(id: nat)
    | Rescheduling(id: nat, deadline: int)

  // The registrations and the id counter after one use; a use that would panic changes only
  // the counter.
  function Used(m: Registrations, next: nat, u: Use): (Registrations, nat) {
    match u
    case Registering(deadline, waker) => (if next in m then m else m[next := Registration(deadline, waker)],
        WrappingSucc(next))
    case Updating(id, waker) => (if id in m then m[id := m[id].(waker := waker)] else m, next)
    case Cancelling(id) => (m - {id}, next)
    case Rescheduling(id, deadline) => (if id in m then m[id := m[id].(deadline := deadline)] else m, next)
  }

  function UsedAll(m: Registrations, next: nat, us: seq<Use>): (Registrations, nat)
    decreases |us|
  {
    if us == [] then (m, next) else var (m1, next1) := Used(m, next, us[0]); UsedAll(m1, next1, us[1..])
  }

  // None of the uses concerns the id `r`.
  predicate Spares(m: Registrations, next: nat, us: seq<Use>, r: nat)
    decreases |us|
  {
    us == [] ||
    (&& (if us[0].Registering? then next != r else us[0].id != r)
     && var (m1, next1) := Used(m, next, us[0]); Spares(m1, next1, us[1..], r))
  }

  lemma {:induction false} SparedStays(m: Registrations, next: nat, us: seq<Use>, r: nat)
    requires Spares(m, next, us, r)
    ensures var m1 := UsedAll(m, next, us).0;
      (r in m1 <==> r in m) && (r in m ==> m1[r] == m[r])
    decreases |us|
  {
    if us != [] {
      var (m1, next1) := Used(m, next, us[0]);
      SparedStays(m1, next1, us[1..], r);
    }
  }

  class TimerDriver {
    var nextId: nat
    var deadlines: multiset<Entry>
    var registrations: Registrations
    const clock: Clock

    ghost predicate Valid()
      reads this, clock
    {
      && clock.Valid()
      && nextId < U64
      && Covers(deadlines, registrations)
    }

    constructor (clock: Clock)
      requires clock.Valid()
      ensures Valid() && this.clock == clock && registrations == map[] && nextId == 0
    {
      this.clock := clock;
      nextId := 0;
      deadlines := multiset{};
      registrations := map[];
    }

    // `None` stands for the panic "timer id exhausted", which leaves the counter advanced.
    method Register(deadline: int, waker: nat) returns (id: Option<nat>)
      requires Valid()
      modifies this
      ensures Valid() && nextId == WrappingSucc(old(nextId))
      ensures id == if old(nextId) in old(registrations) then None else Some(old(nextId))
      ensures registrations == if id.None? then old(registrations)
          else old(registrations)[old(nextId) := Registration(deadline, waker)]
    {
      var candidate := nextId;
      nextId := WrappingSucc(nextId);
      if candidate in registrations {
        return None;
      }
      deadlines := deadlines + multiset{(deadline, candidate)};
      registrations := registrations[candidate := Registration(deadline, waker)];
      return Some(candidate);
    }

    method UpdateWaker(id: nat, waker: nat)
      requires Valid() && id in registrations
      modifies this
      ensures Valid() && nextId == old(nextId)
      ensures registrations == old(registrations)[id := Registration(old(registrations)[id].deadline, waker)]
    {
      if registrations[id].waker != waker {
        registrations := registrations[id := registrations[id].(waker := waker)];
      }
    }

    // The heap entry stays behind and is ignored when it surfaces.
    method Cancel(id: nat)
      requires Valid()
      modifies this
      ensures Valid() && nextId == old(nextId)
      ensures registrations == old(registrations) - {id}
    {
      registrations := registrations - {id};
    }

    method Reschedule(id: nat, deadline: int) returns (found: bool)
      requires Valid()
      modifies this
      ensures Valid() && nextId == old(nextId)
      ensures found == (id in old(registrations))
      ensures registrations == if found
          then old(registrations)[id := Registration(deadline, old(registrations)[id].waker)] else old(registrations)
    {
      if id !in registrations {
        return false;
      }
      registrations := registrations[id := registrations[id].(deadline := deadline)];
      deadlines := deadlines + multiset{(deadline, id)};
      return true;
    }

    method Perform(u: Use)
      requires Valid()
      modifies this
      ensures Valid() && (registrations, nextId) == Used(old(registrations), old(nextId), u)
    {
      match u
      case Registering(deadline, waker) =>
        var _ := Register(deadline, waker);
      case Updating(id, waker) =>
        if id in registrations {
          UpdateWaker(id, waker);
        }
      case Cancelling(id) => Cancel(id);
      case Rescheduling(id, deadline) =>
        var _ := Reschedule(id, deadline);
    }

    method PerformAll(us: seq<Use>)
      requires Valid()
      modifies this
      ensures Valid() && (registrations, nextId) == UsedAll(old(registrations), old(nextId), us)
    {
      hide Used, Covers;
      var i := 0;
      while i < |us|
        invariant 0 <= i <= |us| && Valid()
        invariant UsedAll(registrations, nextId, us[i..]) == UsedAll(old(registrations), old(nextId), us)
      {
        assert us[i..][0] == us[i] && us[i..][1..] == us[i + 1..];
        Perform(us[i]);
        i := i + 1;
      }
    }

    method Peek() returns (e: Option<Entry>)
      ensures e.None? <==> deadlines == multiset{}
      ensures e.Some? ==> IsLeast(deadlines, e.value)
    {
      if deadlines == multiset{} {
        return None;
      }
      LeastExists(deadlines);
      var least :| least in deadlines && forall x | x in deadlines :: x == least || EntryBefore(least, x);
      return Some(least);
    }

    // Pops the expired entry at the top; only a current entry hands out its waker.
    method PopExpired(top: Entry, ghost now: int) returns (waker: Option<nat>)
      requires Valid() && IsLeast(deadlines, top) && top.0 <= now
      modifies this
      ensures Valid() && nextId == old(nextId) && |deadlines| < old(|deadlines|)
      ensures Remaining(registrations, now) == Remaining(old(registrations), now)
      ensures DueWakers(old(registrations), now)
           == (if waker.Some? then [waker.value] else []) + DueWakers(registrations, now)
    {
      ghost var heap, before := deadlines, registrations;
      deadlines := deadlines - multiset{top};
      var (deadline, id) := top;
      if id in registrations && registrations[id].deadline == deadline {
        PopCurrent(heap, before, top, now);
        waker := Some(registrations[id].waker);
        registrations := registrations - {id};
      } else {
        PopStale(heap, before, top);
        waker := None;
      }
    }

    // Returns the wakers to call: those of the expired registrations, in expiry order.
    method ProcessExpired() returns (wakers: seq<nat>)
      requires Valid()
      modifies this
      ensures Valid() && nextId == old(nextId)
      ensures registrations == Remaining(old(registrations), clock.Now())
      ensures wakers == Wakers(old(registrations), Due(old(registrations), clock.Now()))
    {
      hide DueWakers, Remaining, Wakers, Due, IsLeast, Covers;
      wakers := [];
      var now := clock.Now();
      ghost var before := registrations;
      var top := Peek();
      while top.Some? && top.value.0 <= now
        invariant Valid() && nextId == old(nextId)
        invariant top.None? <==> deadlines == multiset{}
        invariant top.Some? ==> IsLeast(deadlines, top.value)
        invariant wakers + DueWakers(registrations, now) == DueWakers(before, now)
        invariant Remaining(registrations, now) == Remaining(before, now)
        decreases |deadlines|
      {
        ghost var middle := registrations;
        var waker := PopExpired(top.value, now);
        if waker.Some? {
          AppendOne(wakers, waker.value, DueWakers(registrations, now));
          wakers := wakers + [waker.value];
        } else {
          assert DueWakers(middle, now) == DueWakers(registrations, now);
        }
        top := Peek();
      }
      NothingDueLeft(deadlines, registrations, top, now);
      DueWakersAreWakers(before, now);
    }

    // Pops stale entries only; the registrations do not change.
    method PeekDeadline() returns (deadline: Option<int>)
      requires Valid()
      modifies this`deadlines
      ensures Valid()
      ensures deadline == NextDeadline(registrations)
    {
      var top := Peek();
      while top.Some?
        invariant Valid()
        invariant top.None? <==> deadlines == multiset{}
        invariant top.Some? ==> IsLeast(deadlines, top.value)
        decreases |deadlines|
      {
        var (d, id) := top.value;
        if id in registrations && registrations[id].deadline == d {
          CurrentLeastIsEarliest(deadlines, registrations, top.value);
          return Some(d);
        }
        PopStale(deadlines, registrations, top.value);
        deadlines := deadlines - multiset{top.value};
        top := Peek();
      }
      CoversNonEmpty(deadlines, registrations);
      return None;
    }

    // The saturating distance to the earliest live deadline.
    method TimeUntilNextDeadline() returns (timeout: Option<nat>)
      requires Valid()
      modifies this`deadlines
      ensures Valid()
      ensures timeout == match NextDeadline(registrations)
                         case None => None
                         case Some(d) => Some(Max(0, d - clock.Now()))
    {
      var deadline := PeekDeadline();
      match deadline
      case None => return None;
      case Some(d) => return Some(Max(0, d - clock.Now()));
    }

    method AdvanceToNextDeadlineIfPaused() returns (moved: bool)
      requires Valid() && NoneDue(registrations, clock.Now())
      modifies this`deadlines, clock
      ensures Valid() && clock.mode.Paused? == old(clock.mode.Paused?)
      ensures moved == (clock.mode.Paused? && registrations != map[])
      ensures clock.Now() == if moved then NextDeadline(registrations).value else old(clock.Now())
      ensures !moved ==> clock.mode == old(clock.mode)
    {
      if !clock.mode.Paused? {
        return false;
      }
      var deadline := PeekDeadline();
      if deadline.None? {
        return false;
      }
      clock.AdvanceTo(deadline.value);
      return true;
    }
  }

  lemma AllRemain(m: Registrations, now: int)
    requires NoneDue(m, now)
    ensures Remaining(m, now) == m && Due(m, now) == []
  {}

  // A second expiry at the same instant finds nothing.
  lemma ExpiryIsIdempotent(m: Registrations, now: int)
    ensures Due(Remaining(m, now), now) == [] && Remaining(Remaining(m, now), now) == Remaining(m, now)
  {
    AllRemain(Remaining(m, now), now);
  }
}
