/** The timer driver seen from outside: a finite map from registration ids to a deadline and
    a waker. The heap of the implementation does not appear here. */
module TimerSpec {

  datatype Registration = Registration(deadline: int, waker: nat)

  type Registrations = map<nat, Registration>

  // The order of heap entries: by deadline, then by id.
  predicate Before(d1: int, id1: nat, d2: int, id2: nat) {
    d1 < d2 || (d1 == d2 && id1 < id2)
  }

  ghost predicate IsEarliest(m: Registrations, id: nat) {
    && id in m
    && forall j | j in m && j != id :: Before(m[id].deadline, id, m[j].deadline, j)
  }

  lemma EarliestExists(m: Registrations)
    requires m != map[]
    ensures exists id :: IsEarliest(m, id)
    decreases |m|
  {
    var k :| k in m;
    var rest := m - {k};
    assert forall j | j in m :: j == k || (j in rest && rest[j] == m[j]);
    if rest == map[] {
      assert IsEarliest(m, k);
    } else {
      assert rest.Keys == m.Keys - {k};
      EarliestExists(rest);
      var e :| IsEarliest(rest, e);
      if Before(m[k].deadline, k, m[e].deadline, e) {
        assert IsEarliest(m, k);
      } else {
        assert IsEarliest(m, e);
      }
    }
  }

  ghost function Earliest(m: Registrations): (id: nat)
    requires m != map[]
    ensures IsEarliest(m, id)
  {
    EarliestExists(m);
    var id :| IsEarliest(m, id);
    id
  }

  lemma EarliestIsUnique(m: Registrations, i: nat, j: nat)
    requires IsEarliest(m, i) && IsEarliest(m, j)
    ensures i == j
  {}

  // The ids whose deadline has passed, in expiry order.
  ghost function Due(m: Registrations, now: int): (ids: seq<nat>)
    ensures forall id :: id in ids ==> id in m
    decreases |m|
  {
    if m == map[] || m[Earliest(m)].deadline > now then
      []
    else
      var e := Earliest(m);
      var rest := m - {e};
      assert rest.Keys == m.Keys - {e};
      [e] + Due(rest, now)
  }

  // The registrations whose deadline is still ahead.
  function Remaining(m: Registrations, now: int): Registrations {
    map id | id in m && m[id].deadline > now :: m[id]
  }

  ghost predicate InExpiryOrder(m: Registrations, ids: seq<nat>)
    requires forall id :: id in ids ==> id in m
  {
    forall i, j | 0 <= i < j < |ids| :: Before(m[ids[i]].deadline, ids[i], m[ids[j]].deadline, ids[j])
  }

  // `Due` lists every expired registration once, earliest first, and nothing else.
  lemma {:induction false} DueIsExact(m: Registrations, now: int)
    ensures forall id :: id in Due(m, now) <==> id in m && m[id].deadline <= now
    ensures InExpiryOrder(m, Due(m, now))
    decreases |m|
  {
    if m != map[] && m[Earliest(m)].deadline <= now {
      var e := Earliest(m);
      var rest := m - {e};
      assert rest.Keys == m.Keys - {e};
      DueIsExact(rest, now);
    }
  }

  // Two lists that agree on their members and are both in expiry order are the same list.
  lemma {:induction false} ExpiryOrderIsUnique(m: Registrations, a: seq<nat>, b: seq<nat>)
    requires forall id :: id in a <==> id in b
    requires forall id :: id in a ==> id in m
    requires InExpiryOrder(m, a) && InExpiryOrder(m, b)
    ensures a == b
  {
    var x := if |a| > 0 then a[0] else if |b| > 0 then b[0] else 0;
    assert x in a <==> x in b;
    if a != [] && b != [] {
      assert a[0] in b && b[0] in a;
      assert a[0] == b[0];
      forall id ensures id in a[1..] <==> id in b[1..] {
        if id in a[1..] { assert id in a; assert id in b; }
        if id in b[1..] { assert id in b; assert id in a; }
      }
      ExpiryOrderIsUnique(m, a[1..], b[1..]);
    }
  }

  lemma EarliestOfUpdate(m: Registrations, now: int)
    requires m != map[]
    ensures (Remaining(m, now) == m) == (m[Earliest(m)].deadline > now)
  {
    var e := Earliest(m);
    if m[e].deadline > now {
      assert forall id | id in m :: m[id].deadline > now;
      assert Remaining(m, now) == m;
    } else {
      assert e !in Remaining(m, now);
    }
  }
}
