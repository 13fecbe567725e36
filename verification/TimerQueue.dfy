// The ordered timer queue of RunLoop on values: each entry is a timer together
// with the fire time it was queued under.
module TimerQueue {

  datatype Entry<T> = Entry(who: T, fire: real)

  predicate Sorted<T>(q: seq<Entry<T>>) {
    forall i, j :: 0 <= i < j < |q| ==> q[i].fire <= q[j].fire
  }

  predicate Queued<T(==)>(q: seq<Entry<T>>, x: T) {
    exists i :: 0 <= i < |q| && q[i].who == x
  }

  // More than having no duplicates: entries of one timer with different fire
  // times count as well.
  ghost predicate NoTimerTwice<T>(q: seq<Entry<T>>) {
    forall i, j :: 0 <= i < j < |q| ==> q[i].who != q[j].who
  }

  // std::lower_bound: the first position whose fire time is not below x.
  function LowerBound<T>(q: seq<Entry<T>>, x: real): (k: nat)
    ensures k <= |q|
    ensures forall i :: 0 <= i < k ==> q[i].fire < x
    ensures k < |q| ==> q[k].fire >= x
  {
    if q == [] || q[0].fire >= x then 0 else 1 + LowerBound(q[1..], x)
  }

  function Insert<T>(q: seq<Entry<T>>, e: Entry<T>): seq<Entry<T>> {
    var k := LowerBound(q, e.fire);
    q[..k] + [e] + q[k..]
  }

  // std::remove and erase.
  function Remove<T(==)>(q: seq<Entry<T>>, x: T): (r: seq<Entry<T>>)
    ensures |r| <= |q|
  {
    if q == [] then []
    else if q[0].who == x then Remove(q[1..], x)
    else [q[0]] + Remove(q[1..], x)
  }

  // Timer::set: cancel, then insert under the new fire time.
  function Arm<T(==)>(q: seq<Entry<T>>, x: T, fire: real): seq<Entry<T>> {
    Insert(Remove(q, x), Entry(x, fire))
  }

  lemma {:induction false} RemoveMembers<T>(q: seq<Entry<T>>, x: T, e: Entry<T>)
    ensures e in Remove(q, x) <==> e in q && e.who != x
  {
    if q != [] {
      RemoveMembers(q[1..], x, e);
    }
  }

  lemma {:induction false} RemoveKeepsOrder<T>(q: seq<Entry<T>>, x: T)
    requires Sorted(q) && NoTimerTwice(q)
    ensures Sorted(Remove(q, x)) && NoTimerTwice(Remove(q, x)) && !Queued(Remove(q, x), x)
  {
    if q != [] {
      var r := Remove(q[1..], x);
      RemoveKeepsOrder(q[1..], x);
      forall i | 0 <= i < |r|
        ensures q[0].fire <= r[i].fire && q[0].who != r[i].who
      {
        RemoveMembers(q[1..], x, r[i]);
        var k :| 0 <= k < |q[1..]| && q[1..][k] == r[i];
        assert q[k + 1] == r[i];
      }
    }
  }

  lemma {:induction false} RemoveAbsent<T>(q: seq<Entry<T>>, x: T)
    requires !Queued(q, x)
    ensures Remove(q, x) == q
  {
    if q != [] {
      assert q[0].who != x;
      assert forall i :: 0 <= i < |q[1..]| ==> q[1..][i] == q[i + 1];
      RemoveAbsent(q[1..], x);
    }
  }

  lemma InsertMembers<T>(q: seq<Entry<T>>, e: Entry<T>, d: Entry<T>)
    ensures d in Insert(q, e) <==> d in q || d == e
  {
    var k := LowerBound(q, e.fire);
    assert q == q[..k] + q[k..];
  }

  lemma InsertKeepsOrder<T>(q: seq<Entry<T>>, e: Entry<T>)
    requires Sorted(q) && NoTimerTwice(q) && !Queued(q, e.who)
    ensures Sorted(Insert(q, e)) && NoTimerTwice(Insert(q, e))
  {
    var k := LowerBound(q, e.fire);
    var r := Insert(q, e);
    assert forall i :: k <= i < |q| ==> q[i].fire >= e.fire;
    assert forall i :: 0 <= i < |r| ==> r[i] == if i < k then q[i] else if i == k then e else q[i - 1];
  }

  // Re-arming changes nothing but the entry of the timer that is set ...
  lemma ArmMembers<T>(q: seq<Entry<T>>, x: T, fire: real, d: Entry<T>)
    ensures d in Arm(q, x, fire) <==> (d in q && d.who != x) || d == Entry(x, fire)
  {
    InsertMembers(Remove(q, x), Entry(x, fire), d);
    RemoveMembers(q, x, d);
  }

  // ... and keeps the queue sorted and free of duplicates.
  lemma ArmIsSafe<T>(q: seq<Entry<T>>, x: T, fire: real)
    requires Sorted(q) && NoTimerTwice(q)
    ensures Sorted(Arm(q, x, fire)) && NoTimerTwice(Arm(q, x, fire))
  {
    RemoveKeepsOrder(q, x);
    InsertKeepsOrder(Remove(q, x), Entry(x, fire));
  }
}
