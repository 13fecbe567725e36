// Whole runs of the timer part of the loop: client code sets and cancels
// timers, the drain loop reads the clock and fires what is due.
module TimerRuns {
  import opened Common
  import opened TimerQueue

  datatype Event<T> =
    | Set(who: T, delay: real, at: real)   // Timer::set, `at` is the clock it reads
    | Cancel(who: T)                       // Timer::cancel and ~Timer
    | Check(now: real)                     // one test of the drain loop

  datatype Firing<T> = Firing(who: T, fire: real, at: real)

  predicate Due<T(==)>(q: seq<Entry<T>>, now: real) {
    q != [] && q[0].fire <= now
  }

  function After<T(==)>(q: seq<Entry<T>>, e: Event<T>): seq<Entry<T>> {
    match e
    case Set(x, delay, at) => Arm(q, x, at + delay)
    case Cancel(x) => Remove(q, x)
    case Check(now) => if Due(q, now) then q[1..] else q
  }

  function Fired<T(==)>(q: seq<Entry<T>>, e: Event<T>): seq<Firing<T>> {
    if e.Check? && Due(q, e.now) then [Firing(q[0].who, q[0].fire, e.now)] else []
  }

  function AfterAll<T(==)>(q: seq<Entry<T>>, evs: seq<Event<T>>): seq<Entry<T>>
    decreases evs
  {
    if evs == [] then q else AfterAll(After(q, evs[0]), evs[1..])
  }

  function FiredAll<T(==)>(q: seq<Entry<T>>, evs: seq<Event<T>>): seq<Firing<T>>
    decreases evs
  {
    if evs == [] then [] else Fired(q, evs[0]) + FiredAll(After(q, evs[0]), evs[1..])
  }

  lemma {:induction false} AllConcat<T>(q: seq<Entry<T>>, xs: seq<Event<T>>, ys: seq<Event<T>>)
    ensures AfterAll(q, xs + ys) == AfterAll(AfterAll(q, xs), ys)
    ensures FiredAll(q, xs + ys) == FiredAll(q, xs) + FiredAll(AfterAll(q, xs), ys)
    decreases xs
  {
    if xs == [] {
      assert xs + ys == ys;
    } else {
      assert (xs + ys)[1..] == xs[1..] + ys;
      AllConcat(After(q, xs[0]), xs[1..], ys);
    }
  }

  // ---------- the queue over a run ----------

  ghost predicate Good<T>(q: seq<Entry<T>>) {
    Sorted(q) && NoTimerTwice(q)
  }

  lemma AfterIsGood<T>(q: seq<Entry<T>>, e: Event<T>)
    requires Good(q)
    ensures Good(After(q, e))
  {
    match e {
      case Set(x, delay, at) => ArmIsSafe(q, x, at + delay);
      case Cancel(x) => RemoveKeepsOrder(q, x);
      case Check(_) =>
    }
  }

  lemma {:induction false} RunKeepsQueueGood<T>(q: seq<Entry<T>>, evs: seq<Event<T>>)
    requires Good(q)
    ensures Good(AfterAll(q, evs))
    decreases evs
  {
    if evs != [] {
      AfterIsGood(q, evs[0]);
      RunKeepsQueueGood(After(q, evs[0]), evs[1..]);
    }
  }

  // ---------- whole-run order ----------

  // The clock never goes back and no delay is negative.
  predicate Timely<T(==)>(evs: seq<Event<T>>, clock: real)
    decreases evs
  {
    evs == [] ||
    match evs[0]
    case Set(_, delay, at) => clock <= at && 0.0 <= delay && Timely(evs[1..], at)
    case Cancel(_) => Timely(evs[1..], clock)
    case Check(now) => clock <= now && Timely(evs[1..], now)
  }

  predicate AllFrom<T(==)>(q: seq<Entry<T>>, floor: real) {
    forall i :: 0 <= i < |q| ==> floor <= q[i].fire
  }

  ghost predicate InOrder<T>(fs: seq<Firing<T>>, floor: real) {
    && (forall i, j :: 0 <= i < j < |fs| ==> fs[i].fire <= fs[j].fire)
    && (forall i :: 0 <= i < |fs| ==> floor <= fs[i].fire <= fs[i].at)
  }

  lemma MemberFloor<T>(q: seq<Entry<T>>, d: Entry<T>, floor: real)
    requires AllFrom(q, floor) && d in q
    ensures floor <= d.fire
  {
    var k :| 0 <= k < |q| && q[k] == d;
  }

  lemma ArmKeepsFloor<T>(q: seq<Entry<T>>, x: T, fire: real, floor: real)
    requires AllFrom(q, floor) && floor <= fire
    ensures AllFrom(Arm(q, x, fire), floor)
  {
    var r := Arm(q, x, fire);
    forall i | 0 <= i < |r|
      ensures floor <= r[i].fire
    {
      ArmMembers(q, x, fire, r[i]);
      if r[i] in q { MemberFloor(q, r[i], floor); }
    }
  }

  lemma RemoveKeepsFloor<T>(q: seq<Entry<T>>, x: T, floor: real)
    requires AllFrom(q, floor)
    ensures AllFrom(Remove(q, x), floor)
  {
    var r := Remove(q, x);
    forall i | 0 <= i < |r|
      ensures floor <= r[i].fire
    {
      RemoveMembers(q, x, r[i]);
    }
  }

  // Over any run the fire times of the timers fired form a nondecreasing
  // sequence, and no timer fires before its time.
  lemma {:induction false} FiringsAscend<T>(q: seq<Entry<T>>, evs: seq<Event<T>>, clock: real, floor: real)
    requires Good(q) && AllFrom(q, floor) && floor <= clock && Timely(evs, clock)
    ensures InOrder(FiredAll(q, evs), floor)
    decreases evs
  {
    if evs != [] {
      var e, r := evs[0], After(q, evs[0]);
      AfterIsGood(q, e);
      match e {
        case Set(_, _, at) =>
          ArmKeepsFloor(q, e.who, at + e.delay, floor);
          FiringsAscend(r, evs[1..], at, floor);
        case Cancel(_) =>
          RemoveKeepsFloor(q, e.who, floor);
          FiringsAscend(r, evs[1..], clock, floor);
        case Check(now) =>
          var floor' := if Due(q, now) then q[0].fire else floor;
          assert AllFrom(r, floor');
          FiringsAscend(r, evs[1..], now, floor');
      }
    }
  }

  // ---------- a timer that is not set does not fire ----------

  predicate NeverSet<T(==)>(evs: seq<Event<T>>, x: T) {
    forall i :: 0 <= i < |evs| && evs[i].Set? ==> evs[i].who != x
  }

  lemma AfterKeepsUnqueued<T>(q: seq<Entry<T>>, e: Event<T>, x: T)
    requires Good(q) && !Queued(q, x) && (e.Set? ==> e.who != x)
    ensures !Queued(After(q, e), x)
  {
    var r := After(q, e);
    forall i | 0 <= i < |r|
      ensures r[i].who != x
    {
      assert r[i] in r;
      if e.Set? { ArmMembers(q, e.who, e.at + e.delay, r[i]); }
      if e.Cancel? { RemoveMembers(q, e.who, r[i]); }
      assert r[i] in q || r[i].who != x;
    }
  }

  lemma {:induction false} UnqueuedStaysQuiet<T>(q: seq<Entry<T>>, evs: seq<Event<T>>, x: T)
    requires Good(q) && !Queued(q, x) && NeverSet(evs, x)
    ensures forall i :: 0 <= i < |FiredAll(q, evs)| ==> FiredAll(q, evs)[i].who != x
    decreases evs
  {
    if evs != [] {
      AfterIsGood(q, evs[0]);
      AfterKeepsUnqueued(q, evs[0], x);
      assert forall i :: 0 <= i < |evs[1..]| ==> evs[1..][i] == evs[i + 1];
      UnqueuedStaysQuiet(After(q, evs[0]), evs[1..], x);
    }
  }

  // A cancelled or destroyed timer never fires unless it is set again.
  lemma CancelledNeverFires<T>(q: seq<Entry<T>>, evs: seq<Event<T>>, x: T)
    requires Good(q) && NeverSet(evs, x)
    ensures forall i :: 0 <= i < |FiredAll(q, [Cancel(x)] + evs)| ==> FiredAll(q, [Cancel(x)] + evs)[i].who != x
  {
    RemoveKeepsOrder(q, x);
    UnqueuedStaysQuiet(Remove(q, x), evs, x);
    assert ([Cancel(x)] + evs)[1..] == evs;
  }

  // ---------- the reference: a set of armed timers ----------

  // An armed timer: its fire time and the number of the set() that armed it.
  datatype Armed = Armed(fire: real, serial: nat)

  // The armed timers, and how many set() calls there have been.
  datatype Bench<T> = Bench(armed: map<T, Armed>, sets: nat)

  // The earliest fire time wins, and the latest set() among equal ones.
  predicate Before(a: Armed, b: Armed) {
    a.fire < b.fire || (a.fire == b.fire && a.serial > b.serial)
  }

  ghost predicate First<T>(b: Bench<T>, x: T) {
    x in b.armed && forall y | y in b.armed && y != x :: Before(b.armed[x], b.armed[y])
  }

  ghost predicate Fires<T>(b: Bench<T>, x: T, now: real) {
    First(b, x) && b.armed[x].fire <= now
  }

  // The timer a due check fires, if any.
  ghost function Pick<T>(b: Bench<T>, now: real): (p: Option<T>)
    ensures p.Some? ==> p.value in b.armed && Fires(b, p.value, now)
    ensures p.None? ==> forall x | x in b.armed :: !Fires(b, x, now)
  {
    if exists x | x in b.armed :: Fires(b, x, now) then
      var x :| x in b.armed && Fires(b, x, now);
      Some(x)
    else None
  }

  ghost function BenchAfter<T>(b: Bench<T>, e: Event<T>): Bench<T> {
    match e
    case Set(x, delay, at) => Bench(b.armed[x := Armed(at + delay, b.sets)], b.sets + 1)
    case Cancel(x) => Bench(b.armed - {x}, b.sets)
    case Check(now) =>
      var p := Pick(b, now);
      if p.Some? then Bench(b.armed - {p.value}, b.sets) else b
  }

  // What fires, with the number of the set() it answers.
  ghost function BenchFired<T>(b: Bench<T>, e: Event<T>): seq<(Firing<T>, nat)> {
    if e.Check? && Pick(b, e.now).Some? then
      var x := Pick(b, e.now).value;
      [(Firing(x, b.armed[x].fire, e.now), b.armed[x].serial)]
    else []
  }

  ghost function BenchFiredAll<T>(b: Bench<T>, evs: seq<Event<T>>): seq<(Firing<T>, nat)>
    decreases evs
  {
    if evs == [] then [] else BenchFired(b, evs[0]) + BenchFiredAll(BenchAfter(b, evs[0]), evs[1..])
  }

  // The queue lists the armed timers, first to fire first.
  ghost predicate Lists<T>(q: seq<Entry<T>>, b: Bench<T>) {
    && (forall i :: 0 <= i < |q| ==> q[i].who in b.armed && b.armed[q[i].who].fire == q[i].fire)
    && (forall x | x in b.armed :: Queued(q, x))
    && (forall i, j :: 0 <= i < j < |q| ==> Before(b.armed[q[i].who], b.armed[q[j].who]))
    && (forall x | x in b.armed :: b.armed[x].serial < b.sets)
  }

  lemma ListsIsGood<T>(q: seq<Entry<T>>, b: Bench<T>)
    requires Lists(q, b)
    ensures Good(q)
  {
  }

  lemma HeadIsFirst<T>(q: seq<Entry<T>>, b: Bench<T>, x: T)
    requires Lists(q, b)
    ensures First(b, x) <==> q != [] && q[0].who == x
  {
    if q != [] {
      var h := q[0].who;
      forall y | y in b.armed && y != h
        ensures Before(b.armed[h], b.armed[y])
      {
        var j :| 0 <= j < |q| && q[j].who == y;
      }
    }
  }

  lemma TailLists<T>(q: seq<Entry<T>>, b: Bench<T>)
    requires Lists(q, b) && q != []
    ensures Lists(q[1..], Bench(b.armed - {q[0].who}, b.sets))
  {
    var t := q[1..];
    assert forall i :: 0 <= i < |t| ==> t[i] == q[i + 1];
    ListsIsGood(q, b);
    forall y | y in b.armed - {q[0].who}
      ensures Queued(t, y)
    {
      var j :| 0 <= j < |q| && q[j].who == y;
      assert t[j - 1].who == y;
    }
  }

  lemma ConsLists<T>(h: Entry<T>, serial: nat, t: seq<Entry<T>>, b: Bench<T>, sets: nat)
    requires Lists(t, b) && h.who !in b.armed && serial < sets && b.sets <= sets
    requires forall y | y in b.armed :: Before(Armed(h.fire, serial), b.armed[y])
    ensures Lists([h] + t, Bench(b.armed[h.who := Armed(h.fire, serial)], sets))
  {
    var r, c := [h] + t, Bench(b.armed[h.who := Armed(h.fire, serial)], sets);
    assert forall i :: 0 < i < |r| ==> r[i] == t[i - 1];
    forall y | y in c.armed
      ensures Queued(r, y)
    {
      if y == h.who {
        assert r[0].who == y;
      } else {
        var k :| 0 <= k < |t| && t[k].who == y;
        assert r[k + 1].who == y;
      }
    }
  }

  lemma PickIsHead<T>(q: seq<Entry<T>>, b: Bench<T>, now: real)
    requires Lists(q, b)
    ensures Pick(b, now) == if Due(q, now) then Some(q[0].who) else None
  {
    if q != [] {
      HeadIsFirst(q, b, q[0].who);
    }
    if Pick(b, now).Some? {
      HeadIsFirst(q, b, Pick(b, now).value);
    }
  }

  lemma {:induction false} RemoveKeepsLists<T>(q: seq<Entry<T>>, b: Bench<T>, x: T)
    requires Lists(q, b)
    ensures Lists(Remove(q, x), Bench(b.armed - {x}, b.sets))
    decreases q
  {
    if q != [] {
      var h := q[0].who;
      var b1 := Bench(b.armed - {h}, b.sets);
      TailLists(q, b);
      RemoveKeepsLists(q[1..], b1, x);
      if h == x {
        assert b1.armed - {x} == b.armed - {x};
      } else {
        HeadIsFirst(q, b, h);
        ConsLists(q[0], b.armed[h].serial, Remove(q[1..], x), Bench(b1.armed - {x}, b.sets), b.sets);
        assert (b1.armed - {x})[h := b.armed[h]] == b.armed - {x};
      }
    } else {
      assert b.armed - {x} == b.armed;
    }
  }

  lemma InsertAtHead<T>(q: seq<Entry<T>>, e: Entry<T>)
    ensures Insert(q, e) == if q == [] || q[0].fire >= e.fire then [e] + q else [q[0]] + Insert(q[1..], e)
  {
  }

  lemma InsertFirst<T>(q: seq<Entry<T>>, b: Bench<T>, e: Entry<T>, serial: nat, sets: nat)
    requires Lists(q, b) && e.who !in b.armed && b.sets <= serial < sets
    requires q == [] || q[0].fire >= e.fire
    ensures Lists([e] + q, Bench(b.armed[e.who := Armed(e.fire, serial)], sets))
  {
    forall y | y in b.armed
      ensures Before(Armed(e.fire, serial), b.armed[y])
    {
      HeadIsFirst(q, b, q[0].who);
    }
    ConsLists(e, serial, q, b, sets);
  }

  lemma {:induction false} InsertKeepsLists<T>(q: seq<Entry<T>>, b: Bench<T>, e: Entry<T>, serial: nat, sets: nat)
    requires Lists(q, b) && e.who !in b.armed && b.sets <= serial < sets
    ensures Lists(Insert(q, e), Bench(b.armed[e.who := Armed(e.fire, serial)], sets))
    decreases q
  {
    InsertAtHead(q, e);
    if q == [] || q[0].fire >= e.fire {
      InsertFirst(q, b, e, serial, sets);
    } else {
      var h := q[0].who;
      var b1 := Bench(b.armed - {h}, b.sets);
      TailLists(q, b);
      InsertKeepsLists(q[1..], b1, e, serial, sets);
      var c1 := Bench(b1.armed[e.who := Armed(e.fire, serial)], sets);
      assert c1.armed[h := b.armed[h]] == b.armed[e.who := Armed(e.fire, serial)];
      HeadBeforeRest(q, b, Armed(e.fire, serial), c1.armed);
      ConsLists(q[0], b.armed[h].serial, Insert(q[1..], e), c1, sets);
    }
  }

  lemma HeadBeforeRest<T>(q: seq<Entry<T>>, b: Bench<T>, a: Armed, rest: map<T, Armed>)
    requires Lists(q, b) && q != [] && q[0].fire < a.fire
    requires forall y | y in rest :: rest[y] == a || (y in b.armed && y != q[0].who && rest[y] == b.armed[y])
    ensures forall y | y in rest :: Before(b.armed[q[0].who], rest[y])
  {
    HeadIsFirst(q, b, q[0].who);
  }

  lemma SetKeepsLists<T>(q: seq<Entry<T>>, b: Bench<T>, x: T, fire: real)
    requires Lists(q, b)
    ensures Lists(Arm(q, x, fire), Bench(b.armed[x := Armed(fire, b.sets)], b.sets + 1))
  {
    RemoveKeepsLists(q, b, x);
    InsertKeepsLists(Remove(q, x), Bench(b.armed - {x}, b.sets), Entry(x, fire), b.sets, b.sets + 1);
    assert (b.armed - {x})[x := Armed(fire, b.sets)] == b.armed[x := Armed(fire, b.sets)];
  }

  lemma AfterKeepsLists<T>(q: seq<Entry<T>>, b: Bench<T>, e: Event<T>)
    requires Lists(q, b)
    ensures Lists(After(q, e), BenchAfter(b, e))
  {
    match e {
      case Set(x, delay, at) => SetKeepsLists(q, b, x, at + delay);
      case Cancel(x) => RemoveKeepsLists(q, b, x);
      case Check(now) =>
        PickIsHead(q, b, now);
        if Due(q, now) {
          TailLists(q, b);
        }
    }
  }

  ghost predicate SameFirings<T>(fs: seq<Firing<T>>, gs: seq<(Firing<T>, nat)>) {
    |fs| == |gs| && forall i :: 0 <= i < |fs| ==> fs[i] == gs[i].0
  }

  lemma FiredAgrees<T>(q: seq<Entry<T>>, b: Bench<T>, e: Event<T>)
    requires Lists(q, b)
    ensures SameFirings(Fired(q, e), BenchFired(b, e))
  {
    if e.Check? {
      PickIsHead(q, b, e.now);
    }
  }

  // The queue fires exactly what the set of armed timers would fire: at each
  // due check the earliest armed timer, the latest set one among equals.
  lemma {:induction false} QueueRefinesBench<T>(q: seq<Entry<T>>, b: Bench<T>, evs: seq<Event<T>>)
    requires Lists(q, b)
    ensures SameFirings(FiredAll(q, evs), BenchFiredAll(b, evs))
    decreases evs
  {
    if evs != [] {
      FiredAgrees(q, b, evs[0]);
      AfterKeepsLists(q, b, evs[0]);
      QueueRefinesBench(After(q, evs[0]), BenchAfter(b, evs[0]), evs[1..]);
    }
  }

  // ---------- each set() fires at most once ----------

  ghost predicate Accounted<T>(b: Bench<T>) {
    && (forall x | x in b.armed :: b.armed[x].serial < b.sets)
    && (forall x, y | x in b.armed && y in b.armed && x != y :: b.armed[x].serial != b.armed[y].serial)
  }

  // The set() call is armed now or has not been made yet.
  ghost predicate Answerable<T>(b: Bench<T>, serial: nat) {
    serial >= b.sets || exists x | x in b.armed :: b.armed[x].serial == serial
  }

  lemma AnswerableBefore<T>(b: Bench<T>, e: Event<T>, serial: nat)
    requires Accounted(b) && Answerable(BenchAfter(b, e), serial)
    ensures Accounted(BenchAfter(b, e)) && Answerable(b, serial)
    ensures forall i :: 0 <= i < |BenchFired(b, e)| ==> BenchFired(b, e)[i].1 != serial
  {
    var b' := BenchAfter(b, e);
    if serial < b'.sets {
      var x :| x in b'.armed && b'.armed[x].serial == serial;
      assert serial == b.sets || (x in b.armed && b.armed[x] == b'.armed[x]);
    }
  }

  lemma AccountedAfter<T>(b: Bench<T>, e: Event<T>)
    requires Accounted(b)
    ensures Accounted(BenchAfter(b, e))
  {
  }

  ghost predicate OneEach<T>(b: Bench<T>, fs: seq<(Firing<T>, nat)>) {
    && (forall i, j :: 0 <= i < j < |fs| ==> fs[i].1 != fs[j].1)
    && (forall i :: 0 <= i < |fs| ==> Answerable(b, fs[i].1))
  }

  // Whatever fires answers a set() that is armed or still to come, and no two
  // firings answer the same set().
  lemma {:induction false} SetFiresOnce<T>(b: Bench<T>, evs: seq<Event<T>>)
    requires Accounted(b)
    ensures OneEach(b, BenchFiredAll(b, evs))
    decreases evs
  {
    if evs != [] {
      var b' := BenchAfter(b, evs[0]);
      var now, rest := BenchFired(b, evs[0]), BenchFiredAll(b', evs[1..]);
      AccountedAfter(b, evs[0]);
      SetFiresOnce(b', evs[1..]);
      forall i | 0 <= i < |rest|
        ensures Answerable(b, rest[i].1)
        ensures forall k :: 0 <= k < |now| ==> now[k].1 != rest[i].1
      {
        AnswerableBefore(b, evs[0], rest[i].1);
      }
      assert BenchFiredAll(b, evs) == now + rest;
    }
  }
}
