// The drain loop of RunLoop::run as a sequence of timer events.
module TimerDrain {
  import opened TimerQueue
  import opened TimerRuns

  // One pass of the drain loop: the clock it reads, and what the callback does
  // if a timer is due.
  datatype Visit<T> = Visit(now: real, ops: seq<Event<T>>)

  predicate ClientOps<T>(ops: seq<Event<T>>) {
    forall i :: 0 <= i < |ops| ==> !ops[i].Check?
  }

  predicate ClientVisits<T>(visits: seq<Visit<T>>) {
    forall i :: 0 <= i < |visits| ==> ClientOps(visits[i].ops)
  }

  // The events of the drain loop until it breaks, empties the queue, or the
  // script of visits ends.
  function DrainEvents<T(==)>(q: seq<Entry<T>>, visits: seq<Visit<T>>): seq<Event<T>>
    decreases visits
  {
    if q == [] || visits == [] then []
    else if visits[0].now < q[0].fire then [Check(visits[0].now)]
    else [Check(visits[0].now)]
         + (visits[0].ops + DrainEvents(AfterAll(q[1..], visits[0].ops), visits[1..]))
  }

  lemma {:induction false} AllFirst<T>(q: seq<Entry<T>>, e: Event<T>, rest: seq<Event<T>>)
    ensures AfterAll(q, [e] + rest) == AfterAll(After(q, e), rest)
    ensures FiredAll(q, [e] + rest) == Fired(q, e) + FiredAll(After(q, e), rest)
  {
    assert ([e] + rest)[1..] == rest;
  }

  lemma {:induction false} OneEvent<T>(q: seq<Entry<T>>, e: Event<T>)
    ensures AfterAll(q, [e]) == After(q, e) && FiredAll(q, [e]) == Fired(q, e)
  {
    AllFirst(q, e, []);
    assert [e] + [] == [e];
  }

  lemma {:induction false} DrainStops<T>(q: seq<Entry<T>>, visits: seq<Visit<T>>)
    requires q != [] && visits != [] && visits[0].now < q[0].fire
    ensures AfterAll(q, DrainEvents(q, visits)) == q && FiredAll(q, DrainEvents(q, visits)) == []
  {
    OneEvent(q, Check(visits[0].now));
  }

  // A check that fires, what the callback does, and whatever comes then.
  lemma {:induction false} VisitEvents<T>(q: seq<Entry<T>>, now: real, ops: seq<Event<T>>, tail: seq<Event<T>>)
    requires q != [] && now >= q[0].fire && ClientOps(ops)
    ensures var r, events := AfterAll(q[1..], ops), [Check(now)] + (ops + tail);
            && AfterAll(q, events) == AfterAll(r, tail)
            && FiredAll(q, events) == [Firing(q[0].who, q[0].fire, now)] + FiredAll(r, tail)
  {
    var e := Check(now);
    assert After(q, e) == q[1..] && Fired(q, e) == [Firing(q[0].who, q[0].fire, now)];
    AllFirst(q, e, ops + tail);
    ClientFiresNothing(q[1..], ops);
    AllConcat(q[1..], ops, tail);
    assert [] + FiredAll(AfterAll(q[1..], ops), tail) == FiredAll(AfterAll(q[1..], ops), tail);
  }

  lemma {:induction false} DrainStep<T>(q: seq<Entry<T>>, visits: seq<Visit<T>>)
    requires q != [] && visits != [] && visits[0].now >= q[0].fire && ClientOps(visits[0].ops)
    ensures var r := AfterAll(q[1..], visits[0].ops);
            && AfterAll(q, DrainEvents(q, visits)) == AfterAll(r, DrainEvents(r, visits[1..]))
            && FiredAll(q, DrainEvents(q, visits))
               == [Firing(q[0].who, q[0].fire, visits[0].now)] + FiredAll(r, DrainEvents(r, visits[1..]))
  {
    var e, ops := Check(visits[0].now), visits[0].ops;
    var r := AfterAll(q[1..], ops);
    var tail := DrainEvents(r, visits[1..]);
    VisitEvents(q, visits[0].now, ops, tail);
    assert DrainEvents(q, visits) == [e] + (ops + tail);
  }

  lemma {:induction false} ClientFiresNothing<T>(q: seq<Entry<T>>, ops: seq<Event<T>>)
    requires ClientOps(ops)
    ensures FiredAll(q, ops) == []
    decreases ops
  {
    if ops != [] {
      assert forall i :: 0 <= i < |ops[1..]| ==> ops[1..][i] == ops[i + 1];
      ClientFiresNothing(After(q, ops[0]), ops[1..]);
    }
  }

  lemma {:induction false} AfterOneMore<T>(q: seq<Entry<T>>, ops: seq<Event<T>>, i: nat)
    requires i < |ops|
    ensures AfterAll(q, ops[..i + 1]) == After(AfterAll(q, ops[..i]), ops[i])
  {
    AllConcat(q, ops[..i], [ops[i]]);
    OneEvent(AfterAll(q, ops[..i]), ops[i]);
    assert ops[..i + 1] == ops[..i] + [ops[i]];
  }
}
