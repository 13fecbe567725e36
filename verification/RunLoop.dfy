// RunLoop's containers and Timer as the objects they are: the queue holds
// references, and Timer::set changes the key the queue is sorted by.
module RunLoop {
  import opened Common
  import opened TimerQueue
  import opened TimerRuns
  import opened TimerDrain
  import opened LoopImage

  class Timer {
    var fire: real

    constructor ()
      ensures fire == 0.0
    {
      fire := 0.0;
    }
  }

  function Entries(ts: seq<Timer>): (q: seq<Entry<Timer>>)
    reads ts
  {
    seq(|ts|, i requires 0 <= i < |ts| reads ts => Entry(ts[i], ts[i].fire))
  }

  lemma {:induction false} EntriesWithout(ts: seq<Timer>, t: Timer)
    ensures Entries(Without(ts, t)) == Remove(Entries(ts), t)
  {
    if ts != [] {
      EntriesWithout(ts[1..], t);
      assert Entries(ts)[1..] == Entries(ts[1..]);
    }
  }

  function InsertAt<T>(s: seq<T>, k: nat, x: T): seq<T>
    requires k <= |s|
  {
    s[..k] + [x] + s[k..]
  }

  lemma {:induction false} EntriesInsert(ts: seq<Timer>, k: nat, t: Timer)
    requires k <= |ts|
    ensures Entries(InsertAt(ts, k, t)) == InsertAt(Entries(ts), k, Entry(t, t.fire))
  {
    var us, r := InsertAt(ts, k, t), InsertAt(Entries(ts), k, Entry(t, t.fire));
    forall i | 0 <= i < |us|
      ensures Entries(us)[i] == r[i]
    {
      assert Entries(us)[i] == Entry(us[i], us[i].fire);
    }
  }

  lemma LowerBoundIsUnique<T>(q: seq<Entry<T>>, x: real, k: nat)
    requires k <= |q|
    requires forall i :: 0 <= i < k ==> q[i].fire < x
    requires k < |q| ==> q[k].fire >= x
    ensures k == LowerBound(q, x)
  {
  }

  // std::lower_bound, by halving.
  method FindLowerBound(ts: seq<Timer>, fire: real) returns (first: nat)
    requires Sorted(Entries(ts))
    ensures first == LowerBound(Entries(ts), fire)
  {
    ghost var q := Entries(ts);
    first := 0;
    var count := |ts|;
    while count > 0
      invariant 0 <= first <= first + count <= |ts|
      invariant forall i :: 0 <= i < first ==> q[i].fire < fire
      invariant first + count < |ts| ==> q[first + count].fire >= fire
      decreases count
    {
      var step := count / 2;
      var it := first + step;
      if ts[it].fire < fire {
        forall i | 0 <= i <= it
          ensures q[i].fire < fire
        {
          assert q[i].fire <= q[it].fire;
        }
        first, count := it + 1, count - step - 1;
      } else {
        count := step;
      }
    }
    LowerBoundIsUnique(q, fire, first);
  }

  // The assignment in Timer::set: a timer that is not queued can change its
  // fire time without disturbing the queue.
  method Refire(t: Timer, fire: real, ghost queued: seq<Timer>)
    requires t !in queued
    modifies t
    ensures t.fire == fire && Entries(queued) == old(Entries(queued))
  {
    t.fire := fire;
  }

  class RunLoop {
    var running: bool
    var queue: seq<nat>              // messages, by identity
    var processedMsg: Option<nat>
    var flag: bool                   // CondVar::d_ of c
    var timers: seq<Timer>
    var msgCnt: int

    ghost predicate Valid()
      reads this, timers
    {
      Good(Entries(timers))
    }

    constructor ()
      ensures Valid() && timers == [] && queue == [] && processedMsg == None
      ensures !flag && !running && msgCnt == 0
    {
      running, flag, processedMsg, msgCnt := false, false, None, 0;
      queue, timers := [], [];
    }

    ghost function Shown(): Image
      reads this
    {
      Image(queue, processedMsg, flag, msgCnt, running)
    }

    method RegisterMsg()
      modifies this`msgCnt
      ensures Shown() == Registered(old(Shown()), 1)
    {
      msgCnt := msgCnt + 1;
    }

    method DeregisterMsg()
      modifies this`msgCnt
      ensures Shown() == Registered(old(Shown()), -1)
    {
      msgCnt := msgCnt - 1;
    }

    method Stop()
      modifies this`running
      ensures Shown() == Stopped(old(Shown()))
    {
      running := false;
    }

    method EnqueueMsg(m: nat)
      modifies this`queue, this`flag
      ensures Shown() == Enqueued(old(Shown()), m)
    {
      queue := queue + [m];
      flag := queue != [];
    }

    // Under the lock at the top of run(): take one message if there is one.
    method PopMsg()
      modifies this`queue, this`flag, this`processedMsg
      ensures Shown() == Popped(old(Shown()))
    {
      if queue != [] {
        processedMsg := Some(queue[0]);
        queue := queue[1..];
      }
      flag := queue != [];
    }

    method DequeueMsg(m: nat)
      modifies this`queue, this`processedMsg
      ensures Shown() == Dequeued(old(Shown()), m)
    {
      if processedMsg == Some(m) {
        processedMsg := None;
      }
      queue := RemoveErase(queue, m);
    }

    // ~ActiveMsg.
    method ForgetMsg(m: nat)
      modifies this`queue, this`processedMsg, this`msgCnt
      ensures Shown() == Registered(Dequeued(old(Shown()), m), -1)
    {
      DequeueMsg(m);
      DeregisterMsg();
    }

    method EnqueueTimer(t: Timer)
      requires Valid() && t !in timers
      modifies this`timers
      ensures Valid()
      ensures timers == InsertAt(old(timers), LowerBound(old(Entries(timers)), t.fire), t)
      ensures Entries(timers) == Insert(old(Entries(timers)), Entry(t, t.fire))
    {
      var k := FindLowerBound(timers, t.fire);
      EntriesInsert(timers, k, t);
      InsertKeepsOrder(Entries(timers), Entry(t, t.fire));
      timers := timers[..k] + [t] + timers[k..];
    }

    method DequeueTimer(t: Timer)
      requires Valid()
      modifies this`timers
      ensures Valid() && timers == Without(old(timers), t)
      ensures Entries(timers) == Remove(old(Entries(timers)), t)
    {
      ghost var q := Remove(Entries(timers), t);
      assert Good(q) by { RemoveKeepsOrder(Entries(timers), t); }
      var rest := RemoveErase(timers, t);
      assert Entries(rest) == q by { EntriesWithout(timers, t); }
      timers := rest;
    }

    // Timer::set; `at` is the clock reading and `delay` its argument.
    method SetTimer(t: Timer, delay: real, at: real)
      requires Valid()
      modifies this`timers, t
      ensures Valid() && t.fire == at + delay
      ensures forall u | u in timers :: u in old(timers) || u == t
      ensures Entries(timers) == Arm(old(Entries(timers)), t, at + delay)
    {
      DequeueTimer(t);
      ghost var q := Entries(timers);
      Refire(t, at + delay, timers);
      assert Entries(timers) == q;
      EnqueueTimer(t);
    }

    // What client code running on this thread does to the timers.
    method Perform(op: Event<Timer>)
      requires Valid() && !op.Check?
      modifies this`timers, if op.Set? then {op.who} else {}
      ensures Valid()
      ensures forall u | u in timers :: u in old(timers) || (op.Set? && u == op.who)
      ensures Entries(timers) == After(old(Entries(timers)), op)
    {
      match op {
        case Set(t, delay, at) => SetTimer(t, delay, at);
        case Cancel(t) => DequeueTimer(t);
      }
    }

    // The client code of one callback.
    method PerformAll(ops: seq<Event<Timer>>, ghost known: set<Timer>)
      requires Valid() && ClientOps(ops)
      requires forall i :: 0 <= i < |ops| && ops[i].Set? ==> ops[i].who in known
      modifies this`timers, known
      ensures Valid()
      ensures Entries(timers) == AfterAll(old(Entries(timers)), ops)
    {
      ghost var q := Entries(timers);
      var i := 0;
      while i < |ops|
        invariant 0 <= i <= |ops| && Valid()
        invariant Entries(timers) == AfterAll(q, ops[..i])
      {
        AfterOneMore(q, ops, i);
        Perform(ops[i]);
        i := i + 1;
      }
      assert ops[..i] == ops;
    }

    // One pass of the drain loop whose front timer is due.
    method FireFront(visit: Visit<Timer>, ghost known: set<Timer>) returns (f: Firing<Timer>)
      requires Valid() && timers != [] && visit.now >= timers[0].fire && ClientOps(visit.ops)
      requires forall i :: 0 <= i < |visit.ops| && visit.ops[i].Set? ==> visit.ops[i].who in known
      modifies this`timers, known
      ensures Valid() && Entries(timers) == AfterAll(old(Entries(timers))[1..], visit.ops)
      ensures f == Firing(old(timers)[0], old(timers[0].fire), visit.now)
    {
      ghost var r := Entries(timers);
      f := Firing(timers[0], timers[0].fire, visit.now);
      timers := timers[1..];
      assert Entries(timers) == r[1..];
      PerformAll(visit.ops, known);
    }

    // The drain loop of run(), for as many passes as the script gives.
    method DrainTimers(visits: seq<Visit<Timer>>, ghost known: set<Timer>) returns (fired: seq<Firing<Timer>>)
      requires Valid() && ClientVisits(visits)
      requires forall k, i :: 0 <= k < |visits| && 0 <= i < |visits[k].ops| && visits[k].ops[i].Set? ==>
                 visits[k].ops[i].who in known
      modifies this`timers, known
      ensures Valid()
      ensures Entries(timers) == AfterAll(old(Entries(timers)), DrainEvents(old(Entries(timers)), visits))
      ensures fired == FiredAll(old(Entries(timers)), DrainEvents(old(Entries(timers)), visits))
    {
      ghost var q := Entries(timers);
      fired := [];
      var k := 0;
      while timers != [] && k < |visits|
        invariant 0 <= k <= |visits| && Valid()
        invariant AfterAll(q, DrainEvents(q, visits))
                  == AfterAll(Entries(timers), DrainEvents(Entries(timers), visits[k..]))
        invariant FiredAll(q, DrainEvents(q, visits))
                  == fired + FiredAll(Entries(timers), DrainEvents(Entries(timers), visits[k..]))
        decreases |visits| - k
      {
        ghost var r := Entries(timers);
        if visits[k].now < timers[0].fire {
          DrainStops(r, visits[k..]);
          return;
        }
        DrainStep(r, visits[k..]);
        assert visits[k..][0] == visits[k] && visits[k..][1..] == visits[k + 1..];
        var f := FireFront(visits[k], known);
        fired := fired + [f];
        k := k + 1;
      }
    }
  }
}
