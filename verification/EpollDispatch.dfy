// The epoll socket worker: a batch is sorted into three queues, and each
// queue is drained with a membership check on every pop.
module EpollDispatch {
  import opened Dispatch

  const MAX_CONNECTIONS := 65000

  // ---------- sorting a batch ----------

  // One epoll_event: the flags that matter and the socket.
  datatype Change = Change(bad: bool, readable: bool, writable: bool, s: Socket)

  function Selected(changes: seq<Change>, kind: Kind): seq<Socket> {
    if changes == [] then []
    else
      var c := changes[|changes| - 1];
      Selected(changes[..|changes| - 1], kind) +
      match kind
      case OnDisconnect => if c.bad then [c.s] else []
      case OnCanRead => if !c.bad && c.readable then [c.s] else []
      case OnCanWrite => if !c.bad && c.writable then [c.s] else []
  }

  // epoll_wait reports a socket once.
  ghost predicate OneEach(changes: seq<Change>) {
    forall i, j :: 0 <= i < j < |changes| ==> changes[i].s != changes[j].s
  }

  lemma {:induction false} SelectedWhere(changes: seq<Change>, kind: Kind, s: Socket)
    requires s in Selected(changes, kind)
    ensures exists i :: 0 <= i < |changes| && changes[i].s == s && (changes[i].bad <==> kind == OnDisconnect)
  {
    var c := changes[|changes| - 1];
    if !(c.s == s && (c.bad <==> kind == OnDisconnect)) {
      SelectedWhere(changes[..|changes| - 1], kind, s);
    }
  }

  lemma BadAreNothingElse(changes: seq<Change>, s: Socket, kind: Kind)
    requires OneEach(changes) && s in Selected(changes, OnDisconnect) && kind != OnDisconnect
    ensures s !in Selected(changes, kind)
  {
    SelectedWhere(changes, OnDisconnect, s);
    if s in Selected(changes, kind) {
      SelectedWhere(changes, kind, s);
      assert false;
    }
  }

  lemma {:induction false} SelectedConcat(xs: seq<Change>, ys: seq<Change>, kind: Kind)
    ensures Selected(xs + ys, kind) == Selected(xs, kind) + Selected(ys, kind)
  {
    if ys == [] {
      assert xs + ys == xs;
    } else {
      assert (xs + ys)[..|xs + ys| - 1] == xs + ys[..|ys| - 1];
      SelectedConcat(xs, ys[..|ys| - 1], kind);
    }
  }

  lemma {:induction false} NotSelected(changes: seq<Change>, kind: Kind, s: Socket)
    requires forall i :: 0 <= i < |changes| ==> changes[i].s != s
    ensures s !in Selected(changes, kind)
  {
    if s in Selected(changes, kind) {
      SelectedWhere(changes, kind, s);
    }
  }

  // Which queues the socket of a change is in, and where: a change with an
  // error is a disconnection only, any other one is in the queues its flags
  // ask for; before it the changes before it, after it those after it.
  lemma {:induction false} QueuesOfChange(changes: seq<Change>, i: nat)
    requires OneEach(changes) && i < |changes|
    ensures var c := changes[i];
            && (c.s in Selected(changes, OnDisconnect) <==> c.bad)
            && (c.s in Selected(changes, OnCanRead) <==> !c.bad && c.readable)
            && (c.s in Selected(changes, OnCanWrite) <==> !c.bad && c.writable)
    ensures forall kind :: Selected(changes, kind)
                         == Selected(changes[..i], kind) + Selected([changes[i]], kind) + Selected(changes[i + 1..], kind)
  {
    var c := changes[i];
    var before, after := changes[..i], changes[i + 1..];
    assert changes == before + [c] + after;
    forall j | 0 <= j < |after|
      ensures after[j].s != c.s
    {
      assert after[j] == changes[i + 1 + j];
    }
    forall kind
      ensures Selected(changes, kind)
           == Selected(before, kind) + Selected([c], kind) + Selected(after, kind)
      ensures c.s !in Selected(before, kind) && c.s !in Selected(after, kind)
    {
      SelectedConcat(before + [c], after, kind);
      SelectedConcat(before, [c], kind);
      NotSelected(before, kind, c.s);
      NotSelected(after, kind, c.s);
    }
    OneChange(c);
  }

  lemma OneChange(c: Change)
    ensures Selected([c], OnDisconnect) == if c.bad then [c.s] else []
    ensures Selected([c], OnCanRead) == if !c.bad && c.readable then [c.s] else []
    ensures Selected([c], OnCanWrite) == if !c.bad && c.writable then [c.s] else []
  {
  }

  // ---------- the drain ----------

  // The clients, the log, and what the callbacks yet to come will do.
  datatype Desk = Desk(clients: set<Socket>, log: seq<Event>, script: seq<seq<Op>>)

  function Do(d: Desk, op: Op): Desk {
    match op
    case Register(s, sane) =>
      if |d.clients| >= MAX_CONNECTIONS - 1 || !sane then d
      else d.(clients := d.clients + {s}, log := d.log + [Registered(s)])
    case Deregister(s) => d.(clients := d.clients - {s}, log := d.log + [Deregistered(s)])
  }

  // With 64998 clients one more is taken, with 64999 none.
  lemma ClientsUpTo64999(d: Desk, s: Socket, sane: bool)
    ensures s !in d.clients ==> (s in Do(d, Register(s, sane)).clients <==> sane && |d.clients| <= 64998)
    ensures |d.clients| <= 64999 ==> |Do(d, Register(s, sane)).clients| <= 64999
  {
  }

  function DoAll(d: Desk, ops: seq<Op>): Desk
    decreases |ops|
  {
    if ops == [] then d else Do(DoAll(d, ops[..|ops| - 1]), ops[|ops| - 1])
  }

  function NextOps(d: Desk): seq<Op> {
    if d.script == [] then [] else d.script[0]
  }

  function Calling(d: Desk, kind: Kind, s: Socket): Desk {
    d.(log := d.log + [Call(kind, s)], script := if d.script == [] then [] else d.script[1..])
  }

  function CallBack(d: Desk, kind: Kind, s: Socket): Desk {
    DoAll(Calling(d, kind, s), NextOps(d))
  }

  // One pass of one of the three loops.
  function Pass(d: Desk, kind: Kind, s: Socket): Desk {
    var called := if s in d.clients then CallBack(d, kind, s) else d;
    if kind == OnDisconnect then Do(called, Deregister(s)) else called
  }

  function Drain(d: Desk, kind: Kind, q: seq<Socket>): Desk
    decreases |q|
  {
    if q == [] then d else Pass(Drain(d, kind, q[..|q| - 1]), kind, q[|q| - 1])
  }

  function OnCall(d: Desk, changes: seq<Change>): Desk {
    Drain(Drain(Drain(d, OnDisconnect, Selected(changes, OnDisconnect)),
                OnCanRead, Selected(changes, OnCanRead)),
          OnCanWrite, Selected(changes, OnCanWrite))
  }

  // ---------- who is called ----------

  predicate Told(c: set<Socket>, d: Desk) {
    d.clients == Replay(c, d.log) && Licensed(c, d.log)
  }

  lemma DoKeeps(c: set<Socket>, d: Desk, op: Op)
    requires Told(c, d)
    ensures Told(c, Do(d, op))
  {
    var e := if op.Register? then Registered(op.s) else Deregistered(op.s);
    ReplayOne(c, d.log, e);
    LicensedOne(c, d.log, e);
  }

  lemma {:induction false} DoAllKeeps(c: set<Socket>, d: Desk, ops: seq<Op>)
    requires Told(c, d)
    ensures Told(c, DoAll(d, ops))
    decreases |ops|
  {
    if ops != [] {
      DoAllKeeps(c, d, ops[..|ops| - 1]);
      DoKeeps(c, DoAll(d, ops[..|ops| - 1]), ops[|ops| - 1]);
    }
  }

  lemma PassKeeps(c: set<Socket>, d: Desk, kind: Kind, s: Socket)
    requires Told(c, d)
    ensures Told(c, Pass(d, kind, s))
  {
    if s in d.clients {
      ReplayOne(c, d.log, Call(kind, s));
      LicensedOne(c, d.log, Call(kind, s));
      DoAllKeeps(c, Calling(d, kind, s), NextOps(d));
      DoKeeps(c, CallBack(d, kind, s), Deregister(s));
    } else {
      DoKeeps(c, d, Deregister(s));
    }
  }

  lemma {:induction false} DrainKeeps(c: set<Socket>, d: Desk, kind: Kind, q: seq<Socket>)
    requires Told(c, d)
    ensures Told(c, Drain(d, kind, q))
    decreases |q|
  {
    if q != [] {
      DrainKeeps(c, d, kind, q[..|q| - 1]);
      PassKeeps(c, Drain(d, kind, q[..|q| - 1]), kind, q[|q| - 1]);
    }
  }

  // Nobody is called who is not registered at that moment, whatever the
  // callbacks do.
  lemma EpollLicensed(clients: set<Socket>, script: seq<seq<Op>>, changes: seq<Change>)
    ensures var d := OnCall(Desk(clients, [], script), changes);
            Licensed(clients, d.log) && d.clients == Replay(clients, d.log)
  {
    var d0 := Desk(clients, [], script);
    var d1 := Drain(d0, OnDisconnect, Selected(changes, OnDisconnect));
    DrainKeeps(clients, d0, OnDisconnect, Selected(changes, OnDisconnect));
    DrainKeeps(clients, d1, OnCanRead, Selected(changes, OnCanRead));
    DrainKeeps(clients, Drain(d1, OnCanRead, Selected(changes, OnCanRead)), OnCanWrite, Selected(changes, OnCanWrite));
  }

  // ---------- what a drain adds to the log ----------

  predicate Extends(d: Desk, e: Desk) {
    d.log <= e.log
  }

  // The new events hold calls of this kind only, on sockets of q.
  predicate CallsOnly(d: Desk, e: Desk, kind: Kind, q: seq<Socket>) {
    Extends(d, e) && forall i | |d.log| <= i < |e.log| && e.log[i].Call? :: e.log[i].kind == kind && e.log[i].s in q
  }

  lemma {:induction false} DoAllCallsNobody(d: Desk, ops: seq<Op>)
    ensures Extends(d, DoAll(d, ops))
    ensures forall i | |d.log| <= i < |DoAll(d, ops).log| :: !DoAll(d, ops).log[i].Call?
    decreases |ops|
  {
    if ops != [] {
      DoAllCallsNobody(d, ops[..|ops| - 1]);
    }
  }

  lemma PassCalls(d: Desk, kind: Kind, s: Socket)
    ensures CallsOnly(d, Pass(d, kind, s), kind, [s])
    ensures s in d.clients ==> |d.log| < |Pass(d, kind, s).log| && Pass(d, kind, s).log[|d.log|] == Call(kind, s)
  {
    DoAllCallsNobody(Calling(d, kind, s), NextOps(d));
  }

  lemma {:induction false} DrainCalls(d: Desk, kind: Kind, q: seq<Socket>)
    ensures CallsOnly(d, Drain(d, kind, q), kind, q)
    decreases |q|
  {
    if q != [] {
      var init := q[..|q| - 1];
      DrainCalls(d, kind, init);
      PassCalls(Drain(d, kind, init), kind, q[|q| - 1]);
      assert forall s | s in init :: s in q;
    }
  }

  // In one drain disconnections come first, then reads, then writes, each for
  // the sockets of its queue only.
  lemma EpollOrder(d: Desk, changes: seq<Change>)
    ensures var d1 := Drain(d, OnDisconnect, Selected(changes, OnDisconnect));
            var d2 := Drain(d1, OnCanRead, Selected(changes, OnCanRead));
            && CallsOnly(d, d1, OnDisconnect, Selected(changes, OnDisconnect))
            && CallsOnly(d1, d2, OnCanRead, Selected(changes, OnCanRead))
            && CallsOnly(d2, OnCall(d, changes), OnCanWrite, Selected(changes, OnCanWrite))
  {
    var d1 := Drain(d, OnDisconnect, Selected(changes, OnDisconnect));
    DrainCalls(d, OnDisconnect, Selected(changes, OnDisconnect));
    DrainCalls(d1, OnCanRead, Selected(changes, OnCanRead));
    DrainCalls(Drain(d1, OnCanRead, Selected(changes, OnCanRead)), OnCanWrite, Selected(changes, OnCanWrite));
  }

  // A socket that is told of its disconnection gets no other call in that
  // drain, even if a callback registers it again.
  lemma DisconnectIsLast(clients: set<Socket>, script: seq<seq<Op>>, changes: seq<Change>, s: Socket, kind: Kind)
    requires OneEach(changes) && kind != OnDisconnect
    requires Call(OnDisconnect, s) in OnCall(Desk(clients, [], script), changes).log
    ensures Call(kind, s) !in OnCall(Desk(clients, [], script), changes).log
  {
    EpollOrder(Desk(clients, [], script), changes);
    BadAreNothingElse(changes, s, kind);
  }

  // Someone registered anew is not spared: the change queued for the socket
  // before it was deregistered still reaches it.
  lemma StaleChangeReachesNewcomer(s: Socket)
    ensures var changes := [Change(false, true, true, s)];
            var script := [[Deregister(s), Register(s, true)]];
            OnCall(Desk({s}, [], script), changes).log
            == [Call(OnCanRead, s), Deregistered(s), Registered(s), Call(OnCanWrite, s)]
  {
    var change := Change(false, true, true, s);
    var d := Desk({s}, [], [[Deregister(s), Register(s, true)]]);
    var back := Desk({s}, [Call(OnCanRead, s), Deregistered(s), Registered(s)], []);
    SelectedOne(change, OnDisconnect);
    SelectedOne(change, OnCanRead);
    SelectedOne(change, OnCanWrite);
    LeaveAndReturn(s);
    OneSocket(d, OnCanRead, s);
    OneSocket(back, OnCanWrite, s);
    assert back.log + [Call(OnCanWrite, s)]
        == [Call(OnCanRead, s), Deregistered(s), Registered(s), Call(OnCanWrite, s)];
  }

  lemma LeaveAndReturn(s: Socket)
    ensures CallBack(Desk({s}, [], [[Deregister(s), Register(s, true)]]), OnCanRead, s)
         == Desk({s}, [Call(OnCanRead, s), Deregistered(s), Registered(s)], [])
  {
    var d := Desk({s}, [], [[Deregister(s), Register(s, true)]]);
    var called, gone := Desk({s}, [Call(OnCanRead, s)], []), Desk({}, [Call(OnCanRead, s), Deregistered(s)], []);
    assert d.script[1..] == [];
    assert d.log + [Call(OnCanRead, s)] == called.log && called.log + [Deregistered(s)] == gone.log;
    assert Do(called, Deregister(s)) == gone;
    TwoOps(called, Deregister(s), Register(s, true));
  }

  lemma SelectedOne(c: Change, kind: Kind)
    ensures Selected([c], kind) == if (kind == OnDisconnect && c.bad) || (kind == OnCanRead && !c.bad && c.readable)
                                      || (kind == OnCanWrite && !c.bad && c.writable) then [c.s] else []
  {
    assert Selected([c][..0], kind) == [];
  }

  lemma TwoOps(d: Desk, a: Op, b: Op)
    ensures DoAll(d, [a, b]) == Do(Do(d, a), b)
  {
    assert [a, b][..1] == [a] && [a][..0] == [];
    assert DoAll(d, [a]) == Do(DoAll(d, []), a);
  }

  lemma OneSocket(d: Desk, kind: Kind, s: Socket)
    ensures Drain(d, kind, [s]) == Pass(d, kind, s) && Drain(d, kind, []) == d
  {
    assert [s][..0] == [];
  }

  // ---------- nobody is skipped ----------

  lemma {:induction false} DoAllStaysIn(d: Desk, ops: seq<Op>, s: Socket)
    requires s in d.clients && Deregistered(s) !in DoAll(d, ops).log
    ensures s in DoAll(d, ops).clients
    decreases |ops|
  {
    if ops != [] {
      DoAllCallsNobody(d, ops[..|ops| - 1]);
      DoAllStaysIn(d, ops[..|ops| - 1], s);
    }
  }

  lemma PassStaysIn(d: Desk, kind: Kind, t: Socket, s: Socket)
    requires s in d.clients && Deregistered(s) !in Pass(d, kind, t).log
    ensures s in Pass(d, kind, t).clients
  {
    if t in d.clients {
      var e := Calling(d, kind, t);
      assert forall x | x in DoAll(e, NextOps(d)).log :: x in Pass(d, kind, t).log;
      DoAllStaysIn(e, NextOps(d), s);
    }
    assert kind == OnDisconnect ==> Deregistered(t) in Pass(d, kind, t).log;
  }

  lemma {:induction false} DrainServes(d: Desk, kind: Kind, q: seq<Socket>, s: Socket)
    requires s in d.clients && Deregistered(s) !in Drain(d, kind, q).log
    ensures s in Drain(d, kind, q).clients
    ensures s in q ==> Call(kind, s) in Drain(d, kind, q).log
    decreases |q|
  {
    if q != [] {
      var init, e := q[..|q| - 1], Drain(d, kind, q[..|q| - 1]);
      PassCalls(e, kind, q[|q| - 1]);
      assert forall x | x in e.log :: x in Drain(d, kind, q).log;
      DrainServes(d, kind, init, s);
      PassStaysIn(e, kind, q[|q| - 1], s);
      assert s in q && q[|q| - 1] != s ==> s in init;
    }
  }

  // A client that stays registered gets every call its changes ask for.
  lemma EpollServes(clients: set<Socket>, script: seq<seq<Op>>, changes: seq<Change>, s: Socket, kind: Kind)
    requires s in clients && s in Selected(changes, kind) && kind != OnDisconnect
    requires Deregistered(s) !in OnCall(Desk(clients, [], script), changes).log
    ensures Call(kind, s) in OnCall(Desk(clients, [], script), changes).log
  {
    var d := Desk(clients, [], script);
    var d1 := Drain(d, OnDisconnect, Selected(changes, OnDisconnect));
    var d2 := Drain(d1, OnCanRead, Selected(changes, OnCanRead));
    EpollOrder(d, changes);
    assert forall x | x in d2.log :: x in OnCall(d, changes).log;
    assert forall x | x in d1.log :: x in d2.log;
    DrainServes(d, OnDisconnect, Selected(changes, OnDisconnect), s);
    DrainServes(d1, OnCanRead, Selected(changes, OnCanRead), s);
    DrainServes(d2, OnCanWrite, Selected(changes, OnCanWrite), s);
  }

  // ---------- the worker as the object it is ----------

  lemma {:induction false} DrainOneMore(d: Desk, kind: Kind, q: seq<Socket>, i: nat)
    requires i < |q|
    ensures Drain(d, kind, q[..i + 1]) == Pass(Drain(d, kind, q[..i]), kind, q[i])
    ensures q[i..][0] == q[i] && q[i..][1..] == q[i + 1..]
  {
    assert q[..i + 1][..i] == q[..i];
  }

  class SocketWorker {
    var clients: set<Socket>
    var readable: seq<Socket>
    var writable: seq<Socket>
    var err: seq<Socket>
    ghost var log: seq<Event>
    var script: seq<seq<Op>>       // what the callbacks to come will do

    ghost function View(): Desk
      reads this
    {
      Desk(clients, log, script)
    }

    constructor (script: seq<seq<Op>>)
      ensures View() == Desk({}, [], script) && readable == [] && writable == [] && err == []
    {
      clients, readable, writable, err, log := {}, [], [], [], [];
      this.script := script;
    }

    method RegisterSocket(s: Socket, sane: bool)
      modifies this`clients, this`log
      ensures View() == Do(old(View()), Register(s, sane))
    {
      if |clients| >= MAX_CONNECTIONS - 1 {
        return;
      }
      if !sane {
        return;
      }
      clients := clients + {s};
      log := log + [Registered(s)];
    }

    method DeregisterSocket(s: Socket)
      modifies this`clients, this`log
      ensures View() == Do(old(View()), Deregister(s))
    {
      clients := clients - {s};
      log := log + [Deregistered(s)];
    }

    // cur->onDisconnect(), onCanRead() or onCanWrite().
    method Notify(kind: Kind, s: Socket)
      modifies this`clients, this`log, this`script
      ensures View() == CallBack(old(View()), kind, s)
    {
      log := log + [Call(kind, s)];
      var ops := if script == [] then [] else script[0];
      script := if script == [] then [] else script[1..];
      ghost var d := View();
      var i := 0;
      while i < |ops|
        invariant i <= |ops| && View() == DoAll(d, ops[..i])
      {
        assert ops[..i + 1][..i] == ops[..i];
        match ops[i] {
          case Register(t, sane) => RegisterSocket(t, sane);
          case Deregister(t) => DeregisterSocket(t);
        }
        i := i + 1;
      }
      assert ops[..i] == ops;
    }

    // The body of run() between the two ActiveCall steps.
    method Collect(changes: seq<Change>)
      modifies this`readable, this`writable, this`err
      ensures err == old(err) + Selected(changes, OnDisconnect)
      ensures readable == old(readable) + Selected(changes, OnCanRead)
      ensures writable == old(writable) + Selected(changes, OnCanWrite)
    {
      var i := 0;
      while i < |changes|
        invariant i <= |changes|
        invariant err == old(err) + Selected(changes[..i], OnDisconnect)
        invariant readable == old(readable) + Selected(changes[..i], OnCanRead)
        invariant writable == old(writable) + Selected(changes[..i], OnCanWrite)
      {
        assert changes[..i + 1][..i] == changes[..i];
        var c := changes[i];
        i := i + 1;
        if c.bad {
          err := err + [c.s];
          continue;
        }
        if c.readable {
          readable := readable + [c.s];
        }
        if c.writable {
          writable := writable + [c.s];
        }
      }
      assert changes[..i] == changes;
    }

    method Disconnect(cur: Socket)
      modifies this`clients, this`log, this`script
      ensures View() == Pass(old(View()), OnDisconnect, cur)
    {
      if cur in clients {
        Notify(OnDisconnect, cur);
      }
      DeregisterSocket(cur);
    }

    method DisconnectFirst()
      requires err != []
      modifies this`clients, this`log, this`script, this`err
      ensures err == old(err)[1..] && View() == Pass(old(View()), OnDisconnect, old(err)[0])
    {
      var cur := err[0];
      err := err[1..];
      Disconnect(cur);
    }

    method DrainErr()
      modifies this
      ensures View() == Drain(old(View()), OnDisconnect, old(err)) && err == []
      ensures readable == old(readable) && writable == old(writable)
    {
      ghost var d, q := View(), err;
      ghost var i := 0;
      while err != []
        invariant i <= |q| && err == q[i..] && View() == Drain(d, OnDisconnect, q[..i])
        invariant readable == old(readable) && writable == old(writable)
        decreases |err|
      {
        DrainOneMore(d, OnDisconnect, q, i);
        ghost var before := View();
        DisconnectFirst();
        assert View() == Pass(before, OnDisconnect, q[i]);
        i := i + 1;
      }
      assert q[..i] == q;
    }

    method DrainReadable()
      modifies this
      ensures View() == Drain(old(View()), OnCanRead, old(readable)) && readable == []
      ensures err == old(err) && writable == old(writable)
    {
      ghost var d, q := View(), readable;
      ghost var i := 0;
      while readable != []
        invariant i <= |q| && readable == q[i..] && View() == Drain(d, OnCanRead, q[..i])
        invariant err == old(err) && writable == old(writable)
        decreases |readable|
      {
        DrainOneMore(d, OnCanRead, q, i);
        var cur := readable[0];
        readable := readable[1..];
        if cur in clients {
          Notify(OnCanRead, cur);
        }
        i := i + 1;
      }
      assert q[..i] == q;
    }

    method DrainWritable()
      modifies this
      ensures View() == Drain(old(View()), OnCanWrite, old(writable)) && writable == []
      ensures err == old(err) && readable == old(readable)
    {
      ghost var d, q := View(), writable;
      ghost var i := 0;
      while writable != []
        invariant i <= |q| && writable == q[i..] && View() == Drain(d, OnCanWrite, q[..i])
        invariant err == old(err) && readable == old(readable)
        decreases |writable|
      {
        DrainOneMore(d, OnCanWrite, q, i);
        var cur := writable[0];
        writable := writable[1..];
        if cur in clients {
          Notify(OnCanWrite, cur);
        }
        i := i + 1;
      }
      assert q[..i] == q;
    }

    // A batch, and the onCall that follows it: the queues are empty again.
    method Handle(changes: seq<Change>)
      requires readable == [] && writable == [] && err == []
      modifies this
      ensures View() == OnCall(old(View()), changes)
      ensures readable == [] && writable == [] && err == []
    {
      Collect(changes);
      assert forall kind :: [] + Selected(changes, kind) == Selected(changes, kind);
      DrainErr();
      DrainReadable();
      DrainWritable();
    }
  }
}
