// The select socket worker: the drain checks nothing, because deregistering a
// socket purges it from every queue.
module SelectDispatch {
  import opened Common
  import opened Dispatch

  datatype Desk = Desk(
    clients: seq<Socket>,
    readable: seq<Socket>,
    writable: seq<Socket>,
    err: seq<Socket>,
    flag: bool,                    // CondVar::d_ of c: some client is there
    log: seq<Event>,
    script: seq<seq<Op>>)

  function Do(d: Desk, op: Op): (e: Desk)
    ensures |e.readable| <= |d.readable| && |e.writable| <= |d.writable| && |e.err| <= |d.err|
  {
    match op
    case Register(s, sane) =>
      if !sane then d
      else d.(clients := d.clients + [s], flag := true, log := d.log + [Registered(s)])
    case Deregister(s) =>
      d.(clients := Without(d.clients, s), readable := Without(d.readable, s), writable := Without(d.writable, s),
         err := Without(d.err, s), flag := Without(d.clients, s) != [], log := d.log + [Deregistered(s)])
  }

  function DoAll(d: Desk, ops: seq<Op>): (e: Desk)
    ensures |e.readable| <= |d.readable| && |e.writable| <= |d.writable| && |e.err| <= |d.err|
    decreases |ops|
  {
    if ops == [] then d else Do(DoAll(d, ops[..|ops| - 1]), ops[|ops| - 1])
  }

  function NextOps(d: Desk): seq<Op> {
    if d.script == [] then [] else d.script[0]
  }

  function Calling(d: Desk, kind: Kind, s: Socket): Desk {
    d.(log := d.log + [Call(kind, s)], script := if d.script == [] then [] else d.script[1..])
  }

  function CallBack(d: Desk, kind: Kind, s: Socket): (e: Desk)
    ensures |e.readable| <= |d.readable| && |e.writable| <= |d.writable| && |e.err| <= |d.err|
  {
    DoAll(Calling(d, kind, s), NextOps(d))
  }

  function DrainRead(d: Desk): Desk
    decreases |d.readable|
  {
    if d.readable == [] then d else DrainRead(CallBack(d.(readable := d.readable[1..]), OnCanRead, d.readable[0]))
  }

  function DrainWrite(d: Desk): Desk
    decreases |d.writable|
  {
    if d.writable == [] then d else DrainWrite(CallBack(d.(writable := d.writable[1..]), OnCanWrite, d.writable[0]))
  }

  function DrainErr(d: Desk): Desk
    decreases |d.err|
  {
    if d.err == [] then d else DrainErr(CallBack(d.(err := d.err[1..]), OnDisconnect, d.err[0]))
  }

  // The clients whose descriptor is set, in their order.
  function Ready(clients: seq<Socket>, fds: set<Socket>): seq<Socket> {
    if clients == [] then []
    else
      var last := clients[|clients| - 1];
      Ready(clients[..|clients| - 1], fds) + if last in fds then [last] else []
  }

  lemma {:induction false} ReadyMembers(clients: seq<Socket>, fds: set<Socket>)
    ensures forall s :: s in Ready(clients, fds) <==> s in clients && s in fds
  {
    if clients != [] {
      ReadyMembers(clients[..|clients| - 1], fds);
    }
  }

  lemma OneMoreReady(q: seq<Socket>, clients: seq<Socket>, i: nat, fds: set<Socket>)
    requires i < |clients|
    ensures q + Ready(clients[..i + 1], fds)
         == if clients[i] in fds then q + Ready(clients[..i], fds) + [clients[i]] else q + Ready(clients[..i], fds)
  {
    assert clients[..i + 1][..i] == clients[..i];
  }

  datatype Changes = Changes(readfd: set<Socket>, writefd: set<Socket>, errfd: set<Socket>)

  function Filled(d: Desk, c: Changes): Desk {
    d.(readable := d.readable + Ready(d.clients, c.readfd),
       writable := d.writable + Ready(d.clients, c.writefd),
       err := d.err + Ready(d.clients, c.errfd))
  }

  lemma FilledMembers(clients: seq<Socket>, script: seq<seq<Op>>, c: Changes)
    ensures var d := Filled(Begin(clients, script), c);
            && (forall s :: s in d.readable <==> s in clients && s in c.readfd)
            && (forall s :: s in d.writable <==> s in clients && s in c.writefd)
            && (forall s :: s in d.err <==> s in clients && s in c.errfd)
  {
    ReadyMembers(clients, c.readfd);
    ReadyMembers(clients, c.writefd);
    ReadyMembers(clients, c.errfd);
  }

  function HandleChanges(d: Desk, c: Changes): Desk {
    DrainErr(DrainWrite(DrainRead(Filled(d, c))))
  }

  // ---------- the invariant ----------

  // Whatever is queued is registered, and the log agrees with the clients.
  ghost predicate Told(c: set<Socket>, d: Desk) {
    && Members(d.clients) == Replay(c, d.log) && Licensed(c, d.log)
    && (forall s | s in d.readable || s in d.writable || s in d.err :: s in d.clients)
    && (d.flag <==> d.clients != [])
  }

  lemma DoKeeps(c: set<Socket>, d: Desk, op: Op)
    requires Told(c, d)
    ensures Told(c, Do(d, op))
  {
    var e := if op.Register? then Registered(op.s) else Deregistered(op.s);
    ReplayOne(c, d.log, e);
    LicensedOne(c, d.log, e);
    if op.Register? {
      assert Members(d.clients + [op.s]) == Members(d.clients) + {op.s};
    } else {
      assert Members(Without(d.clients, op.s)) == Members(d.clients) - {op.s};
    }
  }

  lemma {:induction false} DoAllKeeps(c: set<Socket>, d: Desk, ops: seq<Op>)
    requires Told(c, d)
    ensures Told(c, DoAll(d, ops))
    decreases |ops|
  {
    if ops != [] {
      DoAllKeeps(c, d, ops[..|ops| - 1]);
      DoKeeps(c, DoAll(d, ops[..|ops| - 1]), ops[|ops| - 1]);
    }
  }

  lemma CallBackKeeps(c: set<Socket>, d: Desk, kind: Kind, s: Socket)
    requires Told(c, d) && s in d.clients
    ensures Told(c, CallBack(d, kind, s))
  {
    assert s in Members(d.clients);
    ReplayOne(c, d.log, Call(kind, s));
    LicensedOne(c, d.log, Call(kind, s));
    DoAllKeeps(c, Calling(d, kind, s), NextOps(d));
  }

  lemma {:induction false} DrainReadKeeps(c: set<Socket>, d: Desk)
    requires Told(c, d)
    ensures Told(c, DrainRead(d)) && DrainRead(d).readable == []
    decreases |d.readable|
  {
    if d.readable != [] {
      var e := d.(readable := d.readable[1..]);
      CallBackKeeps(c, e, OnCanRead, d.readable[0]);
      DrainReadKeeps(c, CallBack(e, OnCanRead, d.readable[0]));
    }
  }

  lemma {:induction false} DrainWriteKeeps(c: set<Socket>, d: Desk)
    requires Told(c, d) && d.readable == []
    ensures Told(c, DrainWrite(d)) && DrainWrite(d).readable == [] && DrainWrite(d).writable == []
    decreases |d.writable|
  {
    if d.writable != [] {
      var e := d.(writable := d.writable[1..]);
      CallBackKeeps(c, e, OnCanWrite, d.writable[0]);
      DrainWriteKeeps(c, CallBack(e, OnCanWrite, d.writable[0]));
    }
  }

  lemma {:induction false} DrainErrKeeps(c: set<Socket>, d: Desk)
    requires Told(c, d) && d.readable == [] && d.writable == []
    ensures Told(c, DrainErr(d)) && DrainErr(d).readable == [] && DrainErr(d).writable == [] && DrainErr(d).err == []
    decreases |d.err|
  {
    if d.err != [] {
      var e := d.(err := d.err[1..]);
      CallBackKeeps(c, e, OnDisconnect, d.err[0]);
      DrainErrKeeps(c, CallBack(e, OnDisconnect, d.err[0]));
    }
  }

  function Begin(clients: seq<Socket>, script: seq<seq<Op>>): Desk {
    Desk(clients, [], [], [], clients != [], [], script)
  }

  // Nobody is called who is not registered at that moment, although the drain
  // never asks; and the worker's condition says whether there are clients.
  lemma SelectLicensed(clients: seq<Socket>, script: seq<seq<Op>>, c: Changes)
    ensures var d := HandleChanges(Begin(clients, script), c);
            && Licensed(Members(clients), d.log) && Members(d.clients) == Replay(Members(clients), d.log)
            && d.readable == [] && d.writable == [] && d.err == []
            && (d.flag <==> d.clients != [])
  {
    var d := Filled(Begin(clients, script), c);
    FilledMembers(clients, script, c);
    DrainReadKeeps(Members(clients), d);
    DrainWriteKeeps(Members(clients), DrainRead(d));
    DrainErrKeeps(Members(clients), DrainWrite(DrainRead(d)));
  }

  // ---------- purging ----------

  predicate Queued(d: Desk, s: Socket) {
    s in d.readable || s in d.writable || s in d.err
  }

  // From entry i on the log has no call on a deregistered socket, and none
  // such is queued: not even a new registration brings it back.
  predicate Purged(d: Desk, i: nat) {
    && (forall j, k :: i <= j < k < |d.log| && d.log[j].Deregistered? && d.log[k].Call? ==> d.log[k].s != d.log[j].s)
    && (forall j :: i <= j < |d.log| && d.log[j].Deregistered? ==> !Queued(d, d.log[j].s))
  }

  lemma DoPurges(d: Desk, op: Op, i: nat)
    requires Purged(d, i) && i <= |d.log|
    ensures Purged(Do(d, op), i) && i <= |Do(d, op).log|
  {
  }

  lemma {:induction false} DoAllPurges(d: Desk, ops: seq<Op>, i: nat)
    requires Purged(d, i) && i <= |d.log|
    ensures Purged(DoAll(d, ops), i) && i <= |DoAll(d, ops).log|
    decreases |ops|
  {
    if ops != [] {
      DoAllPurges(d, ops[..|ops| - 1], i);
      DoPurges(DoAll(d, ops[..|ops| - 1]), ops[|ops| - 1], i);
    }
  }

  lemma CallBackPurges(d: Desk, e: Desk, kind: Kind, s: Socket, i: nat)
    requires Purged(d, i) && i <= |d.log| && Queued(d, s) && e.log == d.log && forall t | Queued(e, t) :: Queued(d, t)
    ensures Purged(CallBack(e, kind, s), i) && i <= |CallBack(e, kind, s).log|
  {
    assert Purged(Calling(e, kind, s), i);
    DoAllPurges(Calling(e, kind, s), NextOps(e), i);
  }

  lemma {:induction false} DrainReadPurges(d: Desk, i: nat)
    requires Purged(d, i) && i <= |d.log|
    ensures Purged(DrainRead(d), i) && i <= |DrainRead(d).log|
    decreases |d.readable|
  {
    if d.readable != [] {
      var e := d.(readable := d.readable[1..]);
      CallBackPurges(d, e, OnCanRead, d.readable[0], i);
      DrainReadPurges(CallBack(e, OnCanRead, d.readable[0]), i);
    }
  }

  lemma {:induction false} DrainWritePurges(d: Desk, i: nat)
    requires Purged(d, i) && i <= |d.log|
    ensures Purged(DrainWrite(d), i) && i <= |DrainWrite(d).log|
    decreases |d.writable|
  {
    if d.writable != [] {
      var e := d.(writable := d.writable[1..]);
      CallBackPurges(d, e, OnCanWrite, d.writable[0], i);
      DrainWritePurges(CallBack(e, OnCanWrite, d.writable[0]), i);
    }
  }

  lemma {:induction false} DrainErrPurges(d: Desk, i: nat)
    requires Purged(d, i) && i <= |d.log|
    ensures Purged(DrainErr(d), i) && i <= |DrainErr(d).log|
    decreases |d.err|
  {
    if d.err != [] {
      var e := d.(err := d.err[1..]);
      CallBackPurges(d, e, OnDisconnect, d.err[0], i);
      DrainErrPurges(CallBack(e, OnDisconnect, d.err[0]), i);
    }
  }

  // In one drain a deregistered socket is not called again at all, even when
  // a callback registers it anew.
  lemma NoCallOncePurged(clients: seq<Socket>, script: seq<seq<Op>>, c: Changes, j: nat, k: nat)
    requires var log := HandleChanges(Begin(clients, script), c).log;
             j < k < |log| && log[j].Deregistered? && log[k].Call?
    ensures var log := HandleChanges(Begin(clients, script), c).log; log[k].s != log[j].s
  {
    var d := Filled(Begin(clients, script), c);
    DrainReadPurges(d, 0);
    DrainWritePurges(DrainRead(d), 0);
    DrainErrPurges(DrainWrite(DrainRead(d)), 0);
    assert Purged(HandleChanges(Begin(clients, script), c), 0);
  }

  // ---------- order, and nobody is skipped ----------

  predicate CallsOnly(d: Desk, e: Desk, kind: Kind) {
    d.log <= e.log && forall i | |d.log| <= i < |e.log| && e.log[i].Call? :: e.log[i].kind == kind
  }

  lemma {:induction false} DoAllCallsNobody(d: Desk, ops: seq<Op>)
    ensures d.log <= DoAll(d, ops).log
    ensures forall i | |d.log| <= i < |DoAll(d, ops).log| :: !DoAll(d, ops).log[i].Call?
    decreases |ops|
  {
    if ops != [] {
      DoAllCallsNobody(d, ops[..|ops| - 1]);
    }
  }

  // A callback takes a socket off the queues only by deregistering it.
  lemma {:induction false} DoAllKeepsQueued(d: Desk, ops: seq<Op>, s: Socket)
    requires Deregistered(s) !in DoAll(d, ops).log
    ensures s in d.readable ==> s in DoAll(d, ops).readable
    ensures s in d.writable ==> s in DoAll(d, ops).writable
    ensures s in d.err ==> s in DoAll(d, ops).err
    decreases |ops|
  {
    if ops != [] {
      DoAllKeepsQueued(d, ops[..|ops| - 1], s);
    }
  }

  // What one callback does to the drain around it.
  lemma CallBackEffect(d: Desk, kind: Kind, t: Socket, s: Socket)
    ensures CallsOnly(d, CallBack(d, kind, t), kind)
    ensures |d.log| < |CallBack(d, kind, t).log| && CallBack(d, kind, t).log[|d.log|] == Call(kind, t)
    ensures Deregistered(s) !in CallBack(d, kind, t).log ==>
              var e := CallBack(d, kind, t);
              && (s in d.readable ==> s in e.readable) && (s in d.writable ==> s in e.writable)
              && (s in d.err ==> s in e.err)
  {
    DoAllCallsNobody(Calling(d, kind, t), NextOps(d));
    if Deregistered(s) !in CallBack(d, kind, t).log {
      DoAllKeepsQueued(Calling(d, kind, t), NextOps(d), s);
    }
  }

  lemma InLonger(a: seq<Event>, b: seq<Event>)
    requires a <= b
    ensures forall x | x in a :: x in b
  {
    forall x | x in a
      ensures x in b
    {
      var i :| 0 <= i < |a| && a[i] == x;
      assert b[i] == x;
    }
  }

  lemma {:induction false} DrainReadEffect(d: Desk, s: Socket)
    ensures CallsOnly(d, DrainRead(d), OnCanRead)
    ensures Deregistered(s) !in DrainRead(d).log ==>
              && (s in d.readable ==> Call(OnCanRead, s) in DrainRead(d).log)
              && (s in d.writable ==> s in DrainRead(d).writable) && (s in d.err ==> s in DrainRead(d).err)
    decreases |d.readable|
  {
    if d.readable != [] {
      var e := d.(readable := d.readable[1..]);
      var f := CallBack(e, OnCanRead, d.readable[0]);
      CallBackEffect(e, OnCanRead, d.readable[0], s);
      DrainReadEffect(f, s);
      InLonger(f.log, DrainRead(d).log);
    }
  }

  lemma {:induction false} DrainWriteEffect(d: Desk, s: Socket)
    ensures CallsOnly(d, DrainWrite(d), OnCanWrite)
    ensures Deregistered(s) !in DrainWrite(d).log ==>
              && (s in d.writable ==> Call(OnCanWrite, s) in DrainWrite(d).log)
              && (s in d.err ==> s in DrainWrite(d).err)
    decreases |d.writable|
  {
    if d.writable != [] {
      var e := d.(writable := d.writable[1..]);
      var f := CallBack(e, OnCanWrite, d.writable[0]);
      CallBackEffect(e, OnCanWrite, d.writable[0], s);
      DrainWriteEffect(f, s);
      InLonger(f.log, DrainWrite(d).log);
    }
  }

  lemma {:induction false} DrainErrEffect(d: Desk, s: Socket)
    ensures CallsOnly(d, DrainErr(d), OnDisconnect)
    ensures Deregistered(s) !in DrainErr(d).log && s in d.err ==> Call(OnDisconnect, s) in DrainErr(d).log
    decreases |d.err|
  {
    if d.err != [] {
      var e := d.(err := d.err[1..]);
      var f := CallBack(e, OnDisconnect, d.err[0]);
      CallBackEffect(e, OnDisconnect, d.err[0], s);
      DrainErrEffect(f, s);
      InLonger(f.log, DrainErr(d).log);
    }
  }

  function Rank(kind: Kind): nat {
    match kind
    case OnCanRead => 0
    case OnCanWrite => 1
    case OnDisconnect => 2
  }

  // Reads first, then writes, then disconnections.
  lemma SelectOrder(clients: seq<Socket>, script: seq<seq<Op>>, c: Changes, j: nat, k: nat)
    requires var log := HandleChanges(Begin(clients, script), c).log; j < k < |log| && log[j].Call? && log[k].Call?
    ensures var log := HandleChanges(Begin(clients, script), c).log; Rank(log[j].kind) <= Rank(log[k].kind)
  {
    var d := Filled(Begin(clients, script), c);
    DrainReadEffect(d, 0);
    DrainWriteEffect(DrainRead(d), 0);
    DrainErrEffect(DrainWrite(DrainRead(d)), 0);
  }

  // A client that stays registered gets every call its descriptor asks for.
  lemma SelectServes(clients: seq<Socket>, script: seq<seq<Op>>, c: Changes, s: Socket)
    requires s in clients && Deregistered(s) !in HandleChanges(Begin(clients, script), c).log
    ensures var log := HandleChanges(Begin(clients, script), c).log;
            && (s in c.readfd ==> Call(OnCanRead, s) in log) && (s in c.writefd ==> Call(OnCanWrite, s) in log)
            && (s in c.errfd ==> Call(OnDisconnect, s) in log)
  {
    var d := Filled(Begin(clients, script), c);
    var d1, d2 := DrainRead(d), DrainWrite(DrainRead(d));
    FilledMembers(clients, script, c);
    DrainReadEffect(d, s);
    DrainWriteEffect(d1, s);
    DrainErrEffect(d2, s);
    InLonger(d1.log, d2.log);
    InLonger(d2.log, DrainErr(d2).log);
  }

  // ---------- the worker as the object it is ----------

  class SocketWorker {
    var clients: seq<Socket>
    var readable: seq<Socket>
    var writable: seq<Socket>
    var err: seq<Socket>
    var flag: bool
    ghost var log: seq<Event>
    var script: seq<seq<Op>>       // what the callbacks to come will do

    ghost function View(): Desk
      reads this
    {
      Desk(clients, readable, writable, err, flag, log, script)
    }

    constructor (script: seq<seq<Op>>)
      ensures View() == Begin([], script)
    {
      clients, readable, writable, err, flag, log := [], [], [], [], false, [];
      this.script := script;
    }

    method RegisterSocket(s: Socket, sane: bool)
      modifies this`clients, this`flag, this`log
      ensures View() == Do(old(View()), Register(s, sane))
    {
      if !sane {
        return;
      }
      clients := clients + [s];
      flag := true;
      log := log + [Registered(s)];
    }

    method DeregisterSocket(s: Socket)
      modifies this
      ensures View() == Do(old(View()), Deregister(s))
    {
      clients := RemoveErase(clients, s);
      readable := RemoveErase(readable, s);
      writable := RemoveErase(writable, s);
      err := RemoveErase(err, s);
      flag := clients != [];
      log := log + [Deregistered(s)];
    }

    // cur->onCanRead(), onCanWrite() or onDisconnect().
    method Notify(kind: Kind, s: Socket)
      modifies this
      ensures View() == CallBack(old(View()), kind, s)
    {
      log := log + [Call(kind, s)];
      var ops := if script == [] then [] else script[0];
      script := if script == [] then [] else script[1..];
      ghost var d := View();
      var i := 0;
      while i < |ops|
        invariant i <= |ops| && View() == DoAll(d, ops[..i])
      {
        assert ops[..i + 1][..i] == ops[..i];
        match ops[i] {
          case Register(t, sane) => RegisterSocket(t, sane);
          case Deregister(t) => DeregisterSocket(t);
        }
        i := i + 1;
      }
      assert ops[..i] == ops;
    }

    method Fill(c: Changes)
      modifies this`readable, this`writable, this`err
      ensures View() == Filled(old(View()), c)
    {
      var i := 0;
      while i < |clients|
        invariant i <= |clients|
        invariant readable == old(readable) + Ready(clients[..i], c.readfd)
        invariant writable == old(writable) + Ready(clients[..i], c.writefd)
        invariant err == old(err) + Ready(clients[..i], c.errfd)
      {
        OneMoreReady(old(readable), clients, i, c.readfd);
        OneMoreReady(old(writable), clients, i, c.writefd);
        OneMoreReady(old(err), clients, i, c.errfd);
        if clients[i] in c.readfd {
          readable := readable + [clients[i]];
        }
        if clients[i] in c.writefd {
          writable := writable + [clients[i]];
        }
        if clients[i] in c.errfd {
          err := err + [clients[i]];
        }
        i := i + 1;
      }
      assert clients[..i] == clients;
    }

    // handleChanges.
    method Handle(c: Changes)
      modifies this
      ensures View() == HandleChanges(old(View()), c)
    {
      Fill(c);
      ghost var d := View();
      while readable != []
        invariant DrainRead(View()) == DrainRead(d)
        decreases |readable|
      {
        var cur := readable[0];
        readable := readable[1..];
        Notify(OnCanRead, cur);
      }
      ghost var d1 := View();
      while writable != []
        invariant DrainWrite(View()) == DrainWrite(d1)
        decreases |writable|
      {
        var cur := writable[0];
        writable := writable[1..];
        Notify(OnCanWrite, cur);
      }
      ghost var d2 := View();
      while err != []
        invariant DrainErr(View()) == DrainErr(d2)
        decreases |err|
      {
        var cur := err[0];
        err := err[1..];
        Notify(OnDisconnect, cur);
      }
    }
  }
}
