// Exactly which queued changes reach their sockets in an epoll drain.
module EpollTurns {
  import opened Common
  import opened Dispatch
  import opened EpollDispatch

  // ---------- one queue ----------

  lemma TakenFrom(a: seq<Socket>, x: Socket, b: seq<Socket>)
    requires a + [x] == b
    ensures forall s | s in a :: s in b
  {
  }

  lemma {:induction false} DrainSplit(d: Desk, kind: Kind, q: seq<Socket>, i: nat)
    requires i < |q|
    ensures var e := Drain(d, kind, q[..i]);
            && Drain(d, kind, q[..i + 1]) == Pass(e, kind, q[i])
            && Extends(d, e) && Extends(Pass(e, kind, q[i]), Drain(d, kind, q))
            && CallsOnly(d, e, kind, q[..i])
            && CallsOnly(Pass(e, kind, q[i]), Drain(d, kind, q), kind, q[i + 1..])
  {
    assert q[..i + 1][..i] == q[..i];
    DrainCalls(d, kind, q[..i]);
    DrainRest(d, kind, q, i + 1);
  }

  // What the drain does from place j of the queue on.
  lemma {:induction false} DrainRest(d: Desk, kind: Kind, q: seq<Socket>, j: nat)
    requires j <= |q|
    ensures Extends(Drain(d, kind, q[..j]), Drain(d, kind, q))
    ensures CallsOnly(Drain(d, kind, q[..j]), Drain(d, kind, q), kind, q[j..])
    decreases |q|
  {
    if j == |q| {
      assert q[..j] == q;
    } else {
      var init, last := q[..|q| - 1], q[|q| - 1];
      assert init[..j] == q[..j] && init[j..] + [last] == q[j..];
      DrainRest(d, kind, init, j);
      PassCalls(Drain(d, kind, init), kind, last);
      TakenFrom(init[j..], last, q[j..]);
    }
  }

  // The part of the log that a drain adds.
  function Added(d: Desk, e: Desk): seq<Event>
    requires Extends(d, e)
  {
    e.log[|d.log|..]
  }

  lemma PassCallsIff(d: Desk, kind: Kind, s: Socket)
    ensures Extends(d, Pass(d, kind, s))
    ensures Call(kind, s) in Added(d, Pass(d, kind, s)) <==> s in d.clients
  {
    PassCalls(d, kind, s);
    var e := Pass(d, kind, s);
    if s in d.clients {
      assert Added(d, e)[0] == Call(kind, s);
    } else {
      assert forall i | |d.log| <= i < |e.log| :: !e.log[i].Call?;
    }
  }

  lemma NotAmong(d: Desk, e: Desk, kind: Kind, q: seq<Socket>, s: Socket)
    requires CallsOnly(d, e, kind, q) && s !in q
    ensures Call(kind, s) !in Added(d, e)
  {
  }

  lemma AddedInThree(a: Desk, b: Desk, c: Desk, d: Desk, x: Event)
    requires Extends(a, b) && Extends(b, c) && Extends(c, d)
    ensures Extends(a, d)
    ensures x in Added(a, d) <==> x in Added(a, b) || x in Added(b, c) || x in Added(c, d)
  {
    assert Added(a, d) == Added(a, b) + Added(b, c) + Added(c, d);
  }

  // The desk when the i-th entry of the queue is popped.
  function AtPop(d: Desk, kind: Kind, q: seq<Socket>, i: nat): Desk
    requires i < |q|
  {
    Drain(d, kind, q[..i])
  }

  // In a queue without repetitions a socket is called just when it is
  // registered at its pop ...
  lemma CalledIffClientAtPop(d: Desk, kind: Kind, q: seq<Socket>, i: nat)
    requires NoDuplicates(q) && i < |q|
    ensures Extends(d, Drain(d, kind, q))
    ensures Call(kind, q[i]) in Added(d, Drain(d, kind, q)) <==> q[i] in AtPop(d, kind, q, i).clients
  {
    var e, s := AtPop(d, kind, q, i), q[i];
    DrainSplit(d, kind, q, i);
    PassCallsIff(e, kind, s);
    NotAmong(d, e, kind, q[..i], s);
    NotAmong(Pass(e, kind, s), Drain(d, kind, q), kind, q[i + 1..], s);
    AddedInThree(d, e, Pass(e, kind, s), Drain(d, kind, q), Call(kind, s));
  }

  // ... that is, when the log's last word on it then is its registration, or
  // there is none and it was a client from the start.
  lemma CalledIffLastWordIsIn(c: set<Socket>, d: Desk, kind: Kind, q: seq<Socket>, i: nat)
    requires Told(c, d) && NoDuplicates(q) && i < |q|
    ensures Extends(d, Drain(d, kind, q))
    ensures var word := LastWord(AtPop(d, kind, q, i).log, q[i]);
            Call(kind, q[i]) in Added(d, Drain(d, kind, q)) <==> word == In || (word == NeverMentioned && q[i] in c)
  {
    CalledIffClientAtPop(d, kind, q, i);
    DrainKeeps(c, d, kind, q[..i]);
    LastWordDecides(c, AtPop(d, kind, q, i).log, q[i]);
  }

  // So a socket deregistered before its pop is called just when it has been
  // registered again since.
  lemma NewcomerCalledIff(c: set<Socket>, d: Desk, kind: Kind, q: seq<Socket>, i: nat)
    requires Told(c, d) && NoDuplicates(q) && i < |q| && Deregistered(q[i]) in AtPop(d, kind, q, i).log
    ensures Extends(d, Drain(d, kind, q))
    ensures Call(kind, q[i]) in Added(d, Drain(d, kind, q)) <==> LastWord(AtPop(d, kind, q, i).log, q[i]) == In
  {
    CalledIffLastWordIsIn(c, d, kind, q, i);
    MentionedHasLastWord(AtPop(d, kind, q, i).log, q[i]);
  }

  lemma {:induction false} MentionedHasLastWord(log: seq<Event>, s: Socket)
    requires Deregistered(s) in log
    ensures LastWord(log, s) != NeverMentioned
    decreases |log|
  {
    if log[|log| - 1] != Deregistered(s) && log[|log| - 1] != Registered(s) {
      MentionedHasLastWord(log[..|log| - 1], s);
    }
  }

  // ---------- a whole batch ----------

  lemma {:induction false} SelectedDistinct(changes: seq<Change>, kind: Kind)
    requires OneEach(changes)
    ensures NoDuplicates(Selected(changes, kind))
  {
    if changes != [] {
      var init, last := changes[..|changes| - 1], changes[|changes| - 1];
      SelectedDistinct(init, kind);
      if last.s in Selected(init, kind) {
        SelectedWhere(init, kind, last.s);
        assert false;
      }
    }
  }

  // The desk when the loop for this kind begins.
  function PhaseStart(d: Desk, changes: seq<Change>, kind: Kind): Desk {
    match kind
    case OnDisconnect => d
    case OnCanRead => Drain(d, OnDisconnect, Selected(changes, OnDisconnect))
    case OnCanWrite =>
      Drain(Drain(d, OnDisconnect, Selected(changes, OnDisconnect)), OnCanRead, Selected(changes, OnCanRead))
  }

  function PhaseEnd(d: Desk, changes: seq<Change>, kind: Kind): Desk {
    Drain(PhaseStart(d, changes, kind), kind, Selected(changes, kind))
  }

  // Calls of a kind happen in its phase only.
  lemma PhaseHoldsCalls(d: Desk, changes: seq<Change>, kind: Kind, s: Socket)
    requires d.log == []
    ensures Extends(PhaseStart(d, changes, kind), PhaseEnd(d, changes, kind))
    ensures Call(kind, s) in OnCall(d, changes).log <==>
            Call(kind, s) in Added(PhaseStart(d, changes, kind), PhaseEnd(d, changes, kind))
  {
    EpollOrder(d, changes);
    var d1 := PhaseStart(d, changes, OnCanRead);
    var d2, d3 := PhaseStart(d, changes, OnCanWrite), OnCall(d, changes);
    AddedInThree(d, d1, d2, d3, Call(kind, s));
    assert Added(d, d3) == d3.log;
  }

  lemma PhaseStartTold(c: set<Socket>, script: seq<seq<Op>>, changes: seq<Change>, kind: Kind)
    ensures Told(c, PhaseStart(Desk(c, [], script), changes, kind))
  {
    var d := Desk(c, [], script);
    var d1 := Drain(d, OnDisconnect, Selected(changes, OnDisconnect));
    DrainKeeps(c, d, OnDisconnect, Selected(changes, OnDisconnect));
    DrainKeeps(c, d1, OnCanRead, Selected(changes, OnCanRead));
  }

  // For every batch, every script of callbacks and every queued change: the
  // socket gets its call just when the last word on it before its pop is a
  // registration, or nothing was said and it was a client at the start.
  lemma EpollCallsIff(clients: set<Socket>, script: seq<seq<Op>>, changes: seq<Change>, kind: Kind, i: nat)
    requires OneEach(changes) && i < |Selected(changes, kind)|
    ensures var d, q := Desk(clients, [], script), Selected(changes, kind);
            var word := LastWord(AtPop(PhaseStart(d, changes, kind), kind, q, i).log, q[i]);
            Call(kind, q[i]) in OnCall(d, changes).log
            <==> word == In || (word == NeverMentioned && q[i] in clients)
  {
    var d, q := Desk(clients, [], script), Selected(changes, kind);
    SelectedDistinct(changes, kind);
    PhaseStartTold(clients, script, changes, kind);
    CalledIffLastWordIsIn(clients, PhaseStart(d, changes, kind), kind, q, i);
    PhaseHoldsCalls(d, changes, kind, q[i]);
  }

  // ---------- each call has its part of the script ----------

  function Calls(log: seq<Event>): nat
    decreases |log|
  {
    if log == [] then 0 else Calls(log[..|log| - 1]) + if log[|log| - 1].Call? then 1 else 0
  }

  function Past(script: seq<seq<Op>>, n: nat): seq<seq<Op>> {
    if n <= |script| then script[n..] else []
  }

  // e comes from d by as many calls as parts of the script are gone.
  predicate Served(d: Desk, e: Desk) {
    Calls(d.log) <= Calls(e.log) && e.script == Past(d.script, Calls(e.log) - Calls(d.log))
  }

  lemma ServedOn(a: Desk, b: Desk, c: Desk)
    requires Served(a, b) && Served(b, c)
    ensures Served(a, c)
  {
  }

  lemma DoServes(d: Desk, op: Op)
    ensures Calls(Do(d, op).log) == Calls(d.log) && Do(d, op).script == d.script
  {
    var e := if op.Register? then Registered(op.s) else Deregistered(op.s);
    assert (d.log + [e])[..|d.log|] == d.log;
  }

  lemma {:induction false} DoAllServes(d: Desk, ops: seq<Op>)
    ensures Calls(DoAll(d, ops).log) == Calls(d.log) && DoAll(d, ops).script == d.script
    decreases |ops|
  {
    if ops != [] {
      DoAllServes(d, ops[..|ops| - 1]);
      DoServes(DoAll(d, ops[..|ops| - 1]), ops[|ops| - 1]);
    }
  }

  lemma PassServes(d: Desk, kind: Kind, s: Socket)
    ensures Served(d, Pass(d, kind, s))
  {
    if s in d.clients {
      assert (d.log + [Call(kind, s)])[..|d.log|] == d.log;
      DoAllServes(Calling(d, kind, s), NextOps(d));
      DoServes(CallBack(d, kind, s), Deregister(s));
    } else {
      DoServes(d, Deregister(s));
    }
  }

  lemma {:induction false} DrainFollows(d: Desk, kind: Kind, q: seq<Socket>)
    ensures Served(d, Drain(d, kind, q))
    decreases |q|
  {
    if q != [] {
      var e := Drain(d, kind, q[..|q| - 1]);
      DrainFollows(d, kind, q[..|q| - 1]);
      PassServes(e, kind, q[|q| - 1]);
      ServedOn(d, e, Drain(d, kind, q));
    }
  }

  // Over a whole drain the callbacks use up the script one part for each call.
  lemma CallsUseTheScript(d: Desk, changes: seq<Change>)
    ensures Served(d, OnCall(d, changes))
  {
    var d1 := Drain(d, OnDisconnect, Selected(changes, OnDisconnect));
    var d2 := Drain(d1, OnCanRead, Selected(changes, OnCanRead));
    var d3 := Drain(d2, OnCanWrite, Selected(changes, OnCanWrite));
    DrainFollows(d, OnDisconnect, Selected(changes, OnDisconnect));
    DrainFollows(d1, OnCanRead, Selected(changes, OnCanRead));
    DrainFollows(d2, OnCanWrite, Selected(changes, OnCanWrite));
    ServedOn(d, d1, d2);
    ServedOn(d, d2, d3);
  }
}
