// The log of a select drain, spelled out: each call is followed at once by
// what its callback asked for, and there is nothing else in it.
module SelectTurns {
  import opened Common
  import opened Dispatch
  import opened SelectDispatch

  // What a callback's requests leave in the log: a registration that the
  // system refuses leaves nothing.
  function Effects(ops: seq<Op>): seq<Event> {
    if ops == [] then []
    else
      Effects(ops[..|ops| - 1]) +
      match ops[|ops| - 1]
      case Register(s, sane) => if sane then [Registered(s)] else []
      case Deregister(s) => [Deregistered(s)]
  }

  function Head(script: seq<seq<Op>>): seq<Op> {
    if script == [] then [] else script[0]
  }

  function Past(script: seq<seq<Op>>, n: nat): seq<seq<Op>> {
    if n <= |script| then script[n..] else []
  }

  // The calls, each with its share of the script.
  function Turns(calls: seq<Event>, script: seq<seq<Op>>): seq<Event>
    decreases calls
  {
    if calls == [] then [] else [calls[0]] + Effects(Head(script)) + Turns(calls[1..], Past(script, 1))
  }

  predicate AllCalls(calls: seq<Event>, kind: Kind) {
    forall i :: 0 <= i < |calls| ==> calls[i].Call? && calls[i].kind == kind
  }

  lemma {:induction false} DoAllLog(d: Desk, ops: seq<Op>)
    ensures DoAll(d, ops).log == d.log + Effects(ops) && DoAll(d, ops).script == d.script
    decreases |ops|
  {
    if ops == [] {
      assert d.log + [] == d.log;
    } else {
      var init := ops[..|ops| - 1];
      DoAllLog(d, init);
      ThreeParts(d.log, Effects(init), Effects([ops[|ops| - 1]]));
      assert Effects(ops) == Effects(init) + Effects([ops[|ops| - 1]]);
    }
  }

  lemma CallBackLog(d: Desk, kind: Kind, s: Socket)
    ensures CallBack(d, kind, s).log == d.log + ([Call(kind, s)] + Effects(Head(d.script)))
    ensures CallBack(d, kind, s).script == Past(d.script, 1)
  {
    DoAllLog(Calling(d, kind, s), NextOps(d));
    ThreeParts(d.log, [Call(kind, s)], Effects(Head(d.script)));
  }

  lemma {:induction false} OneMoreTurn(log: seq<Event>, call: Event, calls: seq<Event>, script: seq<seq<Op>>)
    ensures (log + ([call] + Effects(Head(script)))) + Turns(calls, Past(script, 1))
         == log + Turns([call] + calls, script)
    ensures Past(Past(script, 1), |calls|) == Past(script, |calls| + 1)
  {
    assert ([call] + calls)[1..] == calls;
    ThreeParts(log, [call] + Effects(Head(script)), Turns(calls, Past(script, 1)));
  }

  lemma {:induction false} ReadTurns(d: Desk) returns (calls: seq<Event>)
    ensures DrainRead(d).log == d.log + Turns(calls, d.script) && DrainRead(d).script == Past(d.script, |calls|)
    ensures AllCalls(calls, OnCanRead)
    decreases |d.readable|
  {
    calls := [];
    if d.readable != [] {
      var e, s := d.(readable := d.readable[1..]), d.readable[0];
      CallBackLog(e, OnCanRead, s);
      calls := ReadTurns(CallBack(e, OnCanRead, s));
      OneMoreTurn(d.log, Call(OnCanRead, s), calls, d.script);
      calls := [Call(OnCanRead, s)] + calls;
    }
  }

  lemma {:induction false} WriteTurns(d: Desk) returns (calls: seq<Event>)
    ensures DrainWrite(d).log == d.log + Turns(calls, d.script) && DrainWrite(d).script == Past(d.script, |calls|)
    ensures AllCalls(calls, OnCanWrite)
    decreases |d.writable|
  {
    calls := [];
    if d.writable != [] {
      var e, s := d.(writable := d.writable[1..]), d.writable[0];
      CallBackLog(e, OnCanWrite, s);
      calls := WriteTurns(CallBack(e, OnCanWrite, s));
      OneMoreTurn(d.log, Call(OnCanWrite, s), calls, d.script);
      calls := [Call(OnCanWrite, s)] + calls;
    }
  }

  lemma {:induction false} ErrTurns(d: Desk) returns (calls: seq<Event>)
    ensures DrainErr(d).log == d.log + Turns(calls, d.script) && DrainErr(d).script == Past(d.script, |calls|)
    ensures AllCalls(calls, OnDisconnect)
    decreases |d.err|
  {
    calls := [];
    if d.err != [] {
      var e, s := d.(err := d.err[1..]), d.err[0];
      CallBackLog(e, OnDisconnect, s);
      calls := ErrTurns(CallBack(e, OnDisconnect, s));
      OneMoreTurn(d.log, Call(OnDisconnect, s), calls, d.script);
      calls := [Call(OnDisconnect, s)] + calls;
    }
  }

  // Whatever the clients, the changes and the script: the log consists of
  // reads, then writes, then disconnections, each followed by the effects of
  // the next part of the script, and of nothing else.
  lemma SelectLogIs(clients: seq<Socket>, script: seq<seq<Op>>, c: Changes)
    returns (ins: seq<Event>, outs: seq<Event>, errs: seq<Event>)
    ensures AllCalls(ins, OnCanRead) && AllCalls(outs, OnCanWrite) && AllCalls(errs, OnDisconnect)
    ensures HandleChanges(Begin(clients, script), c).log
            == Turns(ins, script) + Turns(outs, Past(script, |ins|))
               + Turns(errs, Past(script, |ins| + |outs|))
  {
    var d := Filled(Begin(clients, script), c);
    ins := ReadTurns(d);
    outs := WriteTurns(DrainRead(d));
    errs := ErrTurns(DrainWrite(DrainRead(d)));
    NothingBefore(Turns(ins, script));
    PastBoth(script, |ins|, |outs|);
  }

  lemma PastBoth(script: seq<seq<Op>>, m: nat, n: nat)
    ensures Past(Past(script, m), n) == Past(script, m + n)
  {
  }
}
