// A whole life, from the constructor of a message to the return of run(): for
// every list of interfaces and every filter there is a run that reports the
// filtered list and ends by itself.
module HandOffLife {
  import opened Common
  import opened NetInterface
  import opened HandOff
  import opened HandOffInvariant
  import opened HandOffTheorems
  import opened HandOffRounds
  import opened HandOffExit

  // The message after k interfaces have been written, seen and filtered.
  function Mail(script: seq<NetworkInterface>, filter: Family, k: nat, slot: Option<NetworkInterface>): Message
    requires k <= |script|
  {
    Message(true, MsgFree, false, false, Outside, slot, script, k, filter, script[..k], Filtered(filter, script[..k]))
  }

  ghost predicate Alone(s: State) {
    forall m :: m in s.msgs <==> m == 0
  }

  // The loop at its top, one timer set, the worker between two calls.
  ghost predicate Between(s: State, script: seq<NetworkInterface>, filter: Family, k: nat) {
    && k <= |script| && Alone(s) && s.msgs[0] == Mail(script, filter, k, s.msgs[0].slot)
    && s.loopMutex == LoopFree && !s.loopFlag && s.queue == []
    && s.main == Top && s.timers == 1 && s.msgCnt == 1 && s.running
  }

  lemma Begins(script: seq<NetworkInterface>, filter: Family) returns (acts: seq<Action>)
    ensures CanRun(Initial, acts) && Between(Run(Initial, acts), script, filter, 0)
  {
    acts := [Create(0, script, filter), Start(0), TimersBecome(1), Return];
    var m := Message(true, MsgFree, false, false, NotStarted, None, script, 0, filter, [], []);
    var s1 := Initial.(msgs := map[0 := m], msgCnt := 1);
    var s2 := s1.(msgs := map[0 := m.(pc := Outside)]);
    var s3 := s2.(timers := 1);
    Two(s2, TimersBecome(1), s3, Return, s3.(main := Top, running := true));
    Two(Initial, Create(0, script, filter), s1, Start(0), s2);
    Both(Initial, [Create(0, script, filter), Start(0)], s2, [TimersBecome(1), Return],
         s3.(main := Top, running := true));
    assert [Create(0, script, filter), Start(0)] + [TimersBecome(1), Return] == acts;
  }

  // Worker steps leave the rest of the loop alone while it is awake.
  lemma {:induction false} WorkersLeave(s: State, acts: seq<Action>)
    requires CanRun(s, acts) && !s.main.LoopAsleep? && forall i :: 0 <= i < |acts| ==> acts[i].WorkerStep?
    ensures Run(s, acts).main == s.main && Run(s, acts).timers == s.timers
    decreases acts
  {
    if acts != [] {
      assert acts[0].WorkerStep?;
      assert forall i :: 0 <= i < |acts[1..]| ==> acts[1..][i] == acts[i + 1];
      WorkersLeave(Step(s, acts[0]), acts[1..]);
    }
  }

  lemma OneCall(s: State, script: seq<NetworkInterface>, filter: Family, k: nat) returns (t: State)
    requires Between(s, script, filter, k) && k < |script|
    ensures Leads(s, CallTurns(0), t)
    ensures Alone(t) && t.msgs[0] == Mail(script, filter, k, Some(script[k])).(flag := true, pos := k + 1)
    ensures t.loopMutex == LoopFree && t.loopFlag && t.queue == [0]
    ensures t.main == Top && t.timers == 1 && t.msgCnt == 1 && t.running
  {
    t := CallOn(s, Mail(script, filter, k, s.msgs[0].slot));
    CallIsTheWorkers();
    WorkersLeave(s, CallTurns(0));
  }

  lemma CallOn(s: State, x: Message) returns (t: State)
    requires Alone(s) && s.msgs[0] == x && x.pc == Outside && x.pos < |x.script| && x.mutex == MsgFree
    requires !x.flag && !x.destroyed && s.loopMutex == LoopFree && s.queue == []
    ensures Leads(s, CallTurns(0), t)
    ensures Alone(t) && t.msgs[0] == x.(slot := Some(x.script[x.pos]), flag := true, pos := x.pos + 1)
    ensures t.loopMutex == LoopFree && t.loopFlag && t.queue == [0] && t.msgCnt == s.msgCnt && t.running == s.running
  {
    t := WorkerCalls(s, 0);
    NothingBefore([0]);
  }

  lemma CallIsTheWorkers()
    ensures forall i :: 0 <= i < |CallTurns(0)| ==> CallTurns(0)[i].WorkerStep?
  {
  }

  const ROUND := TO_CHECK + TO_POP + POP + TO_CALL

  lemma OneRound(s: State, script: seq<NetworkInterface>, filter: Family, k: nat) returns (t: State)
    requires Reachable(s) && k < |script|
    requires Alone(s) && s.msgs[0] == Mail(script, filter, k, Some(script[k])).(flag := true, pos := k + 1)
    requires s.loopMutex == LoopFree && s.loopFlag && s.queue == [0]
    requires s.main == Top && s.timers == 1 && s.msgCnt == 1 && s.running
    ensures Leads(s, ROUND, t) && t.main == Client(InOnCall) && t.processed == Some(0)
    ensures Alone(t) && t.msgs[0] == Mail(script, filter, k + 1, Some(script[k])).(flag := true)
    ensures t.loopMutex == LoopFree && !t.loopFlag && t.queue == [] && t.timers == 1 && t.msgCnt == 1 && t.running
  {
    LoopTakesMessage(s);
    t := Run(s, ROUND);
    StaysReachable(s, ROUND);
    MailboxFifo(t, 0);
    assert script[..k] + [script[k]] == script[..k + 1];
  }

  // The callback returns, the timer is not due, and the loop goes round.
  lemma BackToTop(s: State, m: MsgId)
    requires s.main == Client(InOnCall) && s.processed == Some(m) && m in s.msgs && s.msgs[m].mutex == MsgFree
    requires s.timers == 1 && s.running
    ensures Leads(s, TO_DRAIN + [TimersNotDue, MainStep], s.(msgs := s.msgs[m := Released(s.msgs[m])], main := Top))
  {
    var t := s.(msgs := s.msgs[m := Released(s.msgs[m])], main := Drain);
    LoopFinishesMessage(s, m);
    Two(t, TimersNotDue, t.(main := ExitCheck), MainStep, t.(main := Top));
    Both(s, TO_DRAIN, t, [TimersNotDue, MainStep], t.(main := Top));
  }

  // One interface more: the worker calls, the loop takes the message, reports,
  // and comes back to its top.
  lemma OneInterface(s: State, script: seq<NetworkInterface>, filter: Family, k: nat)
    returns (acts: seq<Action>, t: State)
    requires Reachable(s) && Between(s, script, filter, k) && k < |script|
    ensures Leads(s, acts, t) && Between(t, script, filter, k + 1) && Reachable(t)
  {
    var s1 := OneCall(s, script, filter, k);
    StaysReachable(s, CallTurns(0));
    var s2 := OneRound(s1, script, filter, k);
    BackToTop(s2, 0);
    t := s2.(msgs := s2.msgs[0 := Released(s2.msgs[0])], main := Top);
    Both(s, CallTurns(0), s1, ROUND, s2);
    Both(s, CallTurns(0) + ROUND, s2, TO_DRAIN + [TimersNotDue, MainStep], t);
    acts := CallTurns(0) + ROUND + (TO_DRAIN + [TimersNotDue, MainStep]);
    StaysReachable(s, acts);
  }

  lemma {:induction false} AllInterfaces(s: State, script: seq<NetworkInterface>, filter: Family, k: nat)
    returns (acts: seq<Action>, t: State)
    requires Reachable(s) && Between(s, script, filter, k)
    ensures Leads(s, acts, t) && Between(t, script, filter, |script|) && Reachable(t)
    decreases |script| - k
  {
    if k == |script| {
      Stay(s);
      acts, t := [], s;
    } else {
      var one, u := OneInterface(s, script, filter, k);
      var more;
      more, t := AllInterfaces(u, script, filter, k + 1);
      Both(s, one, u, more, t);
      acts := one + more;
    }
  }

  // ---------- the end ----------

  // Nothing is queued, and the timer runs out while the loop sleeps.
  const TO_SLEEP := TO_CHECK + TO_POP
  const SLEEP_OVER := [Timeout, MainStep]
  const NO_MESSAGE := [MainStep, MainStep]

  lemma SleepsUntilTimer(s: State)
    requires s.main == Top && s.running && s.loopMutex == LoopFree && !s.loopFlag && s.timers > 0
    ensures Leads(s, TO_SLEEP + SLEEP_OVER, s.(processed := None, loopMutex := LoopByMain, main := LoopPop))
  {
    var s1 := s.(processed := None, loopMutex := LoopByMain, main := LoopCheck(true));
    var s2 := s.(processed := None, main := LoopAsleep(true));
    ReachesCheck(s);
    One(s1, MainStep);
    Both(s, TO_CHECK, s1, TO_POP, s2);
    Wakes(s2);
    Both(s, TO_SLEEP, s2, SLEEP_OVER, s2.(loopMutex := LoopByMain, main := LoopPop));
  }

  lemma PopsNothing(s: State)
    requires s.main == LoopPop && s.queue == [] && s.processed == None && !s.loopFlag
    ensures Leads(s, POP + NO_MESSAGE, s.(loopMutex := LoopFree, main := Drain))
  {
    var t := s.(loopMutex := LoopFree, main := CallStart);
    Two(s, MainStep, s.(main := LoopSet), MainStep, s.(main := LoopUnlock));
    Go(s.(main := LoopUnlock), MainStep, t, [], t);
    Both(s, [MainStep, MainStep], s.(main := LoopUnlock), [MainStep] + [], t);
    assert [MainStep, MainStep] + ([MainStep] + []) == POP;
    Two(t, MainStep, t.(main := AfterCall), MainStep, t.(main := Drain));
    Both(s, POP, t, NO_MESSAGE, t.(main := Drain));
  }

  const LEAVES := [AskTermination(0), MainStep] + TERMINATE + [MainStep] + [Join(0), MainStep]

  // In the timer's callback the client ends the thread and the message.
  lemma Leaves(s: State)
    requires s.main == Client(InOnTimer) && Alive(s, 0) && s.msgs[0].pc == Exited && s.msgs[0].mutex == MsgFree
    ensures Leads(s, LEAVES, s.(msgs := s.msgs[0 := s.msgs[0].(destroyed := true, flag := false)]))
  {
    var t := s.(msgs := s.msgs[0 := s.msgs[0].(destroyed := true, flag := false)]);
    TerminationMarks(s, 0);
    JoinWaits(t, 0);
    Both(s, [AskTermination(0), MainStep] + TERMINATE + [MainStep], t, [Join(0), MainStep], t);
  }

  // The worker has walked its list; nothing else is pending.
  ghost predicate Through(s: State, script: seq<NetworkInterface>, filter: Family) {
    && Alone(s) && s.msgs[0] == Mail(script, filter, |script|, s.msgs[0].slot).(pc := Exited)
    && s.loopMutex == LoopFree && !s.loopFlag && s.queue == [] && s.msgCnt == 1 && s.running
  }

  lemma WorkerIsThrough(s: State, script: seq<NetworkInterface>, filter: Family) returns (t: State)
    requires Between(s, script, filter, |script|)
    ensures Leads(s, Turns(0, 1), t) && Through(t, script, filter) && t.main == Top && t.timers == 1
  {
    WorkerEnds(s, 0);
    t := Put(s, 0, s.msgs[0].(pc := Exited));
  }

  lemma TimerFires(s: State, script: seq<NetworkInterface>, filter: Family) returns (t: State)
    requires Through(s, script, filter) && s.main == Top && s.timers == 1
    ensures Leads(s, TO_SLEEP + SLEEP_OVER + (POP + NO_MESSAGE) + [FireTimer], t)
    ensures Through(t, script, filter) && t.main == Client(InOnTimer) && t.timers == 0 && t.processed == None
  {
    var s1 := s.(processed := None, loopMutex := LoopByMain, main := LoopPop);
    var s2 := s.(processed := None, main := Drain);
    SleepsUntilTimer(s);
    PopsNothing(s1);
    Both(s, TO_SLEEP + SLEEP_OVER, s1, POP + NO_MESSAGE, s2);
    One(s2, FireTimer);
    t := Step(s2, FireTimer);
    Both(s, TO_SLEEP + SLEEP_OVER + (POP + NO_MESSAGE), s2, [FireTimer], t);
  }

  const GOES := [Destroy(0), Return, MainStep]

  lemma MessageGoes(s: State)
    requires s.main == Client(InOnTimer) && Alive(s, 0) && s.msgs[0].pc == Exited && s.timers == 0
    ensures Leads(s, GOES, Step(s, Destroy(0)).(main := ExitCheck))
  {
    var t := Step(s, Destroy(0));
    Two(t, Return, t.(main := Drain), MainStep, t.(main := ExitCheck));
    Go(s, Destroy(0), t, [Return, MainStep], t.(main := ExitCheck));
    assert [Destroy(0)] + [Return, MainStep] == GOES;
  }

  // Nobody lives, and the worker had walked its list.
  ghost predicate Over(s: State, script: seq<NetworkInterface>, filter: Family) {
    && Alone(s)
    && s.msgs[0] == Mail(script, filter, |script|, s.msgs[0].slot).(pc := Exited, destroyed := true, alive := false)
  }

  lemma LeavesAndGoes(s: State, script: seq<NetworkInterface>, filter: Family) returns (t: State)
    requires Through(s, script, filter) && s.main == Client(InOnTimer) && s.timers == 0
    ensures Leads(s, LEAVES + GOES, t) && Over(t, script, filter) && t.main == ExitCheck && t.timers == 0
  {
    var u := s.(msgs := s.msgs[0 := s.msgs[0].(destroyed := true, flag := false)]);
    Leaves(s);
    MessageGoes(u);
    t := Step(u, Destroy(0)).(main := ExitCheck);
    Both(s, LEAVES, u, GOES, t);
  }

  lemma Ends(s: State, script: seq<NetworkInterface>, filter: Family) returns (t: State)
    requires Reachable(s) && Over(s, script, filter) && s.main == ExitCheck && s.timers == 0
    ensures Leads(s, [MainStep, MainStep], t) && Over(t, script, filter) && t.main == Done
  {
    assert Live(s) == {};
    RunReturnsIff(s);
    t := Run(s, [MainStep, MainStep]);
  }

  const TIMER := TO_SLEEP + SLEEP_OVER + (POP + NO_MESSAGE) + [FireTimer]

  // From between two calls with the whole list walked to the return of run().
  lemma LastRound(s: State, script: seq<NetworkInterface>, filter: Family) returns (acts: seq<Action>, t: State)
    requires Reachable(s) && Between(s, script, filter, |script|)
    ensures Leads(s, acts, t) && Over(t, script, filter) && t.main == Done
  {
    var s1 := WorkerIsThrough(s, script, filter);
    var s2 := TimerFires(s1, script, filter);
    Both(s, Turns(0, 1), s1, TIMER, s2);
    var s3 := LeavesAndGoes(s2, script, filter);
    Both(s, Turns(0, 1) + TIMER, s2, LEAVES + GOES, s3);
    StaysReachable(s, Turns(0, 1) + TIMER + (LEAVES + GOES));
    t := Ends(s3, script, filter);
    acts := Turns(0, 1) + TIMER + (LEAVES + GOES) + [MainStep, MainStep];
    Both(s, Turns(0, 1) + TIMER + (LEAVES + GOES), s3, [MainStep, MainStep], t);
  }

  // For every list and every filter some run goes from the constructor to the
  // return of run(): the loop has seen the whole list, the delegate has been
  // told of the filtered list, and the message has been destroyed.
  lemma WholeLife(script: seq<NetworkInterface>, filter: Family) returns (acts: seq<Action>)
    ensures CanRun(Initial, acts)
    ensures var t := Run(Initial, acts);
            && t.main == Done && 0 in t.msgs && Live(t) == {}
            && t.msgs[0].seen == script && t.msgs[0].reported == Filtered(filter, script)
  {
    var begin := Begins(script, filter);
    var s := Run(Initial, begin);
    assert Reachable(s);
    var walk, u := AllInterfaces(s, script, filter, 0);
    var last, t := LastRound(u, script, filter);
    Both(Initial, begin, s, walk, u);
    Both(Initial, begin + walk, u, last, t);
    acts := begin + walk + last;
    assert script[..|script|] == script;
  }

  // ---------- what else may happen to a worker, and stop() ----------

  // A spurious wake-up makes a worker take the mutex and ask for its flag
  // again; run() of a worker may also end early, between two calls.
  lemma WorkerWakesOrQuits(s: State, w: MsgId)
    requires w in s.msgs
    ensures s.msgs[w].pc == Asleep && s.msgs[w].mutex == MsgFree ==>
              Leads(s, [WorkerSpurious(w), WorkerStep(w)], Put(s, w, s.msgs[w].(pc := Checking, mutex := HeldByWorker)))
    ensures s.msgs[w].pc == Outside ==> Leads(s, [WorkerQuit(w)], Put(s, w, s.msgs[w].(pc := Exited)))
  {
    if s.msgs[w].pc == Asleep && s.msgs[w].mutex == MsgFree {
      var x := s.msgs[w].(pc := WantMsg);
      PutTwice(s, w, x, Advance(x));
      Two(s, WorkerSpurious(w), Put(s, w, x), WorkerStep(w), Put(s, w, Advance(x)));
    } else if s.msgs[w].pc == Outside {
      One(s, WorkerQuit(w));
    }
  }

  // stop() in a timer's callback ends run() in this round, whatever lives.
  lemma StopEndsRun(s: State)
    requires s.main == Client(InOnTimer) && s.timers == 0
    ensures Leads(s, [Stop, Return] + ([MainStep, MainStep] + [MainStep]),
                  s.(running := false, stopped := true, main := Done))
  {
    var t := s.(running := false, stopped := true);
    var u := t.(main := Drain);
    var v := t.(main := Top);
    Two(s, Stop, t, Return, u);
    Two(u, MainStep, u.(main := ExitCheck), MainStep, v);
    One(v, MainStep);
    Both(u, [MainStep, MainStep], v, [MainStep], t.(main := Done));
    Both(s, [Stop, Return], u, [MainStep, MainStep] + [MainStep], t.(main := Done));
  }
}
