// What the threads do when nobody is in their way: one round of the loop, one
// call of a worker, one termination, written out from start to end.
module HandOffRounds {
  import opened Common
  import opened NetInterface
  import opened HandOff
  import opened HandOffInvariant
  import opened HandOffMain
  import opened HandOffTheorems
  import opened LoopImage

  ghost predicate Leads(s: State, acts: seq<Action>, t: State) {
    CanRun(s, acts) && Run(s, acts) == t
  }

  lemma Stay(s: State)
    ensures Leads(s, [], s)
  {
  }

  lemma Go(s: State, a: Action, t: State, rest: seq<Action>, u: State)
    requires Enabled(s, a) && Step(s, a) == t && Leads(t, rest, u)
    ensures Leads(s, [a] + rest, u)
  {
    FirstStep(s, a, rest);
  }

  lemma Two(s: State, a: Action, t: State, b: Action, u: State)
    requires Enabled(s, a) && Step(s, a) == t && Enabled(t, b) && Step(t, b) == u
    ensures Leads(s, [a, b], u)
  {
    Go(t, b, u, [], u);
    Go(s, a, t, [b], u);
    assert [b] + [] == [b] && [a] + [b] == [a, b];
  }

  lemma Both(s: State, xs: seq<Action>, t: State, ys: seq<Action>, u: State)
    requires Leads(s, xs, t) && Leads(t, ys, u)
    ensures Leads(s, xs + ys, u)
  {
    RunConcat(s, xs, ys);
  }

  // ---------- a round of the loop ----------

  const TO_CHECK := [MainStep, MainStep]
  const TO_POP := [MainStep]
  const POP := [MainStep, MainStep, MainStep]
  const TO_CALL := [MainStep]

  lemma ReachesCheck(s: State)
    requires s.main == Top && s.running && s.loopMutex == LoopFree
    ensures Leads(s, TO_CHECK, s.(processed := None, loopMutex := LoopByMain, main := LoopCheck(s.timers != 0)))
  {
    var t := s.(processed := None, main := WantLoop(s.timers != 0));
    Two(s, MainStep, t, MainStep, t.(loopMutex := LoopByMain, main := LoopCheck(s.timers != 0)));
  }

  lemma One(s: State, a: Action)
    requires Enabled(s, a)
    ensures Leads(s, [a], Step(s, a))
  {
    Stay(Step(s, a));
    Go(s, a, Step(s, a), [], Step(s, a));
    assert [a] + [] == [a];
  }

  lemma Pops(s: State)
    requires s.main == LoopPop && s.queue != []
    ensures Leads(s, POP, s.(processed := Some(s.queue[0]), queue := s.queue[1..], loopFlag := s.queue[1..] != [],
                             loopMutex := LoopFree, main := CallStart))
  {
    var t := s.(processed := Some(s.queue[0]), queue := s.queue[1..], main := LoopSet);
    var u := t.(loopFlag := t.queue != [], main := LoopUnlock);
    var v := u.(loopMutex := LoopFree, main := CallStart);
    Two(t, MainStep, u, MainStep, v);
    Go(s, MainStep, t, [MainStep, MainStep], v);
    assert [MainStep] + [MainStep, MainStep] == POP;
  }

  // The loop at its top, its mutex free and messages waiting: seven steps of
  // its own take the oldest one into its onCall, which sees what the worker
  // wrote, and the flag then says whether more wait.
  lemma LoopTakesMessage(s: State)
    requires Reachable(s) && s.main == Top && s.running && s.loopMutex == LoopFree && s.queue != []
    ensures var acts := TO_CHECK + TO_POP + POP + TO_CALL;
            CanRun(s, acts) &&
            var (t, m) := (Run(s, acts), s.queue[0]);
            && m in s.msgs && m in t.msgs
            && t.main == Client(InOnCall) && t.processed == Some(m) && t.queue == s.queue[1..]
            && t.loopFlag == (|s.queue| > 1) && t.loopMutex == LoopFree
            && t.timers == s.timers && t.msgCnt == s.msgCnt && t.running
            && s.msgs[m].slot.Some? && t.msgs[m].seen == s.msgs[m].seen + [s.msgs[m].slot.value]
            && t.msgs == s.msgs[m := s.msgs[m].(seen := t.msgs[m].seen, reported := t.msgs[m].reported)]
  {
    ReachableInv(s);
    var m := s.queue[0];
    assert LocalInv(s.msgs[m], ViewOf(s, m));
    var s1 := s.(processed := None, loopMutex := LoopByMain, main := LoopCheck(s.timers != 0));
    ReachesCheck(s);
    var s2 := s1.(main := LoopPop);
    One(s1, MainStep);
    Both(s, TO_CHECK, s1, TO_POP, s2);
    var s3 := s2.(processed := Some(m), queue := s.queue[1..], loopFlag := s.queue[1..] != [],
                  loopMutex := LoopFree, main := CallStart);
    Pops(s2);
    Both(s, TO_CHECK + TO_POP, s2, POP, s3);
    One(s3, MainStep);
    Both(s, TO_CHECK + TO_POP + POP, s3, TO_CALL, Step(s3, MainStep));
  }

  function Released(msg: Message): Message {
    msg.(flag := false, pc := if msg.pc == Asleep then WantMsg else msg.pc)
  }

  const TO_DRAIN := [Return, MainStep] + POP

  lemma ClearsFlag(s: State, m: MsgId)
    requires s.main == ClearWant && s.processed == Some(m) && m in s.msgs && s.msgs[m].mutex == MsgFree
    ensures Leads(s, POP, s.(msgs := s.msgs[m := Released(s.msgs[m])], main := Drain))
  {
    var t := s.(msgs := s.msgs[m := s.msgs[m].(mutex := HeldByMain)], main := ClearHeld);
    HeldClearsFlag(s, m);
    Go(s, MainStep, t, [MainStep, MainStep], s.(msgs := s.msgs[m := Released(s.msgs[m])], main := Drain));
    assert [MainStep] + [MainStep, MainStep] == POP;
  }

  lemma HeldClearsFlag(s: State, m: MsgId)
    requires s.processed == Some(m) && m in s.msgs && s.msgs[m].mutex == MsgFree
    ensures Leads(s.(msgs := s.msgs[m := s.msgs[m].(mutex := HeldByMain)], main := ClearHeld), [MainStep, MainStep],
                  s.(msgs := s.msgs[m := Released(s.msgs[m])], main := Drain))
  {
    var held := s.msgs[m].(mutex := HeldByMain);
    var t := s.(msgs := s.msgs[m := held], main := ClearHeld);
    var u := s.(msgs := s.msgs[m := Released(held)], main := Cleared);
    var v := s.(msgs := s.msgs[m := Released(s.msgs[m])], main := Drain);
    assert t.msgs[m := Released(held)] == u.msgs;
    assert u.msgs[m := Released(s.msgs[m])] == v.msgs;
    Two(t, MainStep, u, MainStep, v);
  }

  // The callback returns and the message's mutex is free: the message's flag
  // is cleared, and its worker is awake if it slept on it.  When the message
  // was destroyed meanwhile, nothing of this happens.
  lemma LoopFinishesMessage(s: State, m: MsgId)
    requires s.main == Client(InOnCall) && s.processed == Some(m) && m in s.msgs && s.msgs[m].mutex == MsgFree
    ensures Leads(s, TO_DRAIN, s.(msgs := s.msgs[m := Released(s.msgs[m])], main := Drain))
  {
    var t := s.(main := ClearWant);
    Two(s, Return, s.(main := AfterCall), MainStep, t);
    ClearsFlag(t, m);
    Both(s, [Return, MainStep], t, POP, s.(msgs := s.msgs[m := Released(s.msgs[m])], main := Drain));
  }

  lemma LoopForgetsMessage(s: State)
    requires s.main == Client(InOnCall) && s.processed.None?
    ensures Leads(s, [Return, MainStep], s.(main := Drain))
  {
    Two(s, Return, s.(main := AfterCall), MainStep, s.(main := Drain));
  }

  // ---------- timers ----------

  function Rounds(n: nat): seq<Action> {
    if n == 0 then [] else [FireTimer, Return] + Rounds(n - 1)
  }

  // n timers are due and their callbacks touch nothing: all of them fire in
  // this round, one after the other, before the exit check.
  lemma {:induction false} DueTimersFire(s: State, n: nat)
    requires s.main == Drain && n <= s.timers
    ensures Leads(s, Rounds(n), s.(timers := s.timers - n))
    ensures var t := s.(timers := s.timers - n);
            if s.timers == n then Leads(t, [MainStep], t.(main := ExitCheck))
            else Leads(t, [TimersNotDue], t.(main := ExitCheck))
    decreases n
  {
    var t := s.(timers := s.timers - n);
    One(t, if s.timers == n then MainStep else TimersNotDue);
    if n == 0 {
      Stay(s);
    } else {
      var u := s.(timers := s.timers - 1);
      Two(s, FireTimer, u.(main := Client(InOnTimer)), Return, u);
      DueTimersFire(u, n - 1);
      Both(s, [FireTimer, Return], u, Rounds(n - 1), t);
    }
  }

  // ---------- waiting ----------

  // The wait has a time limit when timers are set.
  predicate TimedRight(s: State) {
    match s.main
    case WantLoop(timed) => timed <==> s.timers > 0
    case LoopCheck(timed) => timed <==> s.timers > 0
    case LoopAsleep(timed) => timed <==> s.timers > 0
    case LoopRetake(timed, out) => (timed <==> s.timers > 0) && (out ==> timed)
    case _ => true
  }

  lemma WorkerKeepsTimed(s: State, w: MsgId)
    requires TimedRight(s) && WorkerCanStep(s, w)
    ensures TimedRight(StepWorker(s, w))
  {
  }

  lemma MainKeepsTimed(s: State)
    requires TimedRight(s) && MainCanStep(s)
    ensures TimedRight(StepMain(s))
  {
  }

  lemma StepKeepsTimed(s: State, a: Action)
    requires TimedRight(s) && Enabled(s, a)
    ensures TimedRight(Step(s, a))
  {
    if a.WorkerStep? {
      WorkerKeepsTimed(s, a.w);
    } else if a.MainStep? {
      MainKeepsTimed(s);
    }
  }

  lemma {:induction false} RunKeepsTimed(s: State, acts: seq<Action>)
    requires TimedRight(s) && CanRun(s, acts)
    ensures TimedRight(Run(s, acts))
    decreases acts
  {
    if acts != [] {
      StepKeepsTimed(s, acts[0]);
      RunKeepsTimed(Step(s, acts[0]), acts[1..]);
    }
  }

  // In every reachable state: the loop thread, holding its mutex, goes to
  // sleep just when the flag is not set, and gives the mutex up; asleep, it
  // can time out just when a timer is set, and then goes on to the timers
  // without asking for the flag; a spurious wake-up asks for it again.
  lemma LoopWaitsIff(s: State)
    requires Reachable(s)
    ensures s.main.LoopCheck? ==>
              && MainCanStep(s)
              && StepMain(s) == if s.loopFlag then s.(main := LoopPop)
                                else s.(loopMutex := LoopFree, main := LoopAsleep(s.timers > 0))
    ensures s.main.LoopAsleep? ==>
              && !s.loopFlag && !MainCanStep(s) && (Enabled(s, Timeout) <==> s.timers > 0)
              && (s.timers > 0 && s.loopMutex == LoopFree ==>
                    Leads(s, [Timeout, MainStep], s.(loopMutex := LoopByMain, main := LoopPop)))
              && (s.loopMutex == LoopFree ==>
                    Leads(s, [MainSpurious, MainStep], s.(loopMutex := LoopByMain, main := LoopCheck(s.timers > 0))))
  {
    SleeperFacts(s);
    if s.main.LoopAsleep? && s.loopMutex == LoopFree {
      Wakes(s);
    }
  }

  lemma SleeperFacts(s: State)
    requires Reachable(s)
    ensures TimedRight(s) && (s.main.LoopAsleep? ==> !s.loopFlag)
  {
    var acts :| CanRun(Initial, acts) && Run(Initial, acts) == s;
    RunKeepsTimed(Initial, acts);
    ReachableInv(s);
  }

  lemma Wakes(s: State)
    requires s.main.LoopAsleep? && s.loopMutex == LoopFree
    ensures s.main.timed ==>
              Leads(s, [Timeout, MainStep], s.(loopMutex := LoopByMain, main := LoopPop))
    ensures Leads(s, [MainSpurious, MainStep], s.(loopMutex := LoopByMain, main := LoopCheck(s.main.timed)))
  {
    var timed := s.main.timed;
    if timed {
      Two(s, Timeout, s.(main := LoopRetake(true, true)), MainStep, s.(loopMutex := LoopByMain, main := LoopPop));
    }
    Two(s, MainSpurious, s.(main := LoopRetake(timed, false)),
        MainStep, s.(loopMutex := LoopByMain, main := LoopCheck(timed)));
  }

  // ---------- a call of a worker ----------

  function Turns(w: MsgId, n: nat): seq<Action> {
    seq(n, _ => WorkerStep(w))
  }

  // One step of the worker more, on a message that only it changes.
  lemma OneTurn(s: State, w: MsgId, n: nat, x: Message)
    requires w in s.msgs && Leads(s, Turns(w, n), Put(s, w, x)) && WorkerCanStep(Put(s, w, x), w) && !InEnqueue(x.pc)
    ensures Leads(s, Turns(w, n + 1), Put(s, w, Advance(x)))
  {
    PutTwice(s, w, x, Advance(x));
    One(Put(s, w, x), WorkerStep(w));
    Both(s, Turns(w, n), Put(s, w, x), [WorkerStep(w)], Put(s, w, Advance(x)));
    assert Turns(w, n) + [WorkerStep(w)] == Turns(w, n + 1);
  }

  lemma NoTurn(s: State, w: MsgId)
    requires w in s.msgs
    ensures Leads(s, Turns(w, 0), Put(s, w, s.msgs[w]))
  {
    Stay(s);
    assert Put(s, w, s.msgs[w]).msgs == s.msgs;
  }

  // The worker finds the flag set, so the call before is not through: it
  // sleeps, and the mutex is free.
  lemma WorkerBlocks(s: State, w: MsgId)
    requires w in s.msgs && s.msgs[w].pc == Outside && s.msgs[w].pos < |s.msgs[w].script|
    requires s.msgs[w].mutex == MsgFree && s.msgs[w].flag
    ensures Leads(s, Turns(w, 3), Put(s, w, s.msgs[w].(pc := Asleep)))
  {
    var msg := s.msgs[w];
    NoTurn(s, w);
    OneTurn(s, w, 0, msg);
    OneTurn(s, w, 1, msg.(pc := WantMsg));
    OneTurn(s, w, 2, msg.(pc := Checking, mutex := HeldByWorker));
  }

  lemma WorkerEnds(s: State, w: MsgId)
    requires w in s.msgs && s.msgs[w].pc == Outside && s.msgs[w].pos >= |s.msgs[w].script|
    ensures Leads(s, Turns(w, 1), Put(s, w, s.msgs[w].(pc := Exited)))
  {
    NoTurn(s, w);
    OneTurn(s, w, 0, s.msgs[w]);
  }

  // ... up to call(): the interface is written and the flag set.
  lemma WorkerWrites(s: State, w: MsgId)
    requires w in s.msgs && s.msgs[w].pc == Outside && s.msgs[w].pos < |s.msgs[w].script|
    requires s.msgs[w].mutex == MsgFree && !s.msgs[w].flag && !s.msgs[w].destroyed
    ensures Leads(s, Turns(w, 6), Put(s, w, s.msgs[w].(pc := Flagged, mutex := HeldByWorker, flag := true,
                                                       slot := Some(s.msgs[w].script[s.msgs[w].pos]))))
  {
    var msg := s.msgs[w];
    WorkerEnters(s, w);
    OneTurn(s, w, 4, msg.(pc := Writing, mutex := HeldByWorker));
    OneTurn(s, w, 5, msg.(pc := Written, mutex := HeldByWorker, slot := Some(msg.script[msg.pos])));
  }

  lemma WorkerEnters(s: State, w: MsgId)
    requires w in s.msgs && s.msgs[w].pc == Outside && s.msgs[w].pos < |s.msgs[w].script|
    requires s.msgs[w].mutex == MsgFree && !s.msgs[w].flag && !s.msgs[w].destroyed
    ensures Leads(s, Turns(w, 4), Put(s, w, s.msgs[w].(pc := Writing, mutex := HeldByWorker)))
  {
    var msg := s.msgs[w];
    NoTurn(s, w);
    OneTurn(s, w, 0, msg);
    OneTurn(s, w, 1, msg.(pc := WantMsg));
    OneTurn(s, w, 2, msg.(pc := Checking, mutex := HeldByWorker));
    OneTurn(s, w, 3, msg.(pc := Entered, mutex := HeldByWorker));
  }

  function CallTurns(w: MsgId): seq<Action> {
    Turns(w, 6) + OwnSteps(w) + [WorkerStep(w)]
  }

  // A whole call when both mutexes are free: the next interface of the list is
  // in the shared field, the message is queued, both flags are set, and the
  // worker is behind the call with the mutexes free again.
  lemma WorkerCalls(s: State, w: MsgId) returns (t: State)
    requires w in s.msgs && s.msgs[w].pc == Outside && s.msgs[w].pos < |s.msgs[w].script|
    requires s.msgs[w].mutex == MsgFree && !s.msgs[w].flag && !s.msgs[w].destroyed && s.loopMutex == LoopFree
    ensures Leads(s, CallTurns(w), t)
    ensures t.msgs == s.msgs[w := s.msgs[w].(slot := Some(s.msgs[w].script[s.msgs[w].pos]), flag := true,
                                             pos := s.msgs[w].pos + 1)]
    ensures ImageOf(t) == ImageOf(s).(queue := s.queue + [w], flag := true) && t.loopMutex == LoopFree
    ensures t.queue == s.queue + [w] && t.loopFlag && t.msgCnt == s.msgCnt && t.running == s.running
  {
    var v := CallEnqueues(s, w);
    WorkerReleases(v, w);
    t := StepWorker(v, w);
    Both(s, Turns(w, 6) + OwnSteps(w), v, [WorkerStep(w)], t);
    TwiceIsOnce(s.msgs, w, InCall(s.msgs[w]), t.msgs[w]);
  }

  // ... before the message's mutex is released.
  function InCall(msg: Message): Message
    requires msg.pos < |msg.script|
  {
    msg.(pc := Called, mutex := HeldByWorker, flag := true, slot := Some(msg.script[msg.pos]))
  }

  lemma CallEnqueues(s: State, w: MsgId) returns (v: State)
    requires w in s.msgs && s.msgs[w].pc == Outside && s.msgs[w].pos < |s.msgs[w].script|
    requires s.msgs[w].mutex == MsgFree && !s.msgs[w].flag && !s.msgs[w].destroyed && s.loopMutex == LoopFree
    ensures Leads(s, Turns(w, 6) + OwnSteps(w), v) && v.msgs == s.msgs[w := InCall(s.msgs[w])]
    ensures ImageOf(v) == ImageOf(s).(queue := s.queue + [w], flag := true) && v.loopMutex == LoopFree
  {
    var u := Put(s, w, InCall(s.msgs[w]).(pc := Flagged));
    WorkerWrites(s, w);
    EnqueueIsFourSteps(u, w);
    v := Run(u, OwnSteps(w));
    assert Leads(u, OwnSteps(w), v);
    Both(s, Turns(w, 6), u, OwnSteps(w), v);
  }

  lemma WorkerReleases(s: State, w: MsgId)
    requires w in s.msgs && s.msgs[w].pc == Called
    ensures WorkerCanStep(s, w) && Leads(s, [WorkerStep(w)], StepWorker(s, w))
    ensures StepWorker(s, w) ==
            s.(msgs := s.msgs[w := s.msgs[w].(pc := Outside, mutex := MsgFree, pos := s.msgs[w].pos + 1)])
    ensures ImageOf(StepWorker(s, w)) == ImageOf(s)
  {
    One(s, WorkerStep(w));
  }

  // Setting the loop's flag wakes the loop thread if it sleeps.
  lemma SetWakesLoop(s: State, w: MsgId)
    requires WorkerCanStep(s, w) && s.msgs[w].pc == Pushed
    ensures StepWorker(s, w).main == if s.main.LoopAsleep? then LoopRetake(s.main.timed, false) else s.main
  {
  }

  // ---------- termination ----------

  const TERMINATE := [MainStep, MainStep]

  // requestTermination with the message's mutex free: the message is marked,
  // its flag cleared, its worker awake, and client code goes on.
  lemma TerminationMarks(s: State, m: MsgId)
    requires s.main.Client? && Alive(s, m) && s.msgs[m].mutex == MsgFree
    ensures Leads(s, [AskTermination(m), MainStep] + TERMINATE + [MainStep],
                  s.(msgs := s.msgs[m := Released(s.msgs[m]).(destroyed := true)]))
  {
    var b := s.main.body;
    var s2 := s.(msgs := s.msgs[m := s.msgs[m].(mutex := HeldByMain)], main := TermHeld(m, b));
    Two(s, AskTermination(m), s.(main := TermWant(m, b)), MainStep, s2);
    MarksAndClears(s, m, b);
    Both(s, [AskTermination(m), MainStep], s2, TERMINATE, AfterMarking(s, m, b));
    ReleasesMarked(s, m);
    Both(s, [AskTermination(m), MainStep] + TERMINATE, AfterMarking(s, m, b), [MainStep],
         s.(msgs := s.msgs[m := Released(s.msgs[m]).(destroyed := true)]));
  }

  lemma ReleasesMarked(s: State, m: MsgId)
    requires s.main.Client? && m in s.msgs && s.msgs[m].mutex == MsgFree
    ensures Leads(AfterMarking(s, m, s.main.body), [MainStep],
                  s.(msgs := s.msgs[m := Released(s.msgs[m]).(destroyed := true)]))
  {
    var t := AfterMarking(s, m, s.main.body);
    assert t.msgs[m := Released(s.msgs[m]).(destroyed := true)] == s.msgs[m := Released(s.msgs[m]).(destroyed := true)];
    One(t, MainStep);
  }

  // About to release the mutex.
  function AfterMarking(s: State, m: MsgId, b: Body): State
    requires m in s.msgs
  {
    var held := s.msgs[m].(mutex := HeldByMain);
    s.(msgs := s.msgs[m := Released(held).(destroyed := true)], main := TermCleared(m, b))
  }

  lemma MarksAndClears(s: State, m: MsgId, b: Body)
    requires m in s.msgs
    ensures Leads(s.(msgs := s.msgs[m := s.msgs[m].(mutex := HeldByMain)], main := TermHeld(m, b)), TERMINATE,
                  AfterMarking(s, m, b))
  {
    var held := s.msgs[m].(mutex := HeldByMain);
    var s2 := s.(msgs := s.msgs[m := held], main := TermHeld(m, b));
    var s3 := s.(msgs := s.msgs[m := held.(destroyed := true)], main := TermMarked(m, b));
    assert s2.msgs[m := held.(destroyed := true)] == s3.msgs;
    assert s3.msgs[m := Released(held).(destroyed := true)] == AfterMarking(s, m, b).msgs;
    Two(s2, MainStep, s3, MainStep, AfterMarking(s, m, b));
  }

  // waitTermination returns at once from a thread that has ended, and not
  // before.
  lemma JoinWaits(s: State, m: MsgId)
    requires s.main.Client? && Alive(s, m) && s.msgs[m].destroyed && s.msgs[m].pc != NotStarted
    ensures Enabled(s, Join(m)) && (MainCanStep(Step(s, Join(m))) <==> s.msgs[m].pc == Exited)
    ensures s.msgs[m].pc == Exited ==> Leads(s, [Join(m), MainStep], s)
  {
    if s.msgs[m].pc == Exited {
      Two(s, Join(m), s.(main := Joining(m, s.main.body)), MainStep, s);
    }
  }

  // What a message starts with, and what its filter and list stay.
  lemma CreatedMessage(s: State, m: MsgId, script: seq<NetworkInterface>, filter: Family, acts: seq<Action>)
    requires Enabled(s, Create(m, script, filter)) && CanRun(Step(s, Create(m, script, filter)), acts)
    ensures var t := Step(s, Create(m, script, filter));
            && Alive(t, m) && !t.msgs[m].flag && !t.msgs[m].destroyed && t.msgs[m].pc == NotStarted
            && t.msgs[m].seen == [] && t.msgs[m].reported == []
            && m in Run(t, acts).msgs && Run(t, acts).msgs[m].script == script && Run(t, acts).msgs[m].filter == filter
  {
    RunIsMonotone(Step(s, Create(m, script, filter)), acts, m);
  }
}
