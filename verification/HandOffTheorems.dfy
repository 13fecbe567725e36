// What the hand-off guarantees in every reachable interleaving.
module HandOffTheorems {
  import opened Common
  import opened NetInterface
  import opened HandOff
  import opened HandOffInvariant
  import opened HandOffMain

  // ---------- exclusive hand-off ----------

  // From being filled until push_back the shared fields belong to the worker.
  predicate InWriteSection(s: State, m: MsgId) {
    m in s.msgs &&
    (s.msgs[m].pc.Writing? || s.msgs[m].pc.Written? || s.msgs[m].pc.Flagged? || s.msgs[m].pc.LoopHeld?)
  }

  predicate OnCallRuns(s: State, m: MsgId) {
    s.processed == Some(m) && BodyIsOnCall(s.main)
  }

  // Popped and its flag not cleared yet.
  predicate BeingProcessed(s: State, m: MsgId) {
    s.processed == Some(m) &&
    (s.main.LoopSet? || s.main.LoopUnlock? || s.main.CallStart? || BodyIsOnCall(s.main) ||
     s.main.AfterCall? || s.main.ClearWant? || s.main.ClearHeld?)
  }

  // The calls of one message that are under way: one between set(true) and
  // push_back, one per queue entry, one being processed.
  function Tokens(s: State, m: MsgId): nat
    requires m in s.msgs
  {
    (if s.msgs[m].pc.Flagged? || s.msgs[m].pc.LoopHeld? then 1 else 0)
    + multiset(s.queue)[m]
    + (if BeingProcessed(s, m) then 1 else 0)
  }

  lemma {:induction false} DistinctOnce<T>(q: seq<T>, x: T)
    requires NoDuplicates(q)
    ensures multiset(q)[x] == if x in q then 1 else 0
  {
    if q != [] {
      assert q == [q[0]] + q[1..];
      assert q[0] !in q[1..];
      DistinctOnce(q[1..], x);
    }
  }

  lemma ExclusiveHandOff(s: State, m: MsgId)
    requires Reachable(s) && m in s.msgs
    ensures Tokens(s, m) <= 1
    ensures InWriteSection(s, m) ==> !OnCallRuns(s, m) && m !in s.queue
    ensures s.msgs[m].pc.Writing? || s.msgs[m].pc.Written? ==> Tokens(s, m) == 0
    ensures s.msgs[m].alive && !s.msgs[m].destroyed ==> (s.msgs[m].flag <==> Tokens(s, m) == 1)
  {
    ReachableInv(s);
    assert LocalInv(s.msgs[m], ViewOf(s, m));
    DistinctOnce(s.queue, m);
  }

  // ---------- the mailbox is a FIFO ----------

  lemma MailboxFifo(s: State, m: MsgId)
    requires Reachable(s) && m in s.msgs
    ensures var msg := s.msgs[m];
            && |msg.seen| <= Sent(msg) <= |msg.script|
            && msg.seen == msg.script[..|msg.seen|]
            && msg.reported == Filtered(msg.filter, msg.script[..|msg.seen|])
            && (msg.alive ==> Sent(msg) - |msg.seen| == if Unobserved(ViewOf(s, m)) then 1 else 0)
  {
    ReachableInv(s);
    assert LocalInv(s.msgs[m], ViewOf(s, m));
  }

  // Once the worker has walked its whole list and the loop has caught up, the
  // delegate has been told of exactly the interfaces that pass the filter.
  lemma AllInterfacesReported(s: State, m: MsgId)
    requires Reachable(s) && Alive(s, m)
    requires s.msgs[m].pc == Exited && s.msgs[m].pos == |s.msgs[m].script|
    requires m !in s.queue && !BeingProcessed(s, m)
    ensures s.msgs[m].seen == s.msgs[m].script
    ensures s.msgs[m].reported == Filtered(s.msgs[m].filter, s.msgs[m].script)
  {
    MailboxFifo(s, m);
    assert s.msgs[m].script[..|s.msgs[m].script|] == s.msgs[m].script;
  }

  // Which interfaces the delegate is told of, by their families: with ANY all
  // that were seen, with IP those of either version and those only known to be
  // IP, with any other filter those of that very family; in order, no others.
  lemma ReportedFamilies(s: State, m: MsgId)
    requires Reachable(s) && m in s.msgs
    ensures var msg := s.msgs[m];
            && (msg.filter == ANY ==> msg.reported == msg.seen)
            && (msg.filter == IP ==> msg.reported == OfFamilies(msg.seen, {IPv4, IPv6, IP}))
            && (msg.filter != ANY && msg.filter != IP ==> msg.reported == OfFamilies(msg.seen, {msg.filter}))
  {
    MailboxFifo(s, m);
    FilteredIs(s.msgs[m].filter, s.msgs[m].seen);
  }

  // ---------- what no step undoes ----------

  // How one message may change, apart from what its owner is doing.
  predicate Grows(old_: Message, new_: Message) {
    && (old_.destroyed ==> new_.destroyed)
    && (!old_.alive ==> !new_.alive)
    && old_.script == new_.script && old_.filter == new_.filter
    && old_.seen <= new_.seen
  }

  lemma WorkerStepChanges(s: State, w: MsgId, m: MsgId)
    requires WorkerCanStep(s, w) && m in s.msgs
    ensures m in StepWorker(s, w).msgs
    ensures StepWorker(s, w).msgs[m] == if m == w then Advance(s.msgs[m]) else s.msgs[m]
  {
  }

  lemma AdvanceGrows(msg: Message)
    ensures Grows(msg, Advance(msg)) && Advance(msg).seen == msg.seen
  {
  }

  lemma ControlChanges(s: State)
    requires MainCanStep(s) && !AboutMessage(s)
    ensures StepMain(s).msgs == s.msgs
  {
  }

  lemma TreatGrows(msg: Message, pc: MainPc)
    ensures Grows(msg, Treat(msg, pc)) && (!pc.CallStart? ==> Treat(msg, pc).seen == msg.seen)
  {
  }

  lemma MainStepChanges(s: State, m: MsgId)
    requires MainCanStep(s) && m in s.msgs
    ensures m in StepMain(s).msgs && Grows(s.msgs[m], StepMain(s).msgs[m])
    ensures s.processed != Some(m) ==> StepMain(s).msgs[m].seen == s.msgs[m].seen
  {
    if AboutMessage(s) {
      TreatIsStep(s);
      TreatGrows(s.msgs[m], s.main);
    } else {
      ControlChanges(s);
    }
  }

  lemma OtherStepChanges(s: State, a: Action, m: MsgId)
    requires Enabled(s, a) && !a.WorkerStep? && !a.MainStep? && m in s.msgs
    ensures m in Step(s, a).msgs && Grows(s.msgs[m], Step(s, a).msgs[m])
    ensures Step(s, a).msgs[m].seen == s.msgs[m].seen
  {
  }

  lemma StepIsMonotone(s: State, a: Action, m: MsgId)
    requires Enabled(s, a) && m in s.msgs
    ensures m in Step(s, a).msgs && Grows(s.msgs[m], Step(s, a).msgs[m])
    ensures s.processed != Some(m) ==> Step(s, a).msgs[m].seen == s.msgs[m].seen
  {
    if a.WorkerStep? {
      WorkerStepChanges(s, a.w, m);
      AdvanceGrows(s.msgs[m]);
    } else if a.MainStep? {
      MainStepChanges(s, m);
    } else {
      OtherStepChanges(s, a, m);
    }
  }

  lemma {:induction false} RunIsMonotone(s: State, acts: seq<Action>, m: MsgId)
    requires CanRun(s, acts) && m in s.msgs
    ensures m in Run(s, acts).msgs && Grows(s.msgs[m], Run(s, acts).msgs[m])
    decreases acts
  {
    if acts != [] {
      StepIsMonotone(s, acts[0], m);
      RunIsMonotone(Step(s, acts[0]), acts[1..], m);
    }
  }

  lemma {:induction false} RunConcat(s: State, xs: seq<Action>, ys: seq<Action>)
    requires CanRun(s, xs) && CanRun(Run(s, xs), ys)
    ensures CanRun(s, xs + ys) && Run(s, xs + ys) == Run(Run(s, xs), ys)
    decreases xs
  {
    if xs == [] {
      assert xs + ys == ys;
    } else {
      assert (xs + ys)[1..] == xs[1..] + ys;
      RunConcat(Step(s, xs[0]), xs[1..], ys);
    }
  }

  lemma StaysReachable(s: State, acts: seq<Action>)
    requires Reachable(s) && CanRun(s, acts)
    ensures Reachable(Run(s, acts))
  {
    var before :| CanRun(Initial, before) && Run(Initial, before) == s;
    RunConcat(Initial, before, acts);
  }

  // ---------- shutdown ----------

  // requestTermination has set `destroyed` and released the lock.
  predicate Terminated(s: State, m: MsgId) {
    m in s.msgs && s.msgs[m].destroyed && s.msgs[m].mutex != HeldByMain
  }

  predicate Enqueues(s: State, a: Action, m: MsgId) {
    a == WorkerStep(m) && m in s.msgs && s.msgs[m].pc == LoopHeld
  }

  // No later step enqueues the message, however the run goes on.
  lemma NoEnqueueAfterTermination(s: State, acts: seq<Action>, a: Action, m: MsgId)
    requires Reachable(s) && Terminated(s, m)
    requires CanRun(s, acts) && Enabled(Run(s, acts), a)
    ensures !Enqueues(Run(s, acts), a, m)
    ensures !InWriteSection(Run(s, acts), m)
  {
    StaysReachable(s, acts);
    RunIsMonotone(s, acts, m);
    ReachableInv(Run(s, acts));
    assert LocalInv(Run(s, acts).msgs[m], ViewOf(Run(s, acts), m));
  }

  lemma OwnStepFirst(s: State, w: MsgId, rest: seq<Action>)
    requires WorkerCanStep(s, w) && CanRun(StepWorker(s, w), rest)
    ensures CanRun(s, [WorkerStep(w)] + rest)
    ensures Run(s, [WorkerStep(w)] + rest) == Run(StepWorker(s, w), rest)
  {
    assert ([WorkerStep(w)] + rest)[1..] == rest;
  }

  lemma PutTwice(s: State, m: MsgId, x: Message, y: Message)
    ensures Put(Put(s, m, x), m, y) == Put(s, m, y)
  {
    assert s.msgs[m := x][m := y] == s.msgs[m := y];
  }

  // A worker blocked in the constructor of ActiveCall has been woken, and four
  // steps of its own take it out through the exception, touching nothing else.
  lemma BlockedWorkerThrows(s: State, m: MsgId)
    requires Reachable(s) && Terminated(s, m)
    requires s.msgs[m].pc.Asleep? || s.msgs[m].pc.WantMsg?
    ensures s.msgs[m].pc == WantMsg && WorkerCanStep(s, m)
    ensures var acts := [WorkerStep(m), WorkerStep(m), WorkerStep(m), WorkerStep(m)];
            CanRun(s, acts) && Run(s, acts) == Put(s, m, s.msgs[m].(pc := Exited))
  {
    ReachableInv(s);
    assert LocalInv(s.msgs[m], ViewOf(s, m));
    WokenWorkerThrows(s, m);
  }

  lemma WokenWorkerThrows(s: State, m: MsgId)
    requires m in s.msgs && s.msgs[m].pc.WantMsg? && s.msgs[m].mutex == MsgFree && s.msgs[m].destroyed
    requires !s.msgs[m].flag
    ensures var acts := [WorkerStep(m), WorkerStep(m), WorkerStep(m), WorkerStep(m)];
            CanRun(s, acts) && Run(s, acts) == Put(s, m, s.msgs[m].(pc := Exited))
  {
    var a, msg := WorkerStep(m), s.msgs[m];
    var held := msg.(mutex := HeldByWorker);
    var s1, s2 := Put(s, m, held.(pc := Checking)), Put(s, m, held.(pc := Entered));
    var s3, s4 := Put(s, m, held.(pc := Throwing)), Put(s, m, msg.(pc := Exited));
    PutTwice(s, m, s3.msgs[m], s4.msgs[m]);
    PutTwice(s, m, s2.msgs[m], s3.msgs[m]);
    PutTwice(s, m, s1.msgs[m], s2.msgs[m]);
    assert msg.(pc := Exited) == held.(pc := Exited, mutex := MsgFree);
    OwnStepFirst(s3, m, []);
    OwnStepFirst(s2, m, [a]);
    OwnStepFirst(s1, m, [a, a]);
    OwnStepFirst(s, m, [a, a, a]);
    assert [a, a, a, a] == [a] + [a, a, a] && [a, a, a] == [a] + [a, a] && [a, a] == [a] + [a] && [a] == [a] + [];
  }

  // The messages whose storage a step of the library reads or writes.
  function Touched(s: State, a: Action): set<MsgId> {
    match a
    case WorkerStep(w) => {w}
    case WorkerQuit(w) => {w}
    case WorkerSpurious(w) => {w}
    case MainStep =>
      (match s.main
       case CallStart => if s.processed.Some? then {s.processed.value} else {}
       case ClearWant => if s.processed.Some? then {s.processed.value} else {}
       case ClearHeld => if s.processed.Some? then {s.processed.value} else {}
       case Cleared => if s.processed.Some? then {s.processed.value} else {}
       case TermWant(m, _) => {m}
       case TermHeld(m, _) => {m}
       case TermMarked(m, _) => {m}
       case TermCleared(m, _) => {m}
       case Joining(m, _) => {m}
       case _ => {})
    case _ => {}
  }

  lemma NoDeadMessageTouched(s: State, a: Action, m: MsgId)
    requires Reachable(s) && Enabled(s, a) && m in Touched(s, a)
    ensures Alive(s, m)
  {
    ReachableInv(s);
    if a.MainStep? {
      MainTouchesLive(s, m);
    } else {
      WorkerTouchesLive(s, a, m);
    }
  }

  lemma WorkerTouchesLive(s: State, a: Action, m: MsgId)
    requires Locals(s) && Enabled(s, a) && !a.MainStep? && m in Touched(s, a)
    ensures Alive(s, m)
  {
    assert LocalInv(s.msgs[m], ViewOf(s, m));
    RunningIsAlive(s.msgs[m], ViewOf(s, m));
  }

  lemma RunningIsAlive(msg: Message, v: View)
    requires LocalInv(msg, v) && !msg.pc.NotStarted? && !msg.pc.Exited?
    ensures msg.alive
  {
  }

  predicate Terminates(pc: MainPc) {
    pc.TermWant? || pc.TermHeld? || pc.TermMarked? || pc.TermCleared? || pc.Joining?
  }

  lemma MainTouchesLive(s: State, m: MsgId)
    requires Locals(s) && MainInv(s) && MainCanStep(s) && m in Touched(s, MainStep)
    ensures Alive(s, m)
  {
    if Terminates(s.main) {
      TerminationTouchesLive(s, m);
    } else {
      ProcessingTouchesLive(s, m);
    }
  }

  lemma TerminationTouchesLive(s: State, m: MsgId)
    requires MainInv(s) && m in Touched(s, MainStep) && Terminates(s.main)
    ensures Alive(s, m)
  {
  }

  lemma ProcessingTouchesLive(s: State, m: MsgId)
    requires Locals(s) && MainInv(s) && MainCanStep(s) && m in Touched(s, MainStep) && !Terminates(s.main)
    ensures Alive(s, m)
  {
    assert s.processed == Some(m) && m in s.msgs;
    assert LocalInv(s.msgs[m], ViewOf(s, m));
  }

  // A destroyed message is forgotten for good, even when it was destroyed by
  // its own callback.
  lemma DestroyedIsForgotten(s: State, m: MsgId, acts: seq<Action>)
    requires Reachable(s) && m in s.msgs && !s.msgs[m].alive && CanRun(s, acts)
    ensures var t := Run(s, acts);
            m in t.msgs && m !in t.queue && t.processed != Some(m) && t.msgs[m].seen == s.msgs[m].seen
    decreases acts
  {
    ReachableInv(s);
    assert LocalInv(s.msgs[m], ViewOf(s, m));
    if acts != [] {
      var t := Step(s, acts[0]);
      StepIsMonotone(s, acts[0], m);
      assert CanRun(s, [acts[0]]) && Run(s, [acts[0]]) == t by {
        assert [acts[0]][1..] == [];
        assert CanRun(t, []);
      }
      StaysReachable(s, [acts[0]]);
      DestroyedIsForgotten(t, m, acts[1..]);
    }
  }

  // ---------- wake-ups ----------

  // A sleeping loop with a queued message is about to be signalled, and a
  // sleeping worker waits for a call that is still queued or being processed
  // (or requestTermination is about to signal it).
  lemma NoLostWakeUp(s: State)
    requires Reachable(s)
    ensures s.queue != [] ==> s.loopFlag || SignalPending(s)
    ensures s.main.LoopAsleep? && s.queue != [] ==>
              SignalPending(s) && WorkerCanStep(s, s.loopMutex.w) &&
              StepWorker(s, s.loopMutex.w).main.LoopRetake?
    ensures forall m | m in s.msgs && s.msgs[m].pc.Asleep? ::
              if s.msgs[m].destroyed then s.main.TermMarked? && s.main.m == m
              else m in s.queue || BeingProcessed(s, m)
  {
    ReachableInv(s);
    forall m | m in s.msgs && s.msgs[m].pc.Asleep?
      ensures if s.msgs[m].destroyed then s.main.TermMarked? && s.main.m == m
              else m in s.queue || BeingProcessed(s, m)
    {
      assert LocalInv(s.msgs[m], ViewOf(s, m));
    }
  }

  // Locks nest only message-then-loop: the loop thread never holds or wants
  // the loop's mutex while it holds a message's, and a worker inside enqueue
  // already holds its own message's.
  lemma LockOrder(s: State, m: MsgId)
    requires Reachable(s) && m in s.msgs
    ensures s.msgs[m].mutex == HeldByMain ==>
              s.loopMutex != LoopByMain && !s.main.WantLoop? && !s.main.LoopRetake? &&
              !s.main.TermWant? && !s.main.ClearWant?
    ensures s.loopMutex == LoopByWorker(m) ==> s.msgs[m].mutex == HeldByWorker && !s.msgs[m].pc.WantMsg?
  {
    ReachableInv(s);
    assert LocalInv(s.msgs[m], ViewOf(s, m));
  }

  // ---------- no deadlock ----------

  predicate MainCanAct(s: State) {
    MainCanStep(s) || s.main.Client? || s.main.Drain?
  }

  // run() waits for a call or a timer and nothing is queued.
  predicate Idle(s: State) {
    s.main.LoopAsleep? && s.queue == []
  }

  // The message whose lock or whose thread the loop thread waits for.
  function Awaited(s: State): Option<MsgId> {
    match s.main
    case TermWant(m, _) => Some(m)
    case Joining(m, _) => Some(m)
    case ClearWant => s.processed
    case _ => None
  }

  // The worker whose steps get the loop thread going again.
  function Helper(s: State): MsgId {
    match Awaited(s)
    case None => if s.loopMutex.LoopByWorker? then s.loopMutex.w else 0
    case Some(m) =>
      if m in s.msgs && s.msgs[m].pc.Flagged? && s.loopMutex.LoopByWorker? then s.loopMutex.w else m
  }

  function PcRank(pc: WorkerPc): nat {
    match pc
    case Outside => 14
    case WantMsg => 13
    case Checking => 12
    case Entered => 11
    case Writing => 10
    case Written => 9
    case Flagged => 8
    case LoopHeld => 4
    case Pushed => 3
    case Signalled => 2
    case Called => 1
    case Throwing => 1
    case _ => 0
  }

  function LoopRank(s: State): nat {
    if s.loopMutex.LoopByWorker? && s.loopMutex.w in s.msgs then
      (match s.msgs[s.loopMutex.w].pc
       case LoopHeld => 3
       case Pushed => 2
       case _ => 1)
    else 0
  }

  function Rank(s: State): nat {
    LoopRank(s) +
    match Awaited(s)
    case None => 0
    case Some(m) => if m in s.msgs then PcRank(s.msgs[m].pc) else 0
  }

  predicate Stuck(s: State) {
    !MainCanAct(s) && !s.main.Done? && !Idle(s)
  }

  lemma HelperCanStep(s: State)
    requires Inv(s) && Stuck(s)
    ensures WorkerCanStep(s, Helper(s))
    ensures Awaited(s) == Some(Helper(s)) || s.loopMutex == LoopByWorker(Helper(s))
  {
    if s.loopMutex.LoopByWorker? {
      assert LocalInv(s.msgs[s.loopMutex.w], ViewOf(s, s.loopMutex.w));
    }
    if Awaited(s).Some? {
      AwaitedCanStep(s);
    }
  }

  lemma AwaitedCanStep(s: State)
    requires Inv(s) && Stuck(s) && Awaited(s).Some?
    requires s.loopMutex.LoopByWorker? ==> WorkerCanStep(s, s.loopMutex.w)
    ensures WorkerCanStep(s, Helper(s))
  {
    assert LocalInv(s.msgs[Awaited(s).value], ViewOf(s, Awaited(s).value));
  }

  // A step of worker w either lets the loop thread act or brings it closer.
  predicate Closer(s: State, w: MsgId)
    requires WorkerCanStep(s, w)
  {
    var t := StepWorker(s, w);
    MainCanAct(t) || (Stuck(t) && Rank(t) < Rank(s))
  }

  // w is inside enqueue and nothing but the loop's mutex is awaited.
  lemma LoopHolderGetsCloser(s: State, w: MsgId)
    requires MainInv(s) && LoopInv(s) && Stuck(s) && Awaited(s).None? && WorkerCanStep(s, w)
    requires s.loopMutex == LoopByWorker(w) && LocalInv(s.msgs[w], ViewOf(s, w))
    ensures Closer(s, w)
  {
  }

  // w is inside enqueue and the awaited worker wants to get there.
  lemma OtherHolderGetsCloser(s: State, w: MsgId)
    requires Stuck(s) && Awaited(s).Some? && WorkerCanStep(s, w)
    requires Awaited(s) != Some(w) && s.loopMutex == LoopByWorker(w)
    requires LockInv(s.msgs[w], ViewOf(s, w))
    ensures Closer(s, w)
  {
  }

  lemma QuietStep(s: State, w: MsgId)
    requires WorkerCanStep(s, w) && LockInv(s.msgs[w], ViewOf(s, w)) && !InEnqueue(s.msgs[w].pc)
    ensures StepWorker(s, w) == Put(s, w, Advance(s.msgs[w]))
    ensures LoopRank(StepWorker(s, w)) == LoopRank(s)
  {
  }

  // w holds the message lock that is wanted ...
  lemma MsgHolderGetsCloser(s: State, w: MsgId)
    requires Stuck(s) && WorkerCanStep(s, w) && Awaited(s) == Some(w) && !s.main.Joining?
    requires LockInv(s.msgs[w], ViewOf(s, w)) && !InEnqueue(s.msgs[w].pc)
    ensures Closer(s, w)
  {
    QuietStep(s, w);
  }

  // ... possibly about to enter enqueue ...
  lemma CallerGetsCloser(s: State, w: MsgId)
    requires Stuck(s) && WorkerCanStep(s, w) && Awaited(s) == Some(w) && !s.main.Joining?
    requires LockInv(s.msgs[w], ViewOf(s, w)) && s.msgs[w].pc.Flagged?
    ensures Closer(s, w)
  {
  }

  lemma InsideEnqueueStep(s: State, w: MsgId)
    requires WorkerCanStep(s, w) && InLoop(s.msgs[w].pc) && !s.main.LoopAsleep?
    ensures var t := StepWorker(s, w);
            && t.main == s.main && t.processed == s.processed
            && t.msgs == s.msgs[w := Advance(s.msgs[w])]
            && t.loopMutex == if s.msgs[w].pc.Signalled? then LoopFree else s.loopMutex
  {
  }

  // ... or inside it ...
  lemma EnqueuerGetsCloser(s: State, w: MsgId)
    requires Stuck(s) && WorkerCanStep(s, w) && Awaited(s) == Some(w) && !s.main.Joining?
    requires LockInv(s.msgs[w], ViewOf(s, w)) && InLoop(s.msgs[w].pc)
    ensures Closer(s, w)
  {
    InsideEnqueueStep(s, w);
  }

  // ... or is joined, and was told to terminate.
  lemma JoinedGetsCloser(s: State, w: MsgId)
    requires Stuck(s) && WorkerCanStep(s, w) && Awaited(s) == Some(w) && s.main.Joining?
    requires MainInv(s) && LocalInv(s.msgs[w], ViewOf(s, w))
    ensures Closer(s, w)
  {
    QuietStep(s, w);
  }

  lemma HelperGetsCloser(s: State)
    requires Inv(s) && Stuck(s)
    ensures WorkerCanStep(s, Helper(s)) && Closer(s, Helper(s))
  {
    var w := Helper(s);
    HelperCanStep(s);
    assert LocalInv(s.msgs[w], ViewOf(s, w));
    if Awaited(s).None? {
      LoopHolderGetsCloser(s, w);
    } else if Awaited(s) != Some(w) {
      OtherHolderGetsCloser(s, w);
    } else if s.main.Joining? {
      JoinedGetsCloser(s, w);
    } else if s.msgs[w].pc.Flagged? {
      CallerGetsCloser(s, w);
    } else if InEnqueue(s.msgs[w].pc) {
      EnqueuerGetsCloser(s, w);
    } else {
      MsgHolderGetsCloser(s, w);
    }
  }

  predicate WorkersOnly(acts: seq<Action>) {
    forall i | 0 <= i < |acts| :: acts[i].WorkerStep?
  }

  lemma CloserMeans(s: State, w: MsgId)
    requires WorkerCanStep(s, w) && Closer(s, w)
    ensures var t := StepWorker(s, w); MainCanAct(t) || (Stuck(t) && Rank(t) < Rank(s))
  {
  }

  lemma StuckHasRank(s: State)
    requires Stuck(s) && WorkerCanStep(s, Helper(s))
    requires Awaited(s) == Some(Helper(s)) || s.loopMutex == LoopByWorker(Helper(s))
    ensures Rank(s) >= 1
  {
  }

  lemma {:induction false} HelpersUnblock(s: State) returns (acts: seq<Action>)
    requires Inv(s) && Stuck(s)
    ensures CanRun(s, acts) && WorkersOnly(acts) && |acts| <= Rank(s) && MainCanAct(Run(s, acts))
    decreases Rank(s)
  {
    var w := Helper(s);
    HelperStepHelps(s);
    var t := StepWorker(s, w);
    var rest := [];
    if !MainCanAct(t) {
      rest := HelpersUnblock(t);
    }
    acts := ThenFree(s, w, rest);
  }

  lemma ThenFree(s: State, w: MsgId, rest: seq<Action>) returns (acts: seq<Action>)
    requires WorkerCanStep(s, w) && CanRun(StepWorker(s, w), rest)
    requires WorkersOnly(rest) && MainCanAct(Run(StepWorker(s, w), rest))
    ensures CanRun(s, acts) && WorkersOnly(acts) && |acts| == |rest| + 1 && MainCanAct(Run(s, acts))
  {
    OwnStepFirst(s, w, rest);
    acts := [WorkerStep(w)] + rest;
  }

  lemma HelperStepHelps(s: State)
    requires Inv(s) && Stuck(s)
    ensures WorkerCanStep(s, Helper(s)) && Rank(s) >= 1
    ensures var t := StepWorker(s, Helper(s)); Inv(t) && (MainCanAct(t) || (Stuck(t) && Rank(t) < Rank(s)))
  {
    HelperCanStep(s);
    StuckHasRank(s);
    HelperGetsCloser(s);
    CloserMeans(s, Helper(s));
    WorkerKeeps(s, Helper(s));
  }

  lemma RankBound(s: State)
    ensures Rank(s) <= 17
  {
  }

  // Whenever run() has not returned and is not waiting idly, at most 17 steps
  // of lock holders (or of the thread being joined) let the loop thread go on.
  lemma NoDeadlock(s: State)
    requires Reachable(s) && !s.main.Done? && !Idle(s)
    ensures exists acts :: CanRun(s, acts) && WorkersOnly(acts) && |acts| <= 17 && MainCanAct(Run(s, acts))
  {
    ReachableInv(s);
    if Stuck(s) {
      var acts := HelpersUnblock(s);
      RankBound(s);
    } else {
      assert CanRun(s, []) && Run(s, []) == s && WorkersOnly([]);
    }
  }

  // ---------- natural exit ----------

  // msgCnt counts exactly the registered messages, and only those are queued.
  lemma QueuedAreRegistered(s: State)
    requires Reachable(s)
    ensures s.msgCnt == |Live(s)| && forall m | m in s.queue :: m in Live(s)
  {
    ReachableInv(s);
    forall m | m in s.queue
      ensures m in Live(s)
    {
      assert LocalInv(s.msgs[m], ViewOf(s, m));
    }
  }

  lemma PendingMeansLive(s: State)
    requires Inv(s)
    ensures s.queue != [] || s.processed.Some? ==> Live(s) != {}
  {
    if s.queue != [] {
      assert LocalInv(s.msgs[s.queue[0]], ViewOf(s, s.queue[0]));
      assert s.queue[0] in Live(s);
    } else if s.processed.Some? {
      assert s.processed.value in Live(s);
    }
  }

  lemma NaturalExitDropsNothing(s: State)
    requires Reachable(s) && s.main == Done && !s.stopped
    ensures s.timers == 0 && s.queue == [] && s.processed.None?
    ensures forall m | m in s.msgs :: !s.msgs[m].alive
  {
    ReachableInv(s);
    PendingMeansLive(s);
    assert Live(s) == {};
    forall m | m in s.msgs
      ensures !s.msgs[m].alive
    {
      assert m !in Live(s);
    }
  }
}
