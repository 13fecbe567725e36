// Preservation of the hand-off invariant by the steps of the loop thread, and
// the invariant of every reachable state.
module HandOffMain {
  import opened Common
  import opened NetInterface
  import opened HandOff
  import opened HandOffInvariant

  // ---------- steps of run() that change no message ----------

  predicate Control(s: State) {
    s.main.Top? || s.main.WantLoop? || s.main.LoopCheck? || s.main.LoopRetake? || s.main.LoopSet? ||
    s.main.LoopUnlock? || s.main.AfterCall? || s.main.Drain? || s.main.ExitCheck? || s.main.Joining? ||
    (s.main.CallStart? && s.processed.None?)
  }

  predicate SameForClient(v: View, u: View) {
    v == u || (v.proc == Spent && u == v.(proc := NotMine))
  }

  lemma ControlViews(s: State, m: MsgId)
    requires MainCanStep(s) && Control(s) && MainInv(s)
    requires s.loopMutex == LoopByMain <==> MainInLoop(s.main)
    ensures SameForClient(ViewOf(s, m), ViewOf(StepMain(s), m))
  {
    ControlHolds(s, m);
    ControlQueue(s, m);
  }

  lemma ControlQueue(s: State, m: MsgId)
    requires MainCanStep(s) && Control(s)
    requires s.loopMutex == LoopByMain <==> MainInLoop(s.main)
    ensures var t := StepMain(s);
            && t.queue == s.queue && (t.loopMutex == LoopByWorker(m) <==> s.loopMutex == LoopByWorker(m))
            && (t.processed == s.processed || (s.main.Top? && t.processed == None))
  {
  }

  lemma ControlHolds(s: State, m: MsgId)
    requires MainCanStep(s) && Control(s)
    ensures HoldOf(StepMain(s).main, StepMain(s).processed, m) == HoldOf(s.main, s.processed, m)
  {
  }

  lemma SpentIsNotMine(msg: Message, v: View, u: View)
    requires LocalInv(msg, v) && SameForClient(v, u)
    ensures LocalInv(msg, u)
  {
  }

  lemma ControlKeepsLocals(s: State)
    requires Locals(s) && MainInv(s) && LoopInv(s) && MainCanStep(s) && Control(s)
    ensures Locals(StepMain(s))
  {
    var t := StepMain(s);
    forall m | m in t.msgs
      ensures LocalInv(t.msgs[m], ViewOf(t, m))
    {
      assert t.msgs == s.msgs;
      ControlViews(s, m);
      SpentIsNotMine(s.msgs[m], ViewOf(s, m), ViewOf(t, m));
    }
  }

  lemma ControlKeepsMain(s: State)
    requires MainInv(s) && MainCanStep(s) && Control(s)
    ensures MainInv(StepMain(s))
  {
    if InOwnMutex(s.main) {
      MutexStepKeepsMain(s);
    } else {
      PlainStepKeepsMain(s);
    }
  }

  predicate InOwnMutex(pc: MainPc) {
    pc.WantLoop? || pc.LoopCheck? || pc.LoopRetake? || pc.LoopSet? || pc.LoopUnlock?
  }

  lemma MutexStepKeepsMain(s: State)
    requires MainInv(s) && MainCanStep(s) && InOwnMutex(s.main)
    ensures MainInv(StepMain(s))
  {
  }

  lemma PlainStepKeepsMain(s: State)
    requires MainInv(s) && MainCanStep(s) && Control(s) && !InOwnMutex(s.main)
    ensures MainInv(StepMain(s))
  {
  }

  lemma ControlKeepsLoop(s: State)
    requires LoopInv(s) && MainCanStep(s) && Control(s)
    ensures LoopInv(StepMain(s))
  {
  }

  lemma ControlKeepsExit(s: State)
    requires ExitInv(s) && MainCanStep(s) && Control(s)
    ensures ExitInv(StepMain(s))
  {
    assert Live(StepMain(s)) == Live(s);
  }

  // ---------- the pop ----------

  lemma PopKeepsLocals(s: State)
    requires Locals(s) && MainInv(s) && LoopInv(s) && s.main == LoopPop
    ensures Locals(StepMain(s))
  {
    var t := StepMain(s);
    forall m | m in t.msgs
      ensures LocalInv(t.msgs[m], ViewOf(t, m))
    {
      var v, u := ViewOf(s, m), ViewOf(t, m);
      assert LocalInv(s.msgs[m], v);
      if s.queue != [] && m == s.queue[0] {
        assert v.queued && v.proc == NotMine;
        assert u == v.(queued := false, proc := Unseen);
      } else {
        assert m in s.queue <==> m in t.queue;
        assert u == v;
      }
    }
  }

  lemma PopKeepsOthers(s: State)
    requires Locals(s) && MainInv(s) && LoopInv(s) && ExitInv(s) && s.main == LoopPop
    ensures MainInv(StepMain(s)) && LoopInv(StepMain(s)) && ExitInv(StepMain(s))
  {
    assert Live(StepMain(s)) == Live(s);
    if s.queue != [] {
      assert LocalInv(s.msgs[s.queue[0]], ViewOf(s, s.queue[0]));
    }
  }

  // ---------- steps that change the message they are about ----------

  predicate AboutMessage(s: State) {
    s.main.TermWant? || s.main.TermHeld? || s.main.TermMarked? || s.main.TermCleared? ||
    s.main.ClearWant? || s.main.ClearHeld? || s.main.Cleared? ||
    (s.main.CallStart? && s.processed.Some?)
  }

  function Target(s: State): MsgId
    requires AboutMessage(s) && MainCanStep(s)
  {
    match s.main
    case TermWant(m, _) => m
    case TermHeld(m, _) => m
    case TermMarked(m, _) => m
    case TermCleared(m, _) => m
    case _ => s.processed.value
  }

  function Treat(msg: Message, pc: MainPc): Message {
    match pc
    case TermWant(_, _) => msg.(mutex := HeldByMain)
    case TermHeld(_, _) => msg.(destroyed := true)
    case TermMarked(_, _) => SetFlag(msg, false)
    case TermCleared(_, _) => msg.(mutex := MsgFree)
    case ClearWant => msg.(mutex := HeldByMain)
    case ClearHeld => SetFlag(msg, false)
    case Cleared => msg.(mutex := MsgFree)
    case CallStart => Observe(msg)
    case _ => msg
  }

  function TreatView(v: View, pc: MainPc): View {
    match pc
    case TermWant(_, _) => v.(hold := HoldTerm)
    case TermHeld(_, _) => v.(hold := HoldMarked)
    case TermMarked(_, _) => v.(hold := HoldCleared)
    case TermCleared(_, _) => v.(hold := NoHold)
    case ClearWant => v.(hold := HoldClear)
    case ClearHeld => v.(hold := HoldClearDone, proc := Spent)
    case Cleared => v.(hold := NoHold)
    case CallStart => v.(proc := Seen)
    case _ => v
  }

  // What the loop thread knows of its target when the step is taken.
  predicate TreatReady(msg: Message, v: View, pc: MainPc) {
    match pc
    case TermWant(_, _) => msg.mutex == MsgFree && msg.alive
    case TermHeld(_, _) => v.hold == HoldTerm && msg.alive
    case TermMarked(_, _) => v.hold == HoldMarked && msg.alive
    case TermCleared(_, _) => v.hold == HoldCleared && msg.alive && !msg.flag
    case ClearWant => msg.mutex == MsgFree && v.proc == Seen
    case ClearHeld => v.hold == HoldClear && v.proc == Seen
    case Cleared => v.hold == HoldClearDone && v.proc == Spent
    case CallStart => v.proc == Unseen
    case _ => false
  }

  lemma TargetReady(s: State)
    requires Locals(s) && MainInv(s) && MainCanStep(s) && AboutMessage(s)
    ensures Target(s) in s.msgs
    ensures TreatReady(s.msgs[Target(s)], ViewOf(s, Target(s)), s.main)
  {
  }

  lemma TreatKeepsState(msg: Message, v: View, pc: MainPc)
    requires LocalInv(msg, v) && TreatReady(msg, v, pc)
    ensures LockInv(Treat(msg, pc), TreatView(v, pc))
    ensures TokenInv(Treat(msg, pc), TreatView(v, pc))
    ensures LifeInv(Treat(msg, pc), TreatView(v, pc))
  {
  }

  lemma ObserveMail(msg: Message)
    requires msg.slot.Some? && |msg.seen| < |msg.script| && msg.seen == msg.script[..|msg.seen|]
    requires msg.slot.value == msg.script[|msg.seen|]
    requires msg.reported == Filtered(msg.filter, msg.seen)
    ensures Observe(msg).seen == msg.script[..|msg.seen| + 1]
    ensures Observe(msg).reported == Filtered(msg.filter, Observe(msg).seen)
  {
    var seen := Observe(msg).seen;
    assert seen[..|seen| - 1] == msg.seen;
  }

  lemma TreatKeepsMail(msg: Message, v: View, pc: MainPc)
    requires LocalInv(msg, v) && TreatReady(msg, v, pc)
    ensures MailInv(Treat(msg, pc), TreatView(v, pc))
  {
    if pc.CallStart? {
      ObserveMail(msg);
    }
  }

  lemma TermViews(s: State, m: MsgId)
    requires MainCanStep(s) && AboutMessage(s)
    requires s.main.TermWant? || s.main.TermHeld? || s.main.TermMarked? || s.main.TermCleared?
    ensures ViewOf(StepMain(s), m) == if m == Target(s) then TreatView(ViewOf(s, m), s.main) else ViewOf(s, m)
  {
  }

  lemma ClearViews(s: State, m: MsgId)
    requires MainCanStep(s) && AboutMessage(s)
    requires s.main.ClearWant? || s.main.ClearHeld? || s.main.Cleared? || s.main.CallStart?
    ensures ViewOf(StepMain(s), m) == if m == Target(s) then TreatView(ViewOf(s, m), s.main) else ViewOf(s, m)
  {
  }

  lemma TreatIsStep(s: State)
    requires MainCanStep(s) && AboutMessage(s) && Target(s) in s.msgs
    ensures StepMain(s) == Put(s, Target(s), Treat(s.msgs[Target(s)], s.main)).(main := StepMain(s).main)
  {
  }

  lemma TreatKeepsLocals(s: State)
    requires Locals(s) && MainInv(s) && MainCanStep(s) && AboutMessage(s)
    ensures Locals(StepMain(s))
  {
    var t, w := StepMain(s), Target(s);
    TargetReady(s);
    TreatIsStep(s);
    TreatKeepsState(s.msgs[w], ViewOf(s, w), s.main);
    TreatKeepsMail(s.msgs[w], ViewOf(s, w), s.main);
    forall m | m in t.msgs
      ensures LocalInv(t.msgs[m], ViewOf(t, m))
    {
      if s.main.TermWant? || s.main.TermHeld? || s.main.TermMarked? || s.main.TermCleared? {
        TermViews(s, m);
      } else {
        ClearViews(s, m);
      }
    }
  }

  lemma TreatKeepsMain(s: State)
    requires MainInv(s) && MainCanStep(s) && AboutMessage(s)
    ensures MainInv(StepMain(s))
  {
  }

  lemma LoopByMove(s: State, pc: MainPc)
    requires LoopInv(s) && !MainInLoop(s.main) && !MainInLoop(pc) && !pc.LoopAsleep?
    ensures LoopInv(s.(main := pc))
  {
  }

  lemma ExitByMove(s: State, pc: MainPc)
    requires ExitInv(s) && !pc.Done? && !s.main.Top? && !s.main.Done?
    requires BodyIsBeforeRun(s.main) ==> BodyIsBeforeRun(pc)
    ensures ExitInv(s.(main := pc))
  {
    assert Live(s.(main := pc)) == Live(s);
  }

  lemma TreatMoves(s: State)
    requires MainCanStep(s) && AboutMessage(s)
    ensures var pc := StepMain(s).main;
            !MainInLoop(pc) && !pc.LoopAsleep? && !pc.Done? && (BodyIsBeforeRun(s.main) ==> BodyIsBeforeRun(pc))
    ensures s.main.CallStart? || !MainInLoop(s.main)
  {
  }

  lemma TreatKeepsLoop(s: State)
    requires LoopInv(s) && MainInv(s) && MainCanStep(s) && AboutMessage(s)
    ensures LoopInv(StepMain(s))
  {
    var w := Target(s);
    var msg := Treat(s.msgs[w], s.main);
    TreatIsStep(s);
    TreatMoves(s);
    LoopByOne(s, w, msg);
    LoopByMove(Put(s, w, msg), StepMain(s).main);
  }

  lemma TreatKeepsExit(s: State)
    requires ExitInv(s) && MainInv(s) && MainCanStep(s) && AboutMessage(s)
    ensures ExitInv(StepMain(s))
  {
    var w := Target(s);
    var msg := Treat(s.msgs[w], s.main);
    TreatIsStep(s);
    TreatMoves(s);
    ExitByOne(s, w, msg);
    ExitByMove(Put(s, w, msg), StepMain(s).main);
  }

  lemma MainKeeps(s: State)
    requires Inv(s) && MainCanStep(s)
    ensures Inv(StepMain(s))
  {
    if Control(s) {
      ControlKeepsLocals(s);
      ControlKeepsMain(s);
      ControlKeepsLoop(s);
      ControlKeepsExit(s);
    } else if AboutMessage(s) {
      TreatKeepsLocals(s);
      TreatKeepsMain(s);
      TreatKeepsLoop(s);
      TreatKeepsExit(s);
    } else {
      PopKeepsLocals(s);
      PopKeepsOthers(s);
    }
  }

  // ---------- timers, wake-ups and client code ----------

  // Actions of the loop that change neither a message nor the queue ...
  predicate Waking(a: Action) {
    a.FireTimer? || a.TimersNotDue? || a.Timeout? || a.MainSpurious?
  }

  // ... and actions of client code that do not.
  predicate Bookkeeping(a: Action) {
    a.AskTermination? || a.Join? || a.TimersBecome? || a.Stop? || a.Return?
  }

  lemma LocalsBySameViews(s: State, t: State)
    requires Locals(s) && t.msgs == s.msgs
    requires forall m | m in s.msgs :: ViewOf(t, m) == ViewOf(s, m)
    ensures Locals(t)
  {
  }

  lemma WakingViews(s: State, a: Action, m: MsgId)
    requires Enabled(s, a) && Waking(a) && MainInv(s)
    ensures ViewOf(Step(s, a), m) == ViewOf(s, m)
  {
  }

  lemma WakingKeepsRest(s: State, a: Action)
    requires MainInv(s) && LoopInv(s) && ExitInv(s) && Enabled(s, a) && Waking(a)
    ensures MainInv(Step(s, a)) && LoopInv(Step(s, a)) && ExitInv(Step(s, a))
  {
    assert Live(Step(s, a)) == Live(s);
  }

  lemma WakingKeepsLocals(s: State, a: Action)
    requires Locals(s) && MainInv(s) && Enabled(s, a) && Waking(a)
    ensures Locals(Step(s, a))
  {
    var t := Step(s, a);
    forall m | m in s.msgs
      ensures ViewOf(t, m) == ViewOf(s, m)
    {
      WakingViews(s, a, m);
    }
    LocalsBySameViews(s, t);
  }

  lemma ReturnViews(s: State, m: MsgId)
    requires Enabled(s, Return)
    ensures ViewOf(Step(s, Return), m) == ViewOf(s, m)
  {
  }

  lemma StayingViews(s: State, a: Action, m: MsgId)
    requires Enabled(s, a) && Bookkeeping(a) && !a.Return?
    ensures ViewOf(Step(s, a), m) == ViewOf(s, m)
  {
  }

  lemma BookkeepingViews(s: State, a: Action, m: MsgId)
    requires Enabled(s, a) && Bookkeeping(a)
    ensures ViewOf(Step(s, a), m) == ViewOf(s, m)
  {
    if a.Return? {
      ReturnViews(s, m);
    } else {
      StayingViews(s, a, m);
    }
  }

  lemma BookkeepingKeepsMain(s: State, a: Action)
    requires MainInv(s) && Enabled(s, a) && Bookkeeping(a)
    ensures MainInv(Step(s, a))
  {
  }

  lemma BookkeepingKeepsRest(s: State, a: Action)
    requires LoopInv(s) && ExitInv(s) && Enabled(s, a) && Bookkeeping(a)
    ensures LoopInv(Step(s, a)) && ExitInv(Step(s, a))
  {
    BookkeepingKeepsLoop(s, a);
    BookkeepingKeepsExit(s, a);
  }

  lemma BookkeepingKeepsLoop(s: State, a: Action)
    requires LoopInv(s) && Enabled(s, a) && Bookkeeping(a)
    ensures LoopInv(Step(s, a))
  {
    BookkeepingLoopFields(s, a);
    SameLoop(s, Step(s, a));
  }

  lemma BookkeepingLoopFields(s: State, a: Action)
    requires Enabled(s, a) && Bookkeeping(a)
    ensures var t := Step(s, a);
            && t.msgs == s.msgs && t.queue == s.queue && t.loopMutex == s.loopMutex && t.loopFlag == s.loopFlag
            && !MainInLoop(s.main) && !MainInLoop(t.main) && !t.main.LoopAsleep?
  {
  }

  lemma SameLoop(s: State, t: State)
    requires LoopInv(s) && t.msgs == s.msgs && t.queue == s.queue && t.loopMutex == s.loopMutex
    requires t.loopFlag == s.loopFlag && (MainInLoop(s.main) <==> MainInLoop(t.main)) && !t.main.LoopAsleep?
    ensures LoopInv(t)
  {
  }

  lemma BookkeepingKeepsExit(s: State, a: Action)
    requires ExitInv(s) && Enabled(s, a) && Bookkeeping(a)
    ensures ExitInv(Step(s, a))
  {
    assert Live(Step(s, a)) == Live(s);
  }

  lemma BookkeepingMsgs(s: State, a: Action)
    requires Enabled(s, a) && Bookkeeping(a)
    ensures Step(s, a).msgs == s.msgs
  {
  }

  lemma BookkeepingKeepsLocals(s: State, a: Action)
    requires Locals(s) && Enabled(s, a) && Bookkeeping(a)
    ensures Locals(Step(s, a))
  {
    var t := Step(s, a);
    BookkeepingMsgs(s, a);
    forall m | m in s.msgs
      ensures ViewOf(t, m) == ViewOf(s, m)
    {
      BookkeepingViews(s, a, m);
    }
    LocalsBySameViews(s, t);
  }

  lemma CreateKeepsLocals(s: State, a: Action)
    requires Locals(s) && MainInv(s) && LoopInv(s) && Enabled(s, a) && a.Create?
    ensures Locals(Step(s, a))
  {
    var t := Step(s, a);
    forall m | m in t.msgs
      ensures LocalInv(t.msgs[m], ViewOf(t, m))
    {
      if m == a.m {
        assert ViewOf(t, m) == View(false, NotMine, NoHold, false);
        assert t.msgs[m].seen == a.script[..0];
      } else {
        assert ViewOf(t, m) == ViewOf(s, m);
        assert LocalInv(s.msgs[m], ViewOf(s, m));
      }
    }
  }

  lemma CreateKeepsOthers(s: State, a: Action)
    requires MainInv(s) && LoopInv(s) && ExitInv(s) && Enabled(s, a) && a.Create?
    ensures MainInv(Step(s, a)) && LoopInv(Step(s, a)) && ExitInv(Step(s, a))
  {
    CreateKeepsLoop(s, a);
    CreateKeepsExit(s, a);
  }

  lemma CreateKeepsLoop(s: State, a: Action)
    requires LoopInv(s) && Enabled(s, a) && a.Create?
    ensures LoopInv(Step(s, a))
  {
  }

  lemma CreateKeepsExit(s: State, a: Action)
    requires ExitInv(s) && Enabled(s, a) && a.Create?
    ensures ExitInv(Step(s, a))
  {
    assert Live(Step(s, a)) == Live(s) + {a.m};
  }

  lemma StartKeeps(s: State, a: Action)
    requires Inv(s) && Enabled(s, a) && a.Start?
    ensures Inv(Step(s, a))
  {
    PutKeeps(s, a.m, s.msgs[a.m].(pc := Outside));
  }

  lemma DestroyKeepsLocals(s: State, a: Action)
    requires Locals(s) && Enabled(s, a) && a.Destroy?
    ensures Locals(Step(s, a))
  {
    var t := Step(s, a);
    forall m | m in t.msgs
      ensures LocalInv(t.msgs[m], ViewOf(t, m))
    {
      assert LocalInv(s.msgs[m], ViewOf(s, m));
      if m != a.m {
        assert ViewOf(t, m) == ViewOf(s, m);
      } else {
        assert ViewOf(t, m) == View(false, NotMine, NoHold, false);
      }
    }
  }

  lemma DestroyKeepsMain(s: State, a: Action)
    requires MainInv(s) && ExitInv(s) && Enabled(s, a) && a.Destroy?
    ensures MainInv(Step(s, a)) && ExitInv(Step(s, a))
  {
    assert Live(Step(s, a)) == Live(s) - {a.m};
  }

  lemma DestroyKeepsLoop(s: State, a: Action)
    requires LoopInv(s) && Enabled(s, a) && a.Destroy?
    ensures LoopInv(Step(s, a))
  {
    WithoutKeepsDistinct(s.queue, a.m);
  }

  lemma ClientKeeps(s: State, a: Action)
    requires Inv(s) && Enabled(s, a) && (a.Create? || a.Destroy? || Bookkeeping(a))
    ensures Inv(Step(s, a))
  {
    if a.Create? {
      CreateKeepsLocals(s, a);
      CreateKeepsOthers(s, a);
    } else if a.Destroy? {
      DestroyKeepsLocals(s, a);
      DestroyKeepsMain(s, a);
      DestroyKeepsLoop(s, a);
    } else {
      BookkeepingKeepsLocals(s, a);
      BookkeepingKeepsMain(s, a);
      BookkeepingKeepsRest(s, a);
    }
  }

  lemma WakingKeeps(s: State, a: Action)
    requires Inv(s) && Enabled(s, a) && Waking(a)
    ensures Inv(Step(s, a))
  {
    WakingKeepsLocals(s, a);
    WakingKeepsRest(s, a);
  }

  lemma StepKeeps(s: State, a: Action)
    requires Inv(s) && Enabled(s, a)
    ensures Inv(Step(s, a))
  {
    match a {
      case WorkerStep(w) => WorkerKeeps(s, w);
      case WorkerQuit(_) => QuitOrWakeKeeps(s, a);
      case WorkerSpurious(_) => QuitOrWakeKeeps(s, a);
      case MainStep => MainKeeps(s);
      case Start(_) => StartKeeps(s, a);
      case FireTimer => WakingKeeps(s, a);
      case TimersNotDue => WakingKeeps(s, a);
      case Timeout => WakingKeeps(s, a);
      case MainSpurious => WakingKeeps(s, a);
      case _ => ClientKeeps(s, a);
    }
  }

  lemma {:induction false} RunKeeps(s: State, acts: seq<Action>)
    requires Inv(s) && CanRun(s, acts)
    ensures Inv(Run(s, acts))
    decreases acts
  {
    if acts != [] {
      StepKeeps(s, acts[0]);
      RunKeeps(Step(s, acts[0]), acts[1..]);
    }
  }

  lemma ReachableInv(s: State)
    requires Reachable(s)
    ensures Inv(s)
  {
    var acts :| CanRun(Initial, acts) && Run(Initial, acts) == s;
    assert Live(Initial) == {};
    RunKeeps(Initial, acts);
  }
}
