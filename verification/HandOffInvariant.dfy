// The inductive invariant of the hand-off and its preservation by every step.
module HandOffInvariant {
  import opened Common
  import opened NetInterface
  import opened HandOff

  // What the rest of the system holds of one message.
  datatype ProcPhase =
    | NotMine
    | Unseen   // popped, onCall not started
    | Seen     // onCall started, the flag not cleared yet
    | Spent    // flag cleared, processedMsg still points here

  datatype MainHold = NoHold | HoldTerm | HoldMarked | HoldCleared | HoldClear | HoldClearDone

  datatype View = View(queued: bool, proc: ProcPhase, hold: MainHold, inLoop: bool)

  predicate BodyIsOnCall(pc: MainPc) {
    match pc
    case Client(b) => b == InOnCall
    case TermWant(_, b) => b == InOnCall
    case TermHeld(_, b) => b == InOnCall
    case TermMarked(_, b) => b == InOnCall
    case TermCleared(_, b) => b == InOnCall
    case Joining(_, b) => b == InOnCall
    case _ => false
  }

  function PhaseOf(pc: MainPc): ProcPhase {
    if pc.LoopSet? || pc.LoopUnlock? || pc.CallStart? then Unseen
    else if BodyIsOnCall(pc) || pc.AfterCall? || pc.ClearWant? || pc.ClearHeld? then Seen
    else Spent
  }

  function HoldOf(pc: MainPc, processed: Option<MsgId>, m: MsgId): MainHold {
    match pc
    case TermHeld(x, _) => if x == m then HoldTerm else NoHold
    case TermMarked(x, _) => if x == m then HoldMarked else NoHold
    case TermCleared(x, _) => if x == m then HoldCleared else NoHold
    case ClearHeld => if processed == Some(m) then HoldClear else NoHold
    case Cleared => if processed == Some(m) then HoldClearDone else NoHold
    case _ => NoHold
  }

  function ViewOf(s: State, m: MsgId): View {
    View(m in s.queue,
         if s.processed == Some(m) then PhaseOf(s.main) else NotMine,
         HoldOf(s.main, s.processed, m),
         s.loopMutex == LoopByWorker(m))
  }

  predicate InLoop(pc: WorkerPc) {
    pc.LoopHeld? || pc.Pushed? || pc.Signalled?
  }

  predicate Holds(pc: WorkerPc) {
    !pc.NotStarted? && !pc.Outside? && !pc.WantMsg? && !pc.Asleep? && !pc.Exited?
  }

  // Between setting the flag and pushing, the worker itself is the token.
  predicate WorkerToken(pc: WorkerPc) {
    pc.Flagged? || pc.LoopHeld?
  }

  predicate LoopToken(v: View) {
    v.proc == Unseen || v.proc == Seen
  }

  // Past the test of `destroyed` in the constructor of ActiveCall.
  predicate PastTheTest(pc: WorkerPc) {
    pc.Writing? || pc.Written? || pc.Flagged? || pc.LoopHeld? || pc.Pushed? || pc.Signalled? || pc.Called?
  }

  // Values handed over so far.
  function Sent(msg: Message): nat {
    msg.pos + if msg.pc.Pushed? || msg.pc.Signalled? || msg.pc.Called? then 1 else 0
  }

  predicate Unobserved(v: View) {
    v.queued || v.proc == Unseen
  }

  predicate LockInv(msg: Message, v: View) {
    && (msg.mutex == HeldByWorker <==> Holds(msg.pc))
    && (msg.mutex == HeldByMain <==> v.hold != NoHold)
    && (v.inLoop <==> InLoop(msg.pc))
  }

  predicate TokenInv(msg: Message, v: View) {
    && !(WorkerToken(msg.pc) && v.queued)
    && !(WorkerToken(msg.pc) && LoopToken(v))
    && !(v.queued && LoopToken(v))
    && (WorkerToken(msg.pc) ==> msg.flag)
    && (v.queued || LoopToken(v) ==> msg.flag || msg.destroyed)
    && (msg.flag && msg.alive && !msg.destroyed ==> WorkerToken(msg.pc) || v.queued || LoopToken(v))
    && (msg.pc.Entered? || msg.pc.Throwing? || msg.pc.Writing? || msg.pc.Written? ==> !msg.flag)
    && (msg.pc == Asleep ==> msg.flag)
    && (msg.pc == Pushed ==> v.queued)
  }

  predicate LifeInv(msg: Message, v: View) {
    && (!msg.alive ==> (msg.pc.NotStarted? || msg.pc.Exited?) && !v.queued && v.proc == NotMine && v.hold == NoHold)
    && (msg.destroyed ==> !PastTheTest(msg.pc))
    && (msg.destroyed ==> !msg.flag || v.hold == HoldMarked)
    && (msg.pc == Throwing ==> msg.destroyed)
    && (v.hold.HoldMarked? || v.hold.HoldCleared? ==> msg.destroyed)
  }

  predicate MailInv(msg: Message, v: View) {
    && Sent(msg) <= |msg.script|
    && |msg.seen| <= Sent(msg)
    && msg.seen == msg.script[..|msg.seen|]
    && msg.reported == Filtered(msg.filter, msg.seen)
    && (msg.alive ==>
          if Unobserved(v) then |msg.seen| + 1 == Sent(msg) && msg.slot == Some(msg.script[Sent(msg) - 1])
          else |msg.seen| == Sent(msg))
    && (msg.pc == WantMsg || msg.pc == Asleep || Holds(msg.pc) ==> msg.pos < |msg.script|)
    && (msg.pc.Written? || msg.pc.Flagged? || msg.pc.LoopHeld? ==> msg.slot == Some(msg.script[msg.pos]))
  }

  predicate LocalInv(msg: Message, v: View) {
    LockInv(msg, v) && TokenInv(msg, v) && LifeInv(msg, v) && MailInv(msg, v)
  }

  predicate MainInLoop(pc: MainPc) {
    pc.LoopCheck? || pc.LoopPop? || pc.LoopSet? || pc.LoopUnlock?
  }

  // processedMsg is 0 from the top of the loop until the pop.
  predicate BeforePop(pc: MainPc) {
    pc.WantLoop? || pc.LoopCheck? || pc.LoopAsleep? || pc.LoopRetake? || pc.LoopPop?
  }

  predicate MainInv(s: State) {
    && (s.processed.Some? ==> Alive(s, s.processed.value))
    && (BeforePop(s.main) ==> s.processed.None?)
    && (s.main.ClearWant? || s.main.ClearHeld? || s.main.Cleared? ==> s.processed.Some?)
    && match s.main
       case TermWant(m, _) => Alive(s, m)
       case TermHeld(m, _) => Alive(s, m)
       case TermMarked(m, _) => Alive(s, m)
       case TermCleared(m, _) => Alive(s, m) && !s.msgs[m].flag
       case Joining(m, _) =>
         Alive(s, m) && s.msgs[m].destroyed && s.msgs[m].pc != NotStarted
       case _ => true
  }

  // A nonempty queue implies that the loop's flag is set or that the worker
  // that pushed is about to set it.
  ghost predicate LoopInv(s: State) {
    && (s.loopMutex == LoopByMain <==> MainInLoop(s.main))
    && (s.loopMutex.LoopByWorker? ==> s.loopMutex.w in s.msgs)
    && NoDuplicates(s.queue)
    && (forall m | m in s.queue :: m in s.msgs)
    && (s.main.LoopAsleep? ==> !s.loopFlag)
    && (s.queue != [] ==> s.loopFlag || SignalPending(s))
  }

  predicate SignalPending(s: State) {
    s.loopMutex.LoopByWorker? && s.loopMutex.w in s.msgs && s.msgs[s.loopMutex.w].pc == Pushed
  }

  function Live(s: State): set<MsgId> {
    set m | m in s.msgs && s.msgs[m].alive
  }

  predicate ExitInv(s: State) {
    && s.msgCnt == |Live(s)|
    && (s.main == Done ==> !s.running)
    && (!s.running ==>
          s.stopped || BodyIsBeforeRun(s.main) ||
          ((s.main.Top? || s.main.Done?) && s.timers == 0 && s.msgCnt == 0))
  }

  predicate BodyIsBeforeRun(pc: MainPc) {
    match pc
    case Client(b) => b == BeforeRun
    case TermWant(_, b) => b == BeforeRun
    case TermHeld(_, b) => b == BeforeRun
    case TermMarked(_, b) => b == BeforeRun
    case TermCleared(_, b) => b == BeforeRun
    case Joining(_, b) => b == BeforeRun
    case _ => false
  }

  ghost predicate Locals(s: State) {
    forall m | m in s.msgs :: LocalInv(s.msgs[m], ViewOf(s, m))
  }

  ghost predicate Inv(s: State) {
    Locals(s) && MainInv(s) && LoopInv(s) && ExitInv(s)
  }

  // ---------- helpers ----------

  // Rewriting one message keeps what the other parts of the invariant say,
  // as long as it stays registered, does not go back, and leaves the loop's
  // mutex alone.
  predicate Forward(s: State, w: MsgId, msg: Message) {
    && w in s.msgs
    && msg.alive == s.msgs[w].alive
    && (s.msgs[w].destroyed ==> msg.destroyed)
    && (s.msgs[w].pc != NotStarted ==> msg.pc != NotStarted)
    && (s.main.TermCleared? && s.main.m == w ==> !msg.flag)
  }

  lemma MainByOne(s: State, w: MsgId, msg: Message)
    requires MainInv(s) && Forward(s, w, msg)
    ensures MainInv(Put(s, w, msg))
  {
  }

  lemma LoopByOne(s: State, w: MsgId, msg: Message)
    requires LoopInv(s) && w in s.msgs
    requires s.msgs[w].pc == Pushed ==> msg.pc == Pushed
    ensures LoopInv(Put(s, w, msg))
  {
  }

  lemma ExitByOne(s: State, w: MsgId, msg: Message)
    requires ExitInv(s) && w in s.msgs && msg.alive == s.msgs[w].alive
    ensures ExitInv(Put(s, w, msg))
  {
    assert Live(Put(s, w, msg)) == Live(s);
  }

  lemma LocalsByOne(s: State, w: MsgId, msg: Message)
    requires Locals(s) && w in s.msgs && LocalInv(msg, ViewOf(s, w))
    ensures Locals(Put(s, w, msg))
  {
    var t := Put(s, w, msg);
    forall m | m in t.msgs
      ensures LocalInv(t.msgs[m], ViewOf(t, m))
    {
      assert ViewOf(t, m) == ViewOf(s, m);
    }
  }

  lemma PutKeeps(s: State, w: MsgId, msg: Message)
    requires Inv(s) && Forward(s, w, msg) && LocalInv(msg, ViewOf(s, w))
    requires s.msgs[w].pc == Pushed ==> msg.pc == Pushed
    ensures Inv(Put(s, w, msg))
  {
    MainByOne(s, w, msg);
    LoopByOne(s, w, msg);
    ExitByOne(s, w, msg);
    LocalsByOne(s, w, msg);
  }

  // ---------- worker steps ----------

  function AdvanceView(v: View, pc: WorkerPc): View {
    match pc
    case Flagged => v.(inLoop := true)
    case LoopHeld => v.(queued := true)
    case Signalled => v.(inLoop := false)
    case _ => v
  }

  // The step is allowed where another lock is wanted only when it is free.
  predicate CanAdvance(msg: Message) {
    !msg.pc.NotStarted? && !msg.pc.Exited? && !msg.pc.Asleep? && (msg.pc.WantMsg? ==> msg.mutex == MsgFree)
  }

  lemma AdvanceKeepsLocks(msg: Message, v: View)
    requires LockInv(msg, v) && CanAdvance(msg)
    ensures LockInv(Advance(msg), AdvanceView(v, msg.pc))
  {
  }

  lemma AdvanceKeepsToken(msg: Message, v: View)
    requires LocalInv(msg, v) && CanAdvance(msg)
    ensures TokenInv(Advance(msg), AdvanceView(v, msg.pc))
  {
  }

  lemma AdvanceKeepsLife(msg: Message, v: View)
    requires LocalInv(msg, v) && CanAdvance(msg)
    ensures LifeInv(Advance(msg), AdvanceView(v, msg.pc))
  {
  }

  lemma AdvanceKeepsMail(msg: Message, v: View)
    requires LocalInv(msg, v) && CanAdvance(msg)
    ensures MailInv(Advance(msg), AdvanceView(v, msg.pc))
  {
    if Sends(msg.pc) {
      SendKeepsMail(msg, v);
    } else {
      OtherAdvanceKeepsMail(msg, v);
    }
  }

  // The steps that hand the slot over.
  predicate Sends(pc: WorkerPc) {
    pc.LoopHeld? || pc.Called?
  }

  lemma SendKeepsMail(msg: Message, v: View)
    requires LocalInv(msg, v) && CanAdvance(msg) && Sends(msg.pc)
    ensures MailInv(Advance(msg), AdvanceView(v, msg.pc))
  {
  }

  lemma OtherAdvanceKeepsMail(msg: Message, v: View)
    requires LocalInv(msg, v) && CanAdvance(msg) && !Sends(msg.pc)
    ensures MailInv(Advance(msg), AdvanceView(v, msg.pc))
  {
  }

  // ~~~ the same step seen from the whole state ~~~

  lemma LoopEffectViews(s: State, w: MsgId, m: MsgId)
    requires MainInv(s) && WorkerCanStep(s, w) && LockInv(s.msgs[w], ViewOf(s, w))
    ensures ViewOf(LoopEffect(s, w, s.msgs[w].pc), m) ==
            if m == w then AdvanceView(ViewOf(s, m), s.msgs[w].pc) else ViewOf(s, m)
  {
  }

  lemma AdvanceKeepsLocal(msg: Message, v: View)
    requires LocalInv(msg, v) && CanAdvance(msg)
    ensures LocalInv(Advance(msg), AdvanceView(v, msg.pc))
  {
    AdvanceKeepsLocks(msg, v);
    AdvanceKeepsToken(msg, v);
    AdvanceKeepsLife(msg, v);
    AdvanceKeepsMail(msg, v);
  }

  lemma PutKeepsViews(s: State, w: MsgId, msg: Message, m: MsgId)
    ensures ViewOf(Put(s, w, msg), m) == ViewOf(s, m)
  {
  }

  lemma LoopEffectMsgs(s: State, w: MsgId, pc: WorkerPc)
    ensures LoopEffect(s, w, pc).msgs == s.msgs
  {
  }

  lemma WorkerKeepsLocals(s: State, w: MsgId)
    requires Locals(s) && MainInv(s) && WorkerCanStep(s, w)
    ensures Locals(StepWorker(s, w))
  {
    var msg, v := s.msgs[w], ViewOf(s, w);
    assert LocalInv(msg, v);
    AdvanceKeepsLocal(msg, v);
    var e, t := LoopEffect(s, w, msg.pc), StepWorker(s, w);
    LoopEffectMsgs(s, w, msg.pc);
    forall m | m in t.msgs
      ensures LocalInv(t.msgs[m], ViewOf(t, m))
    {
      LoopEffectViews(s, w, m);
      PutKeepsViews(e, w, Advance(msg), m);
    }
  }

  lemma LoopEffectFrame(s: State, w: MsgId, pc: WorkerPc)
    ensures var t := LoopEffect(s, w, pc);
            && t == s.(queue := t.queue, loopFlag := t.loopFlag, loopMutex := t.loopMutex, main := t.main)
            && (t.main == s.main || (s.main.LoopAsleep? && t.main.LoopRetake?))
  {
  }

  lemma LoopEffectKeepsMain(s: State, w: MsgId, pc: WorkerPc)
    requires MainInv(s) && ExitInv(s)
    ensures MainInv(LoopEffect(s, w, pc)) && ExitInv(LoopEffect(s, w, pc))
  {
    LoopEffectFrame(s, w, pc);
    assert Live(LoopEffect(s, w, pc)) == Live(s);
  }

  lemma AdvanceForward(s: State, w: MsgId)
    requires WorkerCanStep(s, w) && LocalInv(s.msgs[w], ViewOf(s, w)) && MainInv(s)
    ensures Forward(LoopEffect(s, w, s.msgs[w].pc), w, Advance(s.msgs[w]))
  {
  }

  // Inside enqueue a worker is not queued yet, and it holds the loop's mutex.
  lemma EnqueuerKeepsLoop(s: State, w: MsgId)
    requires LoopInv(s) && WorkerCanStep(s, w) && LocalInv(s.msgs[w], ViewOf(s, w))
    requires s.msgs[w].pc.Flagged? || InLoop(s.msgs[w].pc)
    ensures LoopInv(StepWorker(s, w))
  {
  }

  lemma WorkerKeepsLoop(s: State, w: MsgId)
    requires Locals(s) && LoopInv(s) && WorkerCanStep(s, w)
    ensures LoopInv(StepWorker(s, w))
  {
    var msg := s.msgs[w];
    assert LocalInv(msg, ViewOf(s, w));
    if msg.pc.Flagged? || InLoop(msg.pc) {
      EnqueuerKeepsLoop(s, w);
    } else {
      LoopByOne(s, w, Advance(msg));
    }
  }

  lemma WorkerKeeps(s: State, w: MsgId)
    requires Inv(s) && WorkerCanStep(s, w)
    ensures Inv(StepWorker(s, w))
  {
    var e, msg := LoopEffect(s, w, s.msgs[w].pc), Advance(s.msgs[w]);
    WorkerKeepsLocals(s, w);
    WorkerKeepsLoop(s, w);
    AdvanceForward(s, w);
    LoopEffectKeepsMain(s, w, s.msgs[w].pc);
    MainByOne(e, w, msg);
    ExitByOne(e, w, msg);
  }

  lemma QuitKeepsLocal(msg: Message, v: View)
    requires LocalInv(msg, v)
    ensures msg.pc.Outside? ==> LocalInv(msg.(pc := Exited), v)
    ensures msg.pc.Asleep? ==> LocalInv(msg.(pc := WantMsg), v)
  {
  }

  lemma QuitOrWakeKeeps(s: State, a: Action)
    requires Inv(s) && Enabled(s, a) && (a.WorkerQuit? || a.WorkerSpurious?)
    ensures Inv(Step(s, a))
  {
    QuitKeepsLocal(s.msgs[a.w], ViewOf(s, a.w));
    PutKeeps(s, a.w, Step(s, a).msgs[a.w]);
  }
}
